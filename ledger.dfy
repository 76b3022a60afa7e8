/** The transaction query and aggregation engine of the Flask server:
    the filters of GET /api/transactions, /api/analytics/summary and
    /api/analytics/charts, the totals, the per-category expense
    breakdown and the day or month timeline.

    A query is a sequence of criteria that must all hold, as the server
    chains `.filter_by(...)` and `.filter(...)` calls onto one SQLAlchemy
    query.  Amounts are integer cents (the column is Numeric(10, 2)). */
module Ledger {
  import opened Text
  import opened Dates
  import opened Wire

  datatype Kind = Expense | Revenue

  /** The text stored in the `type` column. */
  function KindName(k: Kind): string {
    match k
    case Expense => "expense"
    case Revenue => "revenue"
  }

  /** The server's check that a type is "expense" or "revenue". */
  function ParseKind(s: string): (r: Option<Kind>)
    ensures r.Some? <==> s == "expense" || s == "revenue"
    ensures r.Some? ==> KindName(r.value) == s
  {
    if s == "expense" then Some(Expense)
    else if s == "revenue" then Some(Revenue)
    else None
  }

  datatype Transaction = Transaction(
    id: nat,
    owner: nat,
    date: Date,
    categoryId: int,
    description: string,
    amount: int,
    kind: Kind)

  datatype Category = Category(id: nat, name: string, kind: Kind, icon: string)

  // ---------------------------------------------------------------------
  // Selecting rows

  /** One SQL condition on a transaction row. */
  datatype Criterion =
    | OwnedBy(user: nat)              // user_id = user
    | InCategory(categoryId: int)     // category_id = id
    | OfType(name: string)            // type = name
    | InMonthOf(month: int, year: int) // extract(month) = month and extract(year) = year
    | InYear(year: int)               // extract(year) = year
    | OnDay(day: int)                 // extract(day) = day
    | InMonth(month: int)             // extract(month) = month

  predicate Satisfies(t: Transaction, c: Criterion) {
    match c
    case OwnedBy(u) => t.owner == u
    case InCategory(id) => t.categoryId == id
    case OfType(name) => KindName(t.kind) == name
    case InMonthOf(m, y) => t.date.month == m && t.date.year == y
    case InYear(y) => t.date.year == y
    case OnDay(d) => t.date.day == d
    case InMonth(m) => t.date.month == m
  }

  predicate SatisfiesAll(t: Transaction, cs: seq<Criterion>) {
    forall c :: c in cs ==> Satisfies(t, c)
  }

  lemma SatisfiesAllAppend(t: Transaction, cs: seq<Criterion>, ds: seq<Criterion>)
    ensures SatisfiesAll(t, cs + ds) <==> SatisfiesAll(t, cs) && SatisfiesAll(t, ds)
  {
  }

  lemma SatisfiesOne(t: Transaction, c: Criterion)
    ensures SatisfiesAll(t, [c]) <==> Satisfies(t, c)
  {
    assert c in [c];
  }

  lemma SatisfiesTwo(t: Transaction, c: Criterion, d: Criterion)
    ensures SatisfiesAll(t, [c, d]) <==> Satisfies(t, c) && Satisfies(t, d)
  {
    assert c in [c, d] && d in [c, d];
  }

  lemma SatisfiesKind(t: Transaction, cs: seq<Criterion>)
    ensures SatisfiesAll(t, cs + [OfType("expense")]) <==> SatisfiesAll(t, cs) && t.kind == Expense
    ensures SatisfiesAll(t, cs + [OfType("revenue")]) <==> SatisfiesAll(t, cs) && t.kind == Revenue
  {
    SatisfiesAllAppend(t, cs, [OfType("expense")]);
    SatisfiesAllAppend(t, cs, [OfType("revenue")]);
    assert SatisfiesAll(t, [OfType("expense")]) <==> Satisfies(t, OfType("expense"));
    assert SatisfiesAll(t, [OfType("revenue")]) <==> Satisfies(t, OfType("revenue"));
    assert "expense" != "revenue" by { assert "expense"[0] != "revenue"[0]; }
  }

  /** The rows that meet every criterion, in table order. */
  function Select(rows: seq<Transaction>, cs: seq<Criterion>): (r: seq<Transaction>)
    ensures |r| <= |rows|
    ensures forall t :: t in r <==> t in rows && SatisfiesAll(t, cs)
  {
    if rows == [] then []
    else
      var rest := Select(rows[1..], cs);
      assert forall t :: t in rows <==> t == rows[0] || t in rows[1..] by {
        assert rows == [rows[0]] + rows[1..];
      }
      if SatisfiesAll(rows[0], cs) then [rows[0]] + rest else rest
  }

  lemma {:induction false} SelectAppend(a: seq<Transaction>, b: seq<Transaction>, cs: seq<Criterion>)
    ensures Select(a + b, cs) == Select(a, cs) + Select(b, cs)
  {
    if a == [] {
      assert a + b == b;
    } else {
      assert (a + b)[1..] == a[1..] + b;
      SelectAppend(a[1..], b, cs);
    }
  }

  /** Narrowing a selection by further criteria is selecting by all of them. */
  lemma {:induction false} SelectSelect(rows: seq<Transaction>, cs: seq<Criterion>, ds: seq<Criterion>)
    ensures Select(Select(rows, cs), ds) == Select(rows, cs + ds)
  {
    if rows != [] {
      SelectSelect(rows[1..], cs, ds);
      var head := if SatisfiesAll(rows[0], cs) then [rows[0]] else [];
      SelectAppend(head, Select(rows[1..], cs), ds);
    }
  }

  /** Two lists of criteria that agree on every row select the same rows. */
  lemma {:induction false} SelectSameCriteria(rows: seq<Transaction>, cs: seq<Criterion>, ds: seq<Criterion>)
    requires forall t :: t in rows ==> (SatisfiesAll(t, cs) <==> SatisfiesAll(t, ds))
    ensures Select(rows, cs) == Select(rows, ds)
  {
    if rows != [] {
      SelectSameCriteria(rows[1..], cs, ds);
    }
  }

  /** The sum of the amounts of some rows (Python's sum over them). */
  function Total(rows: seq<Transaction>): int {
    if rows == [] then 0 else rows[0].amount + Total(rows[1..])
  }

  lemma TotalCons(t: Transaction, rows: seq<Transaction>)
    ensures Total([t] + rows) == t.amount + Total(rows)
  {
    assert ([t] + rows)[1..] == rows;
  }

  lemma {:induction false} TotalAppend(a: seq<Transaction>, b: seq<Transaction>)
    ensures Total(a + b) == Total(a) + Total(b)
  {
    if a == [] {
      assert a + b == b;
    } else {
      assert (a + b)[1..] == a[1..] + b;
      TotalAppend(a[1..], b);
    }
  }

  /** Every row is an expense or a revenue, so the two kinds split any
      selection: both in number and in amount. */
  lemma {:induction false} KindsPartition(rows: seq<Transaction>, cs: seq<Criterion>)
    ensures |Select(rows, cs + [OfType("expense")])| + |Select(rows, cs + [OfType("revenue")])|
            == |Select(rows, cs)|
    ensures Total(Select(rows, cs + [OfType("expense")])) + Total(Select(rows, cs + [OfType("revenue")]))
            == Total(Select(rows, cs))
  {
    if rows != [] {
      var t := rows[0];
      KindsPartition(rows[1..], cs);
      SatisfiesKind(t, cs);
      TotalCons(t, Select(rows[1..], cs));
      TotalCons(t, Select(rows[1..], cs + [OfType("expense")]));
      TotalCons(t, Select(rows[1..], cs + [OfType("revenue")]));
    }
  }

  // ---------------------------------------------------------------------
  // The query parameters and the filters built from them

  /** The query parameters as the server reads them: `category_id` and
      `month` converted with int (None when absent or not a number),
      `type` and `period` as given, `year` with the current year already
      filled in when absent or not a number. */
  datatype Query = Query(
    categoryId: Option<int>,
    kind: Option<string>,
    period: Option<string>,
    month: Option<int>,
    year: int)

  /** Python truthiness of an optional integer and an optional string. */
  predicate IntGiven(v: Option<int>) { v.Some? && v.value != 0 }
  predicate TextGiven(v: Option<string>) { v.Some? && v.value != "" }

  /** `period == "monthly" and month` */
  predicate IsMonthly(period: Option<string>, month: Option<int>) {
    period == Some("monthly") && IntGiven(month)
  }

  /** The date filter shared by the list, the summary and the category
      breakdown. */
  function PeriodCriteria(period: Option<string>, month: Option<int>, year: int): (cs: seq<Criterion>)
    ensures |cs| <= 1
  {
    if IsMonthly(period, month) then [InMonthOf(month.value, year)]
    else if period == Some("yearly") then [InYear(year)]
    else []
  }

  /** The period filter keeps exactly the rows of the chosen month of the
      year, or of the chosen year, and every row for any other period. */
  lemma PeriodSelection(rows: seq<Transaction>, period: Option<string>, month: Option<int>, year: int, t: Transaction)
    ensures t in Select(rows, PeriodCriteria(period, month, year)) <==>
      t in rows &&
      (if period == Some("monthly") && IntGiven(month) then t.date.month == month.value && t.date.year == year
       else if period == Some("yearly") then t.date.year == year
       else true)
  {
    PeriodCriteriaMeaning(t, period, month, year);
  }

  lemma PeriodCriteriaMeaning(t: Transaction, period: Option<string>, month: Option<int>, year: int)
    ensures SatisfiesAll(t, PeriodCriteria(period, month, year)) <==>
      (IsMonthly(period, month) ==> t.date.month == month.value && t.date.year == year)
      && (!IsMonthly(period, month) && period == Some("yearly") ==> t.date.year == year)
  {
    var p := PeriodCriteria(period, month, year);
    if IsMonthly(period, month) {
      assert SatisfiesAll(t, p) <==> Satisfies(t, InMonthOf(month.value, year));
    } else if period == Some("yearly") {
      assert SatisfiesAll(t, p) <==> Satisfies(t, InYear(year));
    }
  }

  /** The criteria of GET /api/transactions. */
  function ListCriteria(user: nat, q: Query): seq<Criterion> {
    [OwnedBy(user)]
    + (if IntGiven(q.categoryId) then [InCategory(q.categoryId.value)] else [])
    + (if TextGiven(q.kind) then [OfType(q.kind.value)] else [])
    + PeriodCriteria(q.period, q.month, q.year)
  }

  /** The list filter written out as one condition. */
  predicate Listed(t: Transaction, user: nat, q: Query) {
    && t.owner == user
    && (IntGiven(q.categoryId) ==> t.categoryId == q.categoryId.value)
    && (TextGiven(q.kind) ==> KindName(t.kind) == q.kind.value)
    && (IsMonthly(q.period, q.month) ==> t.date.month == q.month.value && t.date.year == q.year)
    && (!IsMonthly(q.period, q.month) && q.period == Some("yearly") ==> t.date.year == q.year)
  }

  lemma ListCriteriaMeaning(t: Transaction, user: nat, q: Query)
    ensures SatisfiesAll(t, ListCriteria(user, q)) <==> Listed(t, user, q)
  {
    var a := [OwnedBy(user)];
    var b := if IntGiven(q.categoryId) then [InCategory(q.categoryId.value)] else [];
    var c := if TextGiven(q.kind) then [OfType(q.kind.value)] else [];
    var d := PeriodCriteria(q.period, q.month, q.year);
    assert ListCriteria(user, q) == a + b + c + d;
    SatisfiesAllAppend(t, a + b + c, d);
    SatisfiesAllAppend(t, a + b, c);
    SatisfiesAllAppend(t, a, b);
    SatisfiesOne(t, OwnedBy(user));
    if IntGiven(q.categoryId) {
      SatisfiesOne(t, InCategory(q.categoryId.value));
    }
    if TextGiven(q.kind) {
      SatisfiesOne(t, OfType(q.kind.value));
    }
    PeriodCriteriaMeaning(t, q.period, q.month, q.year);
  }

  // ---------------------------------------------------------------------
  // Newest first

  /** ORDER BY date DESC */
  predicate NewestFirst(s: seq<Transaction>) {
    forall i, j :: 0 <= i < j < |s| ==> NotAfter(s[j].date, s[i].date)
  }

  function InsertByDate(t: Transaction, s: seq<Transaction>): (r: seq<Transaction>)
    requires NewestFirst(s)
    ensures NewestFirst(r)
    ensures multiset(r) == multiset(s) + multiset{t}
    ensures |r| == |s| + 1
    ensures r[0] == t || (s != [] && r[0] == s[0])
  {
    if s == [] then [t]
    else if NotAfter(s[0].date, t.date) then
      InsertAtHead(t, s);
      [t] + s
    else
      NewestFirstTail(s);
      var rest := InsertByDate(t, s[1..]);
      assert s == [s[0]] + s[1..];
      InsertAfterHead(t, s, rest);
      [s[0]] + rest
  }

  lemma NewestFirstTail(s: seq<Transaction>)
    requires s != [] && NewestFirst(s)
    ensures NewestFirst(s[1..])
  {
    forall i, j | 0 <= i < j < |s| - 1 ensures NotAfter(s[1..][j].date, s[1..][i].date) {
      assert s[1..][i] == s[i + 1] && s[1..][j] == s[j + 1];
    }
  }

  /** A transaction dated on or after the head of s goes in front. */
  lemma InsertAtHead(t: Transaction, s: seq<Transaction>)
    requires s != [] && NewestFirst(s) && NotAfter(s[0].date, t.date)
    ensures NewestFirst([t] + s)
  {
    var r := [t] + s;
    forall i, j | 0 <= i < j < |r| ensures NotAfter(r[j].date, r[i].date) {
      assert r[j] == s[j - 1];
      if i > 0 {
        assert r[i] == s[i - 1];
      } else {
        NotAfterTransitive(s[j - 1].date, s[0].date, t.date);
      }
    }
  }

  /** When t is dated before the head of s, the head stays first in front
      of any newest-first arrangement of the rest of s and t. */
  lemma InsertAfterHead(t: Transaction, s: seq<Transaction>, rest: seq<Transaction>)
    requires s != [] && NewestFirst(s) && !NotAfter(s[0].date, t.date)
    requires NewestFirst(rest) && multiset(rest) == multiset(s[1..]) + multiset{t}
    ensures NewestFirst([s[0]] + rest)
  {
    var r := [s[0]] + rest;
    forall k | 0 <= k < |rest| ensures NotAfter(rest[k].date, s[0].date) {
      assert rest[k] in multiset(rest);
      if rest[k] != t {
        assert rest[k] in multiset(s[1..]);
        var j :| 0 <= j < |s[1..]| && s[1..][j] == rest[k];
        assert s[j + 1] == rest[k];
      } else {
        NotAfterTotal(s[0].date, t.date);
      }
    }
    forall i, j | 0 <= i < j < |r| ensures NotAfter(r[j].date, r[i].date) {
      if i > 0 {
        assert r[i] == rest[i - 1] && r[j] == rest[j - 1];
      } else {
        assert r[j] == rest[j - 1];
      }
    }
  }

  /** A stable insertion sort by date, newest first. */
  function SortNewestFirst(s: seq<Transaction>): (r: seq<Transaction>)
    ensures NewestFirst(r)
    ensures multiset(r) == multiset(s)
    ensures |r| == |s|
  {
    if s == [] then []
    else
      assert s == [s[0]] + s[1..];
      InsertByDate(s[0], SortNewestFirst(s[1..]))
  }

  /** GET /api/transactions: the caller's rows narrowed by the given
      filters, newest first. */
  function ListTransactions(rows: seq<Transaction>, user: nat, q: Query): (r: seq<Transaction>)
    ensures NewestFirst(r)
    ensures multiset(r) == multiset(Select(rows, ListCriteria(user, q)))
    ensures forall t :: t in r <==> t in rows && Listed(t, user, q)
  {
    var r := SortNewestFirst(Select(rows, ListCriteria(user, q)));
    forall t ensures t in r <==> t in rows && Listed(t, user, q) {
      assert t in r <==> t in multiset(r);
      assert t in Select(rows, ListCriteria(user, q)) <==> t in multiset(Select(rows, ListCriteria(user, q)));
      ListCriteriaMeaning(t, user, q);
    }
    r
  }

  // ---------------------------------------------------------------------
  // Summary

  datatype Summary = Summary(totalExpenses: int, totalRevenues: int, balance: int)

  /** The caller's rows in the period. */
  function PeriodCriteriaOf(user: nat, period: Option<string>, month: Option<int>, year: int): seq<Criterion> {
    [OwnedBy(user)] + PeriodCriteria(period, month, year)
  }

  /** GET /api/analytics/summary */
  function Summarize(rows: seq<Transaction>, user: nat, period: Option<string>, month: Option<int>, year: int): (s: Summary)
    ensures s.balance == s.totalRevenues - s.totalExpenses
  {
    var base := PeriodCriteriaOf(user, period, month, year);
    var expenses := Total(Select(rows, base + [OfType("expense")]));
    var revenues := Total(Select(rows, base + [OfType("revenue")]));
    Summary(expenses, revenues, revenues - expenses)
  }

  /** Expenses and revenues together account for every amount of the
      caller's rows in the period. */
  lemma SummaryCoversPeriod(rows: seq<Transaction>, user: nat, period: Option<string>, month: Option<int>, year: int)
    ensures Summarize(rows, user, period, month, year).totalExpenses
            + Summarize(rows, user, period, month, year).totalRevenues
            == Total(Select(rows, PeriodCriteriaOf(user, period, month, year)))
  {
    KindsPartition(rows, PeriodCriteriaOf(user, period, month, year));
  }

  /** The total of one type over a row followed by others. */
  lemma KindTotalCons(x: Transaction, s: seq<Transaction>, name: string)
    ensures Total(Select([x] + s, [OfType(name)]))
            == (if Satisfies(x, OfType(name)) then x.amount else 0) + Total(Select(s, [OfType(name)]))
  {
    assert ([x] + s)[1..] == s;
    SatisfiesOne(x, OfType(name));
    TotalCons(x, Select(s, [OfType(name)]));
  }

  /** The total of the rows of one type does not depend on where the
      insertion puts the new row. */
  lemma {:induction false} KindTotalInsert(t: Transaction, s: seq<Transaction>, name: string)
    requires NewestFirst(s)
    ensures Total(Select(InsertByDate(t, s), [OfType(name)])) == Total(Select([t] + s, [OfType(name)]))
  {
    if s != [] && !NotAfter(s[0].date, t.date) {
      var rest := InsertByDate(t, s[1..]);
      assert InsertByDate(t, s) == [s[0]] + rest;
      assert s == [s[0]] + s[1..];
      KindTotalInsert(t, s[1..], name);
      KindTotalCons(s[0], rest, name);
      KindTotalCons(t, s[1..], name);
      KindTotalCons(t, s, name);
      KindTotalCons(s[0], s[1..], name);
    }
  }

  lemma {:induction false} KindTotalSorted(s: seq<Transaction>, name: string)
    ensures Total(Select(SortNewestFirst(s), [OfType(name)])) == Total(Select(s, [OfType(name)]))
  {
    if s != [] {
      KindTotalSorted(s[1..], name);
      KindTotalInsert(s[0], SortNewestFirst(s[1..]), name);
      assert s == [s[0]] + s[1..];
      KindTotalCons(s[0], SortNewestFirst(s[1..]), name);
      KindTotalCons(s[0], s[1..], name);
    }
  }

  /** Without a category or a type, the list asks for the caller's rows
      of the period and nothing more. */
  lemma ListCriteriaWithoutFilters(user: nat, period: Option<string>, month: Option<int>, year: int)
    ensures ListCriteria(user, Query(None, None, period, month, year)) == PeriodCriteriaOf(user, period, month, year)
  {
    var q := Query(None, None, period, month, year);
    assert !IntGiven(q.categoryId) && !TextGiven(q.kind);
    assert [OwnedBy(user)] + [] + [] == [OwnedBy(user)];
  }

  /** Sorting the selected rows does not change a type's total. */
  lemma KindTotalOfSelection(rows: seq<Transaction>, base: seq<Criterion>, name: string)
    ensures Total(Select(SortNewestFirst(Select(rows, base)), [OfType(name)])) == Total(Select(rows, base + [OfType(name)]))
  {
    KindTotalSorted(Select(rows, base), name);
    SelectSelect(rows, base, [OfType(name)]);
  }

  /** For the same period, the list without category or type filter and
      the summary agree: the expense and revenue entries of the list add
      up to the summary's totals. */
  lemma ListAgreesWithSummary(rows: seq<Transaction>, user: nat, period: Option<string>, month: Option<int>, year: int)
    ensures var list := ListTransactions(rows, user, Query(None, None, period, month, year));
            var s := Summarize(rows, user, period, month, year);
            Total(Select(list, [OfType("expense")])) == s.totalExpenses
            && Total(Select(list, [OfType("revenue")])) == s.totalRevenues
  {
    var base := PeriodCriteriaOf(user, period, month, year);
    ListCriteriaWithoutFilters(user, period, month, year);
    assert ListTransactions(rows, user, Query(None, None, period, month, year)) == SortNewestFirst(Select(rows, base));
    KindTotalOfSelection(rows, base, "expense");
    KindTotalOfSelection(rows, base, "revenue");
  }

  /** The number of listed rows is the number of rows the summary adds up. */
  lemma ListCountMatchesSummary(rows: seq<Transaction>, user: nat, period: Option<string>, month: Option<int>, year: int)
    ensures var base := PeriodCriteriaOf(user, period, month, year);
            |ListTransactions(rows, user, Query(None, None, period, month, year))|
            == |Select(rows, base + [OfType("expense")])| + |Select(rows, base + [OfType("revenue")])|
  {
    ListCriteriaWithoutFilters(user, period, month, year);
    KindsPartition(rows, PeriodCriteriaOf(user, period, month, year));
  }

  // ---------------------------------------------------------------------
  // Expenses by category

  /** One element of "expenses_by_category".  The category id is the
      grouping key; the reply shows name, icon and amount. */
  datatype CategoryTotal = CategoryTotal(categoryId: nat, name: string, icon: string, amount: int)

  predicate UniqueIds(cats: seq<Category>) {
    forall i, j :: 0 <= i < j < |cats| ==> cats[i].id != cats[j].id
  }

  function CategoryIds(cats: seq<Category>): (ids: set<int>)
    ensures forall c :: c in cats ==> c.id in ids
  {
    if cats == [] then {} else {cats[0].id as int} + CategoryIds(cats[1..])
  }

  /** The criteria of the breakdown query: the caller's expenses in the period. */
  function ChartCriteria(user: nat, period: Option<string>, month: Option<int>, year: int): seq<Criterion> {
    [OwnedBy(user), OfType("expense")] + PeriodCriteria(period, month, year)
  }

  /** The expenses of one category. */
  function SpentIn(expenses: seq<Transaction>, categoryId: int): seq<Transaction> {
    Select(expenses, [InCategory(categoryId)])
  }

  /** Categories joined with the selected expenses and grouped by
      category: one entry per category with at least one expense, in
      category-table order. */
  function Breakdown(cats: seq<Category>, expenses: seq<Transaction>): (r: seq<CategoryTotal>)
    ensures |r| <= |cats|
    ensures forall i :: 0 <= i < |r| ==>
      r[i].categoryId in CategoryIds(cats)
      && SpentIn(expenses, r[i].categoryId) != []
      && r[i].amount == Total(SpentIn(expenses, r[i].categoryId))
  {
    if cats == [] then []
    else
      var c := cats[0];
      var spent := SpentIn(expenses, c.id);
      (if spent != [] then [CategoryTotal(c.id, c.name, c.icon, Total(spent))] else [])
      + Breakdown(cats[1..], expenses)
  }

  /** Every category that has an expense gets an entry with its own
      name and icon. */
  lemma {:induction false} BreakdownHasCategory(cats: seq<Category>, expenses: seq<Transaction>, c: Category)
    requires c in cats && SpentIn(expenses, c.id) != []
    ensures CategoryTotal(c.id, c.name, c.icon, Total(SpentIn(expenses, c.id))) in Breakdown(cats, expenses)
  {
    if c != cats[0] {
      assert c in cats[1..];
      BreakdownHasCategory(cats[1..], expenses, c);
    }
  }

  /** No two entries share a category id. */
  predicate EntryIdsUnique(r: seq<CategoryTotal>) {
    forall i, j :: 0 <= i < j < |r| ==> r[i].categoryId != r[j].categoryId
  }

  lemma EntryIdsUniqueCons(e: CategoryTotal, tail: seq<CategoryTotal>)
    requires EntryIdsUnique(tail)
    requires forall k :: 0 <= k < |tail| ==> tail[k].categoryId != e.categoryId
    ensures EntryIdsUnique([e] + tail)
  {
    var r := [e] + tail;
    forall i, j | 0 <= i < j < |r| ensures r[i].categoryId != r[j].categoryId {
      assert r[j] == tail[j - 1];
      if i > 0 {
        assert r[i] == tail[i - 1];
      }
    }
  }

  /** With unique category ids, no category gets two entries. */
  lemma {:induction false} BreakdownIdsUnique(cats: seq<Category>, expenses: seq<Transaction>)
    requires UniqueIds(cats)
    ensures EntryIdsUnique(Breakdown(cats, expenses))
  {
    if cats != [] {
      HeadIdFresh(cats);
      BreakdownIdsUnique(cats[1..], expenses);
      var c := cats[0];
      var spent := SpentIn(expenses, c.id);
      var tail := Breakdown(cats[1..], expenses);
      if spent != [] {
        var e := CategoryTotal(c.id, c.name, c.icon, Total(spent));
        assert Breakdown(cats, expenses) == [e] + tail;
        forall k | 0 <= k < |tail| ensures tail[k].categoryId != e.categoryId {
          assert tail[k].categoryId in CategoryIds(cats[1..]);
        }
        EntryIdsUniqueCons(e, tail);
      } else {
        assert Breakdown(cats, expenses) == [] + tail;
      }
    }
  }

  lemma HeadIdFresh(cats: seq<Category>)
    requires cats != [] && UniqueIds(cats)
    ensures UniqueIds(cats[1..])
    ensures cats[0].id !in CategoryIds(cats[1..])
  {
    var rest := cats[1..];
    CategoryIdsMembers(rest, cats[0].id);
    forall k | 0 <= k < |rest| ensures rest[k].id != cats[0].id {
      assert rest[k] == cats[k + 1];
    }
  }

  lemma {:induction false} CategoryIdsMembers(cats: seq<Category>, id: int)
    ensures id in CategoryIds(cats) <==> exists k :: 0 <= k < |cats| && cats[k].id == id
  {
    if cats != [] {
      CategoryIdsMembers(cats[1..], id);
      if id in CategoryIds(cats[1..]) {
        var k :| 0 <= k < |cats[1..]| && cats[1..][k].id == id;
        assert cats[k + 1].id == id;
      }
      if exists k :: 0 <= k < |cats| && cats[k].id == id {
        var k :| 0 <= k < |cats| && cats[k].id == id;
        if k > 0 {
          assert cats[1..][k - 1].id == id;
        }
      }
    }
  }

  /** The sum of the amounts of the rows whose category is in ids. */
  function TotalIn(rows: seq<Transaction>, ids: set<int>): int {
    if rows == [] then 0
    else (if rows[0].categoryId in ids then rows[0].amount else 0) + TotalIn(rows[1..], ids)
  }

  lemma {:induction false} TotalInAddCategory(rows: seq<Transaction>, ids: set<int>, id: int)
    requires id !in ids
    ensures TotalIn(rows, ids + {id}) == Total(SpentIn(rows, id)) + TotalIn(rows, ids)
  {
    if rows != [] {
      TotalInAddCategory(rows[1..], ids, id);
      SatisfiesOne(rows[0], InCategory(id));
      TotalCons(rows[0], SpentIn(rows[1..], id));
    }
  }

  lemma {:induction false} TotalInAll(rows: seq<Transaction>, ids: set<int>)
    requires forall t :: t in rows ==> t.categoryId in ids
    ensures TotalIn(rows, ids) == Total(rows)
  {
    if rows != [] {
      TotalInAll(rows[1..], ids);
    }
  }

  function BreakdownSum(r: seq<CategoryTotal>): int {
    if r == [] then 0 else r[0].amount + BreakdownSum(r[1..])
  }

  lemma {:induction false} BreakdownSumAppend(a: seq<CategoryTotal>, b: seq<CategoryTotal>)
    ensures BreakdownSum(a + b) == BreakdownSum(a) + BreakdownSum(b)
  {
    if a == [] {
      assert a + b == b;
    } else {
      assert (a + b)[1..] == a[1..] + b;
      BreakdownSumAppend(a[1..], b);
    }
  }

  /** The entries add up to the expenses whose category is in the table. */
  lemma {:induction false} BreakdownSumIsTotalIn(cats: seq<Category>, expenses: seq<Transaction>)
    requires UniqueIds(cats)
    ensures BreakdownSum(Breakdown(cats, expenses)) == TotalIn(expenses, CategoryIds(cats))
  {
    if cats == [] {
      TotalInNone(expenses);
    } else {
      var c := cats[0];
      var rest := cats[1..];
      HeadIdFresh(cats);
      BreakdownSumIsTotalIn(rest, expenses);
      TotalInAddCategory(expenses, CategoryIds(rest), c.id);
      assert CategoryIds(cats) == CategoryIds(rest) + {c.id as int};
      var head := if SpentIn(expenses, c.id) != [] then [CategoryTotal(c.id, c.name, c.icon, Total(SpentIn(expenses, c.id)))] else [];
      BreakdownSumAppend(head, Breakdown(rest, expenses));
    }
  }

  lemma {:induction false} TotalInNone(rows: seq<Transaction>)
    ensures TotalIn(rows, {}) == 0
  {
    if rows != [] {
      TotalInNone(rows[1..]);
    }
  }

  /** When every transaction names a category of the table, the
      breakdown's entries add up to the summary's total expenses for the
      same period. */
  lemma BreakdownMatchesSummary(rows: seq<Transaction>, cats: seq<Category>, user: nat,
                                period: Option<string>, month: Option<int>, year: int)
    requires UniqueIds(cats)
    requires forall t :: t in rows ==> t.categoryId in CategoryIds(cats)
    ensures BreakdownSum(Breakdown(cats, Select(rows, ChartCriteria(user, period, month, year))))
            == Summarize(rows, user, period, month, year).totalExpenses
  {
    var expenses := Select(rows, ChartCriteria(user, period, month, year));
    var summed := PeriodCriteriaOf(user, period, month, year) + [OfType("expense")];
    forall t | t in rows
      ensures SatisfiesAll(t, ChartCriteria(user, period, month, year)) <==> SatisfiesAll(t, summed)
    {
      var p := PeriodCriteria(period, month, year);
    }
    SelectSameCriteria(rows, ChartCriteria(user, period, month, year), summed);
    BreakdownSumIsTotalIn(cats, expenses);
    TotalInAll(expenses, CategoryIds(cats));
  }

  // ---------------------------------------------------------------------
  // Timeline

  datatype Bucket = Bucket(period: string, expenses: int, revenues: int)

  /** Day buckets for a month, month buckets for a year. */
  datatype Grain = Daily | Monthly

  /** The source gives every month 31 day buckets ("Simplified"). */
  function BucketCount(g: Grain): nat {
    if g == Daily then 31 else 12
  }

  const MonthNames: seq<string> :=
    ["Jan", "Feb", "Mar", "Apr", "May", "Jun", "Jul", "Aug", "Sep", "Oct", "Nov", "Dec"]

  function Label(g: Grain, k: int): string
    requires 1 <= k <= BucketCount(g)
  {
    if g == Daily then IntToString(k) else MonthNames[k - 1]
  }

  function KeyCriterion(g: Grain, k: int): Criterion {
    if g == Daily then OnDay(k) else InMonth(k)
  }

  /** The amount of one type in bucket k of the window. */
  function BucketTotal(window: seq<Transaction>, g: Grain, k: int, name: string): int {
    Total(Select(window, [KeyCriterion(g, k), OfType(name)]))
  }

  function MakeBucket(window: seq<Transaction>, g: Grain, k: int): Bucket
    requires 1 <= k <= BucketCount(g)
  {
    Bucket(Label(g, k), BucketTotal(window, g, k, "expense"), BucketTotal(window, g, k, "revenue"))
  }

  /** Buckets 1..n in order. */
  function Buckets(window: seq<Transaction>, g: Grain, n: nat): (r: seq<Bucket>)
    requires n <= BucketCount(g)
    ensures |r| == n
    ensures forall i :: 0 <= i < n ==> r[i] == MakeBucket(window, g, i + 1)
  {
    if n == 0 then [] else Buckets(window, g, n - 1) + [MakeBucket(window, g, n)]
  }

  /** The grain of the timeline: days only for a monthly period with a month. */
  function TimelineGrain(period: Option<string>, month: Option<int>): Grain {
    if IsMonthly(period, month) then Daily else Monthly
  }

  /** The rows the timeline reads: the caller's rows of the month, or of
      the whole year whatever the period. */
  function TimelineWindow(rows: seq<Transaction>, user: nat, period: Option<string>, month: Option<int>, year: int): seq<Transaction> {
    if IsMonthly(period, month) then Select(rows, [OwnedBy(user), InMonthOf(month.value, year)])
    else Select(rows, [OwnedBy(user), InYear(year)])
  }

  /** The "timeline" of GET /api/analytics/charts. */
  function Timeline(rows: seq<Transaction>, user: nat, period: Option<string>, month: Option<int>, year: int): seq<Bucket> {
    var g := TimelineGrain(period, month);
    Buckets(TimelineWindow(rows, user, period, month, year), g, BucketCount(g))
  }

  /** The two loops of the chart endpoint, appending one bucket per day
      or per month. */
  method BuildTimeline(rows: seq<Transaction>, user: nat, period: Option<string>, month: Option<int>, year: int)
    returns (timeline: seq<Bucket>)
    ensures timeline == Timeline(rows, user, period, month, year)
  {
    timeline := [];
    if IsMonthly(period, month) {
      var window := Select(rows, [OwnedBy(user), InMonthOf(month.value, year)]);
      for day := 1 to 32
        invariant timeline == Buckets(window, Daily, day - 1)
      {
        var dayExpenses := Total(Select(window, [OnDay(day), OfType("expense")]));
        var dayRevenues := Total(Select(window, [OnDay(day), OfType("revenue")]));
        timeline := timeline + [Bucket(IntToString(day), dayExpenses, dayRevenues)];
      }
    } else {
      var window := Select(rows, [OwnedBy(user), InYear(year)]);
      for monthNum := 1 to 13
        invariant timeline == Buckets(window, Monthly, monthNum - 1)
      {
        var monthExpenses := Total(Select(window, [InMonth(monthNum), OfType("expense")]));
        var monthRevenues := Total(Select(window, [InMonth(monthNum), OfType("revenue")]));
        timeline := timeline + [Bucket(MonthNames[monthNum - 1], monthExpenses, monthRevenues)];
      }
    }
  }

  /** 31 buckets labelled "1".."31" for a monthly period with a month,
      otherwise 12 buckets "Jan".."Dec"; each bucket holds the sums of its
      day or month, zero when it has no rows. */
  lemma TimelineShape(rows: seq<Transaction>, user: nat, period: Option<string>, month: Option<int>, year: int)
    ensures var t := Timeline(rows, user, period, month, year);
            var w := TimelineWindow(rows, user, period, month, year);
            && (IsMonthly(period, month) ==>
                  |t| == 31
                  && forall i :: 0 <= i < 31 ==>
                       (t[i].period == IntToString(i + 1)
                        && t[i].expenses == Total(Select(w, [OnDay(i + 1), OfType("expense")]))
                        && t[i].revenues == Total(Select(w, [OnDay(i + 1), OfType("revenue")]))))
            && (!IsMonthly(period, month) ==>
                  |t| == 12
                  && forall i :: 0 <= i < 12 ==>
                       (t[i].period == MonthNames[i]
                        && t[i].expenses == Total(Select(w, [InMonth(i + 1), OfType("expense")]))
                        && t[i].revenues == Total(Select(w, [InMonth(i + 1), OfType("revenue")]))))
  {
  }

  /** The sum of the rows of a type whose key lies in 1..n. */
  function KeyRangeTotal(window: seq<Transaction>, g: Grain, n: int, name: string): int {
    if window == [] then 0
    else
      var t := window[0];
      var k := if g == Daily then t.date.day else t.date.month;
      (if KindName(t.kind) == name && 1 <= k <= n then t.amount else 0)
      + KeyRangeTotal(window[1..], g, n, name)
  }

  lemma {:induction false} KeyRangeStep(window: seq<Transaction>, g: Grain, n: int, name: string)
    requires n >= 1
    ensures KeyRangeTotal(window, g, n, name) == KeyRangeTotal(window, g, n - 1, name) + BucketTotal(window, g, n, name)
  {
    if window != [] {
      KeyRangeStep(window[1..], g, n, name);
      SatisfiesTwo(window[0], KeyCriterion(g, n), OfType(name));
      TotalCons(window[0], Select(window[1..], [KeyCriterion(g, n), OfType(name)]));
    }
  }

  lemma {:induction false} KeyRangeAll(window: seq<Transaction>, g: Grain, name: string)
    requires forall t :: t in window ==> IsValid(t.date)
    ensures KeyRangeTotal(window, g, BucketCount(g), name) == Total(Select(window, [OfType(name)]))
  {
    if window != [] {
      KeyRangeAll(window[1..], g, name);
      SatisfiesOne(window[0], OfType(name));
      TotalCons(window[0], Select(window[1..], [OfType(name)]));
      assert IsValid(window[0].date);
    }
  }

  /** A bucket's expenses or revenues. */
  function Amount(b: Bucket, name: string): int {
    if name == "expense" then b.expenses else b.revenues
  }

  /** The sum of one column of the timeline. */
  function Column(bs: seq<Bucket>, name: string): int {
    if bs == [] then 0 else Column(bs[..|bs| - 1], name) + Amount(bs[|bs| - 1], name)
  }

  lemma {:induction false} ColumnUpTo(window: seq<Transaction>, g: Grain, n: nat, name: string)
    requires n <= BucketCount(g) && (name == "expense" || name == "revenue")
    ensures Column(Buckets(window, g, n), name) == KeyRangeTotal(window, g, n, name)
  {
    if n == 0 {
      KeyRangeEmpty(window, g, name);
    } else {
      ColumnUpTo(window, g, n - 1, name);
      ColumnStep(window, g, n, name);
      KeyRangeStep(window, g, n, name);
    }
  }

  /** Adding bucket n adds its total to the column. */
  lemma ColumnStep(window: seq<Transaction>, g: Grain, n: nat, name: string)
    requires 1 <= n <= BucketCount(g) && (name == "expense" || name == "revenue")
    ensures Column(Buckets(window, g, n), name) == Column(Buckets(window, g, n - 1), name) + BucketTotal(window, g, n, name)
  {
    var bs := Buckets(window, g, n);
    assert bs[..|bs| - 1] == Buckets(window, g, n - 1);
    assert bs[|bs| - 1] == MakeBucket(window, g, n);
  }

  lemma {:induction false} KeyRangeEmpty(window: seq<Transaction>, g: Grain, name: string)
    ensures KeyRangeTotal(window, g, 0, name) == 0
  {
    if window != [] {
      KeyRangeEmpty(window[1..], g, name);
    }
  }

  /** For a monthly period with a month, or a yearly period, the buckets
      add up to the summary's totals for the same period (every stored
      date is a real calendar date, so its day lies in 1..31). */
  lemma TimelineMatchesSummary(rows: seq<Transaction>, user: nat, period: Option<string>, month: Option<int>, year: int)
    requires forall t :: t in rows ==> IsValid(t.date)
    requires IsMonthly(period, month) || period == Some("yearly")
    ensures var t := Timeline(rows, user, period, month, year);
            var s := Summarize(rows, user, period, month, year);
            Column(t, "expense") == s.totalExpenses && Column(t, "revenue") == s.totalRevenues
  {
    var g := TimelineGrain(period, month);
    var w := TimelineWindow(rows, user, period, month, year);
    var base := PeriodCriteriaOf(user, period, month, year);
    if IsMonthly(period, month) {
      assert base == [OwnedBy(user), InMonthOf(month.value, year)];
    } else {
      assert base == [OwnedBy(user), InYear(year)];
    }
    assert w == Select(rows, base);
    ColumnUpTo(w, g, BucketCount(g), "expense");
    ColumnUpTo(w, g, BucketCount(g), "revenue");
    KeyRangeAll(w, g, "expense");
    KeyRangeAll(w, g, "revenue");
    SelectSelect(rows, base, [OfType("expense")]);
    SelectSelect(rows, base, [OfType("revenue")]);
  }

  // ---------------------------------------------------------------------
  // Replies

  /** The first category with the given id (the row's `category`
      relationship), if any. */
  function FindCategory(cats: seq<Category>, id: int): (r: Option<Category>)
    ensures r.Some? ==> r.value in cats && r.value.id == id
    ensures r.None? ==> forall c :: c in cats ==> c.id != id
  {
    if cats == [] then None
    else if cats[0].id == id then Some(cats[0])
    else FindCategory(cats[1..], id)
  }

  /** A row as the server writes it out; None when its category does not
      exist (reading `category.name` then raises, giving a 500 reply). */
  function ToJson(t: Transaction, cats: seq<Category>): (r: Option<TransactionJson>)
    requires IsValid(t.date)
    ensures r.Some? <==> t.categoryId in CategoryIds(cats)
    ensures r.Some? ==> r.value.id == t.id && r.value.amount == t.amount
                        && r.value.description == t.description
                        && r.value.kind == KindName(t.kind) && r.value.categoryId == t.categoryId
    ensures r.Some? ==> r.value.date == Format(t.date)
    ensures r.Some? ==> exists c :: c in cats && c.id == t.categoryId
                          && r.value.categoryName == c.name && r.value.categoryIcon == c.icon
  {
    match FindCategory(cats, t.categoryId)
    case None =>
      assert t.categoryId !in CategoryIds(cats) by { CategoryIdsMembers(cats, t.categoryId); }
      None
    case Some(c) =>
      Some(TransactionJson(t.id, Format(t.date), t.categoryId, c.name, c.icon, t.description, t.amount, KindName(t.kind)))
  }

  /** The "transactions" array, or None for the 500 reply when a listed
      row has no category. */
  function ToJsonList(ts: seq<Transaction>, cats: seq<Category>): (r: Option<seq<TransactionJson>>)
    requires forall t :: t in ts ==> IsValid(t.date)
    ensures r.Some? <==> forall t :: t in ts ==> t.categoryId in CategoryIds(cats)
    ensures r.Some? ==>
      |r.value| == |ts| && forall i :: 0 <= i < |ts| ==> Some(r.value[i]) == ToJson(ts[i], cats)
  {
    if ts == [] then Some([])
    else
      match (ToJson(ts[0], cats), ToJsonList(ts[1..], cats))
      case (Some(j), Some(js)) => Some([j] + js)
      case _ => None
  }

  /** A category as the server writes it out. */
  function CategoryToJson(c: Category): CategoryJson {
    CategoryJson(c.id, c.name, KindName(c.kind), c.icon)
  }

  /** The categories of GET /api/categories, narrowed to a type when one
      is given. */
  function CategoriesOfType(cats: seq<Category>, kind: Option<string>): (r: seq<CategoryJson>)
    ensures |r| <= |cats|
    ensures forall c :: c in r ==> !TextGiven(kind) || c.kind == kind.value
    ensures forall c :: c in cats && (!TextGiven(kind) || KindName(c.kind) == kind.value) ==> CategoryToJson(c) in r
    ensures !TextGiven(kind) ==> |r| == |cats| && forall i :: 0 <= i < |cats| ==> r[i] == CategoryToJson(cats[i])
  {
    if cats == [] then []
    else
      var c := cats[0];
      (if !TextGiven(kind) || KindName(c.kind) == kind.value then [CategoryToJson(c)] else [])
      + CategoriesOfType(cats[1..], kind)
  }
}
