/** The profile page's three exports: the filters each one sends and the
    CSV text each one builds. */
module ProfilePage {
  import opened Text
  import opened Js
  import opened Wire
  import opened Ledger
  import opened Server
  import opened Api
  import opened Csv
  import HistoryPage

  // ---------------------------------------------------------------------
  // The filters

  /** exportTransactions: "monthly" sends the current month and year,
      "yearly" the current year, anything else nothing. */
  function ExportFilters(format: string, month: int, year: int): Filters {
    if format == "monthly" then Filters(Undefined, Undefined, Str("monthly"), Int(month), Int(year))
    else if format == "yearly" then Filters(Undefined, Undefined, Str("yearly"), Undefined, Int(year))
    else NoFilters
  }

  /** exportExpensesOnly and exportRevenuesOnly: a filters object with
      the type set, onto which the period fields are assigned one by
      one. */
  method TypedExportFilters(kind: string, format: string, month: int, year: int) returns (filters: Filters)
    ensures filters == ExportFilters(format, month, year).(kind := Str(kind))
  {
    filters := NoFilters.(kind := Str(kind));
    if format == "monthly" {
      filters := filters.(period := Str("monthly"));
      filters := filters.(month := Int(month));
      filters := filters.(year := Int(year));
    } else if format == "yearly" {
      filters := filters.(period := Str("yearly"));
      filters := filters.(year := Int(year));
    }
  }

  /** What the server's list query becomes for each export scope. */
  function ScopeQuery(kind: Option<string>, format: string, month: int, year: int, nowYear: int): Query {
    if format == "monthly" then Query(None, kind, Some("monthly"), Some(month), year)
    else if format == "yearly" then Query(None, kind, Some("yearly"), None, year)
    else Query(None, kind, None, None, nowYear)
  }

  /** The filters of an export: with a type for the typed exports. */
  function ScopeFilters(kind: Option<Kind>, format: string, month: int, year: int): Filters {
    var base := ExportFilters(format, month, year);
    if kind.Some? then base.(kind := Str(KindName(kind.value))) else base
  }

  function KindText(kind: Option<Kind>): Option<string> {
    if kind.Some? then Some(KindName(kind.value)) else None
  }

  lemma IntSent(n: int)
    requires n != 0
    ensures PlainValue(Int(n)) && SentInt(Int(n)) == Some(n)
  {
    WholeNumberText(n);
    NumberTextPlain(100 * n);
    IntToStringRoundTrip(n);
  }

  lemma TextSent(s: string)
    requires s == "monthly" || s == "yearly" || s == "expense" || s == "revenue"
    ensures PlainValue(Str(s)) && Sent(Str(s)) == Some(s)
  {
    assert Plain("monthly") && Plain("yearly") && Plain("expense") && Plain("revenue");
  }

  lemma KindSent(kind: Option<Kind>)
    ensures var v := if kind.Some? then Str(KindName(kind.value)) else Undefined;
            PlainValue(v) && Sent(v) == KindText(kind)
  {
    if kind.Some? {
      TextSent(KindName(kind.value));
    }
  }

  /** The server reads the scope back: all of the user's transactions,
      those of the current year, or those of the current month.  With a
      type, only that type. */
  lemma ServerReadsScope(kind: Option<Kind>, format: string, month: int, year: int, nowYear: int)
    requires 1 <= month <= 12 && year >= 1
    ensures ListQuery(ParseArgs(QueryString(ListParams(ScopeFilters(kind, format, month, year)))), nowYear)
            == ScopeQuery(KindText(kind), format, month, year, nowYear)
  {
    var f := ScopeFilters(kind, format, month, year);
    KindSent(kind);
    if format == "monthly" {
      TextSent("monthly");
      IntSent(month);
      IntSent(year);
    } else if format == "yearly" {
      TextSent("yearly");
      IntSent(year);
    }
    ServerReadsListFilters(f, nowYear);
  }

  /** The expenses-only export lists only the user's expenses, and the
      revenues-only export only the user's revenues. */
  lemma TypedExportListsOnlyKind(rows: seq<Transaction>, user: nat, kind: Kind, format: string,
                                 month: int, year: int, nowYear: int, t: Transaction)
    requires 1 <= month <= 12 && year >= 1
    requires t in ListTransactions(rows, user, ListQuery(ParseArgs(QueryString(ListParams(
               ExportFilters(format, month, year).(kind := Str(KindName(kind)))))), nowYear))
    ensures t.owner == user && t.kind == kind
  {
    var f := ExportFilters(format, month, year).(kind := Str(KindName(kind)));
    assert ScopeFilters(Some(kind), format, month, year) == f;
    assert KindText(Some(kind)) == Some(KindName(kind));
    ServerReadsScope(Some(kind), format, month, year, nowYear);
    var q := ScopeQuery(Some(KindName(kind)), format, month, year, nowYear);
    assert q.kind == Some(KindName(kind));
    assert Listed(t, user, q);
    assert KindName(t.kind) == KindName(kind);
  }

  // ---------------------------------------------------------------------
  // The CSV text

  /** The full export's header is the history page's; the typed
      exports leave out "Type". */
  const TypedHeader: seq<string> := ["Date", "Category", "Description", "Amount"]

  /** `"${description}"`: wrapped in double quotes, with quotes inside
      left as they are. */
  function Quote(s: string): (q: string)
    ensures |q| == |s| + 2 && q[0] == '"' && q[|q| - 1] == '"' && q[1..|q| - 1] == s
  {
    "\"" + s + "\""
  }

  /** A row of the full export. */
  function Row(t: TransactionJson): seq<string> {
    [t.date, t.categoryName, Quote(t.description), NumberText(t.amount), t.kind]
  }

  /** A row of a typed export: no type column. */
  function TypedRow(t: TransactionJson): seq<string> {
    [t.date, t.categoryName, Quote(t.description), NumberText(t.amount)]
  }

  function Rows(ts: seq<TransactionJson>): (rows: seq<seq<string>>)
    ensures |rows| == |ts| && forall i :: 0 <= i < |ts| ==> rows[i] == Row(ts[i])
  {
    seq(|ts|, i requires 0 <= i < |ts| => Row(ts[i]))
  }

  function TypedRows(ts: seq<TransactionJson>): (rows: seq<seq<string>>)
    ensures |rows| == |ts| && forall i :: 0 <= i < |ts| ==> rows[i] == TypedRow(ts[i])
  {
    seq(|ts|, i requires 0 <= i < |ts| => TypedRow(ts[i]))
  }

  /** exportTransactions: nothing for an empty list. */
  function FullExport(ts: seq<TransactionJson>): (csv: Option<string>)
    ensures csv.None? <==> ts == []
  {
    if |ts| == 0 then None else Some(Document(HistoryPage.Header, Rows(ts)))
  }

  /** exportExpensesOnly and exportRevenuesOnly: nothing for an empty
      list. */
  function TypedExport(ts: seq<TransactionJson>): (csv: Option<string>)
    ensures csv.None? <==> ts == []
  {
    if |ts| == 0 then None else Some(Document(TypedHeader, TypedRows(ts)))
  }

  /** Each transaction with its description quoted. */
  function Quoted(ts: seq<TransactionJson>): (r: seq<TransactionJson>)
    ensures |r| == |ts| && forall i :: 0 <= i < |ts| ==> r[i] == ts[i].(description := Quote(ts[i].description))
  {
    seq(|ts|, i requires 0 <= i < |ts| => ts[i].(description := Quote(ts[i].description)))
  }

  /** The full export is the history page's export of the same list with
      every description quoted. */
  lemma FullExportQuotesHistory(ts: seq<TransactionJson>)
    ensures FullExport(ts) == HistoryPage.ExportCsv(Quoted(ts))
  {
    assert Rows(ts) == HistoryPage.Rows(Quoted(ts));
  }

  /** A typed row is the full row without its last column. */
  lemma TypedRowDropsType(t: TransactionJson)
    ensures TypedRow(t) == Row(t)[..4] && TypedHeader == HistoryPage.Header[..4]
  {
  }

  lemma QuoteFree(s: string, c: char)
    requires c !in s && c != '"'
    ensures c !in Quote(s)
  {
    var q := Quote(s);
    forall i | 0 <= i < |q| ensures q[i] != c {
      if 0 < i < |q| - 1 {
        assert q[i] == q[1..|q| - 1][i - 1];
      }
    }
  }

  lemma TypedHeaderFree(c: char)
    requires c == ',' || c == '\n'
    ensures Free(TypedHeader, c)
  {
    forall i | 0 <= i < |TypedHeader| ensures c !in TypedHeader[i] {
      var h := TypedHeader[i];
      forall k | 0 <= k < |h| ensures h[k] != c {
        assert 'A' <= h[k] <= 'z';
      }
    }
  }

  lemma RowsFree(ts: seq<TransactionJson>)
    requires forall i :: 0 <= i < |ts| ==> HistoryPage.TextFree(ts[i], '\n')
    ensures AllFree(Rows(ts), '\n') && AllFree(TypedRows(ts), '\n')
  {
    forall i | 0 <= i < |ts| ensures Free(Rows(ts)[i], '\n') && Free(TypedRows(ts)[i], '\n') {
      HistoryPage.NumberTextPlainChars(ts[i].amount);
      QuoteFree(ts[i].description, '\n');
    }
  }

  /** Both exports have one line per transaction after the header. */
  lemma ExportLines(ts: seq<TransactionJson>)
    requires ts != []
    requires forall i :: 0 <= i < |ts| ==> HistoryPage.TextFree(ts[i], '\n')
    ensures |Split(FullExport(ts).value, '\n')| == |ts| + 1
  {
    HistoryPage.HeaderFree('\n');
    RowsFree(ts);
    DocumentLines(HistoryPage.Header, Rows(ts));
  }

  lemma TypedExportLines(ts: seq<TransactionJson>)
    requires ts != []
    requires forall i :: 0 <= i < |ts| ==> HistoryPage.TextFree(ts[i], '\n')
    ensures |Split(TypedExport(ts).value, '\n')| == |ts| + 1
  {
    TypedHeaderFree('\n');
    RowsFree(ts);
    DocumentLines(TypedHeader, TypedRows(ts));
  }
}
