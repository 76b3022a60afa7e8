/** The dashboard: its period switch, the quick-add form and the list of
    recent transactions. */
module DashboardPage {
  import opened Text
  import opened Js
  import opened Wire
  import opened Dates
  import opened Ledger
  import opened Server
  import opened Api
  import opened Forms

  const FillAll := "Please fill all fields"
  const AddFailed := "Failed to add transaction"

  /** The quick-add guard: a category, a description and an amount;
      the date is not looked at. */
  predicate Complete(f: Form) {
    Truthy(f.categoryId) && f.description != "" && Truthy(f.amount)
  }

  /** `transactions.slice(0, 5)` */
  function Recent<T>(s: seq<T>): (r: seq<T>)
    ensures |r| == (if |s| < 5 then |s| else 5)
    ensures r == s[..|r|]
  {
    if |s| < 5 then s else s[..5]
  }

  /** Of a list the server sends newest first, the recent ones are the
      newest: none of the rows left out is dated after a shown one. */
  lemma RecentAreNewest(rows: seq<Transaction>)
    requires NewestFirst(rows)
    ensures forall i, j :: 0 <= i < |Recent(rows)| <= j < |rows| ==> NotAfter(rows[j].date, Recent(rows)[i].date)
  {
    var r := Recent(rows);
    forall i, j | 0 <= i < |r| <= j < |rows| ensures NotAfter(rows[j].date, r[i].date) {
      assert r[i] == rows[i];
    }
  }

  /** The quick-add guard ignores the date. */
  lemma CompleteIgnoresDate(f: Form, date: string)
    ensures Complete(f.(date := date)) == Complete(f)
  {
  }

  /** A freshly reset form, and a form whose type was just changed, do
      not pass the guard until a category is chosen again. */
  lemma ResetFormsIncomplete(f: Form, today: string, kind: string)
    ensures !Complete(BlankForm(today))
    ensures !Complete(f.(kind := kind, categoryId := Str("")))
  {
  }

  /** Changing the period changes only the period sent with the list:
      every other parameter stays as it was. */
  lemma PeriodChangeKeepsOtherParams(f: Filters, period: string, key: string)
    requires key != "period"
    ensures Lookup(ListParams(f.(period := Str(period))), key) == Lookup(ListParams(f), key)
  {
    LookupListParams(f, key);
    LookupListParams(f.(period := Str(period)), key);
  }

  class Page {
    var transactions: seq<TransactionJson>
    var categories: seq<CategoryJson>
    var filters: Filters
    var quickAdd: Form
    var quickAddError: string

    /** The page's first state: the current year with no category, an
        empty quick-add form. */
    constructor (today: string, month: int, year: int)
      ensures filters == Filters(Str(""), Undefined, Str("yearly"), Int(month), Int(year))
      ensures quickAdd == BlankForm(today) && quickAddError == ""
      ensures transactions == [] && categories == []
    {
      transactions := [];
      categories := [];
      filters := Filters(Str(""), Undefined, Str("yearly"), Int(month), Int(year));
      quickAdd := BlankForm(today);
      quickAddError := "";
    }

    /** recentTransactions */
    function RecentTransactions(): (r: seq<TransactionJson>)
      reads this
      ensures |r| <= 5 && |r| <= |transactions| && r == transactions[..|r|]
      ensures |transactions| >= 5 ==> |r| == 5
      ensures |transactions| < 5 ==> r == transactions
    {
      Recent(transactions)
    }

    /** filteredQuickAddCategories */
    function QuickAddCategories(): (r: seq<CategoryJson>)
      reads this
      ensures forall c :: c in r <==> c in categories && c.kind == quickAdd.kind
    {
      OfKindMembers(categories, quickAdd.kind);
      OfKind(categories, quickAdd.kind)
    }

    /** handlePeriodChange */
    method PeriodChanged(period: string)
      modifies this
      ensures filters == old(filters).(period := Str(period))
      ensures transactions == old(transactions) && categories == old(categories)
      ensures quickAdd == old(quickAdd) && quickAddError == old(quickAddError)
    {
      filters := filters.(period := Str(period));
    }

    /** The quick-add type select: the type changes and the category is
        dropped. */
    method QuickAddTypeChanged(kind: string)
      modifies this
      ensures quickAdd == old(quickAdd).(kind := kind, categoryId := Str(""))
      ensures transactions == old(transactions) && categories == old(categories)
      ensures filters == old(filters) && quickAddError == old(quickAddError)
    {
      quickAdd := quickAdd.(kind := kind, categoryId := Str(""));
    }

    /** handleQuickAdd: a form missing its category, description or
        amount is refused and nothing is sent; otherwise the form is sent
        as a new transaction, and a success resets it for the given day
        while a failure keeps it and shows the error. */
    method QuickAdd(today: string, outcome: Outcome) returns (sent: Option<Form>)
      modifies this
      ensures !Complete(old(quickAdd)) ==> sent.None? && quickAddError == FillAll && quickAdd == old(quickAdd)
      ensures Complete(old(quickAdd)) ==> sent == Some(old(quickAdd))
      ensures Complete(old(quickAdd)) && outcome.Succeeded? ==> quickAdd == BlankForm(today) && quickAddError == ""
      ensures Complete(old(quickAdd)) && outcome.Failed? ==>
        quickAdd == old(quickAdd) && quickAddError == ErrorText(outcome, AddFailed)
      ensures transactions == old(transactions) && categories == old(categories) && filters == old(filters)
    {
      quickAddError := "";
      if !Truthy(quickAdd.categoryId) || quickAdd.description == "" || !Truthy(quickAdd.amount) {
        quickAddError := FillAll;
        return None;
      }
      sent := Some(quickAdd);
      if outcome.Succeeded? {
        quickAdd := Form(today, Str(""), "", Str(""), "expense");
      } else {
        quickAddError := ErrorText(outcome, AddFailed);
      }
    }
  }
}
