/** The transaction history page: its CSV export, its filters and the
    modal form that creates or edits a transaction. */
module HistoryPage {
  import opened Text
  import opened Js
  import opened Wire
  import opened Ledger
  import opened Server
  import opened Api
  import opened Csv
  import opened Forms

  // ---------------------------------------------------------------------
  // The CSV export

  const Header: seq<string> := ["Date", "Category", "Description", "Amount", "Type"]

  /** A listed transaction's CSV fields, none of them quoted.  The amount
      is the number the reply carries, printed as JavaScript prints it. */
  function Row(t: TransactionJson): seq<string> {
    [t.date, t.categoryName, t.description, NumberText(t.amount), t.kind]
  }

  function Rows(ts: seq<TransactionJson>): (rows: seq<seq<string>>)
    ensures |rows| == |ts|
    ensures forall i :: 0 <= i < |ts| ==> rows[i] == Row(ts[i])
  {
    seq(|ts|, i requires 0 <= i < |ts| => Row(ts[i]))
  }

  /** exportToCSV: nothing for an empty list, otherwise the header line
      and one line per transaction in list order. */
  function ExportCsv(ts: seq<TransactionJson>): (csv: Option<string>)
    ensures csv.None? <==> ts == []
  {
    if |ts| == 0 then None else Some(Document(Header, Rows(ts)))
  }

  /** The text fields of a transaction hold no c. */
  predicate TextFree(t: TransactionJson, c: char) {
    c !in t.date && c !in t.categoryName && c !in t.description && c !in t.kind
  }

  /** A number's text holds neither a comma nor a line break. */
  lemma NumberTextPlainChars(h: int)
    ensures ',' !in NumberText(h) && '\n' !in NumberText(h)
  {
    var s := NumberText(h);
    forall i | 0 <= i < |s| ensures s[i] != ',' && s[i] != '\n' {
      assert IsDigit(s[i]) || s[i] == '-' || s[i] == '.';
    }
  }

  lemma RowFree(t: TransactionJson, c: char)
    requires TextFree(t, c) && (c == ',' || c == '\n')
    ensures Free(Row(t), c)
  {
    NumberTextPlainChars(t.amount);
  }

  /** The header holds neither a comma nor a line break. */
  lemma HeaderFree(c: char)
    requires c == ',' || c == '\n'
    ensures Free(Header, c)
  {
    forall i | 0 <= i < |Header| ensures c !in Header[i] {
      var h := Header[i];
      forall k | 0 <= k < |h| ensures h[k] != c {
        assert 'A' <= h[k] <= 'z';
      }
    }
  }

  lemma RowsFree(ts: seq<TransactionJson>, c: char)
    requires c == ',' || c == '\n'
    requires forall i :: 0 <= i < |ts| ==> TextFree(ts[i], c)
    ensures AllFree(Rows(ts), c)
  {
    forall i | 0 <= i < |ts| ensures Free(Rows(ts)[i], c) {
      RowFree(ts[i], c);
    }
  }

  /** Without line breaks in the text fields, the export has one line
      per transaction after the header: |ts| + 1 lines. */
  lemma ExportLines(ts: seq<TransactionJson>)
    requires ts != []
    requires forall i :: 0 <= i < |ts| ==> TextFree(ts[i], '\n')
    ensures var lines := Split(ExportCsv(ts).value, '\n');
            && |lines| == |ts| + 1
            && lines[0] == Line(Header)
            && forall i :: 0 <= i < |ts| ==> lines[i + 1] == Line(Row(ts[i]))
  {
    HeaderFree('\n');
    RowsFree(ts, '\n');
    DocumentLines(Header, Rows(ts));
  }

  /** Without commas in the text fields, a line reads back as exactly
      the transaction's five fields. */
  lemma ExportColumns(t: TransactionJson)
    requires TextFree(t, ',')
    ensures Split(Line(Row(t)), ',') == [t.date, t.categoryName, t.description, NumberText(t.amount), t.kind]
  {
    RowFree(t, ',');
    LineFields(Row(t));
  }

  /** Nothing is quoted: a comma in the description splits it into two
      columns and pushes the amount into the type's column. */
  lemma CommaInDescription(t: TransactionJson, a: string, b: string)
    requires t.description == a + [','] + b
    requires ',' !in a && ',' !in b && ',' !in t.date && ',' !in t.categoryName && ',' !in t.kind
    ensures Split(Line(Row(t)), ',') == [t.date, t.categoryName, a, b, NumberText(t.amount), t.kind]
    ensures |Split(Line(Row(t)), ',')| == 6
  {
    NumberTextPlainChars(t.amount);
    var pre, post := [t.date, t.categoryName], [NumberText(t.amount), t.kind];
    var cut := [t.date, t.categoryName, a, b, NumberText(t.amount), t.kind];
    assert pre + [a, b] + post == cut;
    assert Row(t) == pre + [a + [','] + b] + post;
    SplitFieldLine(pre, a, b, post);
  }

  // ---------------------------------------------------------------------
  // The page

  datatype Mode = Creating | Editing

  /** The request a submitted form sends. */
  datatype Request = Create(form: Form) | Update(id: nat, form: Form)

  const SaveFailed := "Failed to save transaction"

  /** The form prefilled from a listed transaction. */
  function EditForm(t: TransactionJson): (f: Form)
    ensures f.date == t.date && f.description == t.description && f.kind == t.kind
    ensures JsString(f.categoryId) == IntToString(t.categoryId)
    ensures JsString(f.amount) == NumberText(t.amount)
  {
    WholeNumberText(t.categoryId);
    Form(t.date, Int(t.categoryId), t.description, Num(t.amount), t.kind)
  }

  class Page {
    var categories: seq<CategoryJson>
    var filters: Filters
    var showModal: bool
    var mode: Mode
    var selected: Option<TransactionJson>
    var form: Form
    var error: string

    /** Edit mode always has a transaction selected. */
    predicate Valid()
      reads this
    {
      mode == Editing ==> selected.Some?
    }

    /** The page's first state: the current year with no category or
        type, an empty create form. */
    constructor (today: string, month: int, year: int)
      ensures Valid()
      ensures filters == PageFilters("yearly", month, year)
      ensures form == BlankForm(today) && mode == Creating && selected.None?
      ensures !showModal && error == "" && categories == []
    {
      categories := [];
      filters := PageFilters("yearly", month, year);
      showModal := false;
      mode := Creating;
      selected := None;
      form := BlankForm(today);
      error := "";
    }

    /** `categories.filter((cat) => cat.type === formData.type)` */
    function FilteredCategories(): (r: seq<CategoryJson>)
      reads this
      ensures forall c :: c in r <==> c in categories && c.kind == form.kind
    {
      OfKindMembers(categories, form.kind);
      OfKind(categories, form.kind)
    }

    /** Clear Filters: the current year, no category, no type. */
    method ClearFilters(month: int, year: int)
      requires Valid()
      modifies this
      ensures Valid()
      ensures filters == PageFilters("yearly", month, year)
      ensures categories == old(categories) && showModal == old(showModal) && mode == old(mode)
      ensures selected == old(selected) && form == old(form) && error == old(error)
    {
      filters := Filters(Str(""), Str(""), Str("yearly"), Int(month), Int(year));
    }

    /** The Monthly and Yearly buttons. */
    method SetPeriod(period: string)
      requires Valid()
      modifies this
      ensures Valid()
      ensures filters == old(filters).(period := Str(period))
      ensures categories == old(categories) && showModal == old(showModal) && mode == old(mode)
      ensures selected == old(selected) && form == old(form) && error == old(error)
    {
      filters := filters.(period := Str(period));
    }

    /** The form's Expense and Revenue buttons: the type changes and the
        chosen category is dropped. */
    method SetFormType(kind: string)
      requires Valid()
      modifies this
      ensures Valid()
      ensures form == old(form).(kind := kind, categoryId := Str(""))
      ensures !Truthy(form.categoryId)
      ensures categories == old(categories) && filters == old(filters) && showModal == old(showModal)
      ensures mode == old(mode) && selected == old(selected) && error == old(error)
    {
      form := form.(kind := kind, categoryId := Str(""));
    }

    /** Add Transaction: an empty form in create mode. */
    method CreateClicked(today: string)
      requires Valid()
      modifies this
      ensures Valid()
      ensures mode == Creating && form == BlankForm(today) && showModal
      ensures categories == old(categories) && filters == old(filters)
      ensures selected == old(selected) && error == old(error)
    {
      mode := Creating;
      form := BlankForm(today);
      showModal := true;
    }

    /** Edit: the form prefilled from the transaction, which becomes the
        selected one. */
    method EditClicked(t: TransactionJson)
      requires Valid()
      modifies this
      ensures Valid()
      ensures mode == Editing && selected == Some(t) && form == EditForm(t) && showModal
      ensures categories == old(categories) && filters == old(filters) && error == old(error)
    {
      mode := Editing;
      selected := Some(t);
      form := EditForm(t);
      showModal := true;
    }

    /** Submit: create mode sends the form as a new transaction, edit
        mode as the update of the selected transaction.  A success closes
        the modal; a failure shows the server's message, or a fallback. */
    method Submit(outcome: Outcome) returns (request: Request)
      requires Valid()
      modifies this
      ensures Valid()
      ensures old(mode) == Creating ==> request == Create(old(form))
      ensures old(mode) == Editing ==> request == Update(old(selected).value.id, old(form))
      ensures outcome.Succeeded? ==> !showModal && error == ""
      ensures outcome.Failed? ==> showModal == old(showModal) && error == ErrorText(outcome, SaveFailed)
      ensures categories == old(categories) && filters == old(filters) && mode == old(mode)
      ensures selected == old(selected) && form == old(form)
    {
      error := "";
      if mode == Creating {
        request := Create(form);
      } else {
        request := Update(selected.value.id, form);
      }
      if outcome.Succeeded? {
        showModal := false;
      } else {
        error := ErrorText(outcome, SaveFailed);
      }
    }
  }

  /** After Clear Filters the server lists the user's transactions of
      the given year, of every category and type. */
  lemma ClearedFiltersListYear(t: Transaction, user: nat, month: int, year: int, nowYear: int)
    requires 1 <= month <= 12 && year >= 1
    ensures var q := ListQuery(ParseArgs(QueryString(ListParams(PageFilters("yearly", month, year)))), nowYear);
            Listed(t, user, q) <==> t.owner == user && t.date.year == year
  {
    ServerReadsPageFilters("yearly", month, year, nowYear);
  }
}
