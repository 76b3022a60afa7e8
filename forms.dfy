/** What the pages' transaction forms share: the form object, the
    outcome of the request a form sends, the error text shown after a
    failed request, and the category choices for the form's type. */
module Forms {
  import opened Text
  import opened Js
  import opened Wire
  import opened Ledger

  /** The form object `{date, category_id, description, amount, type}`.
      The category id and the amount come from a select or an input (a
      string) or from a listed transaction (a number). */
  datatype Form = Form(date: string, categoryId: JsValue, description: string, amount: JsValue, kind: string)

  /** The empty form for the given day: no category, no description, no
      amount, type "expense". */
  function BlankForm(today: string): Form {
    Form(today, Str(""), "", Str(""), "expense")
  }

  /** How the request a form sends ends: a success, or a failure that
      may carry the server's `message`. */
  datatype Outcome = Succeeded | Failed(message: Option<string>)

  /** `err.response?.data?.message || fallback` */
  function ErrorText(o: Outcome, fallback: string): (e: string)
    ensures o.Failed? && o.message.Some? && o.message.value != "" ==> e == o.message.value
    ensures !(o.Failed? && o.message.Some? && o.message.value != "") ==> e == fallback
  {
    match o
    case Failed(Some(m)) => if m != "" then m else fallback
    case _ => fallback
  }

  /** `categories.filter((cat) => cat.type === kind)` */
  function OfKind(cats: seq<CategoryJson>, kind: string): (r: seq<CategoryJson>)
    ensures |r| <= |cats|
  {
    if cats == [] then []
    else if cats[0].kind == kind then [cats[0]] + OfKind(cats[1..], kind)
    else OfKind(cats[1..], kind)
  }

  /** The choices are exactly the categories of the form's type. */
  lemma {:induction false} OfKindMembers(cats: seq<CategoryJson>, kind: string)
    ensures forall c :: c in OfKind(cats, kind) <==> c in cats && c.kind == kind
  {
    if cats != [] {
      OfKindMembers(cats[1..], kind);
      assert cats == [cats[0]] + cats[1..];
    }
  }

  /** The filter keeps the categories' order: filtering a concatenation
      concatenates the filtered parts. */
  lemma {:induction false} OfKindAppend(a: seq<CategoryJson>, b: seq<CategoryJson>, kind: string)
    ensures OfKind(a + b, kind) == OfKind(a, kind) + OfKind(b, kind)
  {
    if a == [] {
      assert a + b == b;
    } else {
      var ab := a + b;
      assert ab[0] == a[0] && ab[1..] == a[1..] + b;
      OfKindAppend(a[1..], b, kind);
      if a[0].kind == kind {
        var x := [a[0]];
        assert x + (OfKind(a[1..], kind) + OfKind(b, kind)) == (x + OfKind(a[1..], kind)) + OfKind(b, kind);
      }
    }
  }

  /** Filtering every category on the client gives what the server
      sends when asked for that type. */
  lemma {:induction false} OfKindMatchesServer(cats: seq<Category>, kind: string)
    requires kind != ""
    ensures OfKind(CategoriesOfType(cats, None), kind) == CategoriesOfType(cats, Some(kind))
  {
    if cats != [] {
      OfKindMatchesServer(cats[1..], kind);
      var c := cats[0];
      var j := CategoryJson(c.id, c.name, KindName(c.kind), c.icon);
      assert CategoriesOfType(cats, None) == [j] + CategoriesOfType(cats[1..], None);
      OfKindAppend([j], CategoriesOfType(cats[1..], None), kind);
      assert OfKind([j], kind) == (if KindName(c.kind) == kind then [j] else []) by {
        assert [j][1..] == [];
      }
    }
  }
}
