/** The sign-up page: the form's fields, the password checks made
    before anything is sent, and the registration payload. */
module SignUpPage {
  import opened Text
  import opened Js
  import opened Server
  import opened Forms

  const Mismatch := "Passwords do not match"
  const TooShort := "Password must be at least 6 characters"
  const RegisterFailed := "An error occurred during registration"

  /** The form holds every field of the sign-up form. */
  predicate HasFields(form: map<string, string>) {
    && "username" in form && "email" in form && "password" in form && "confirmPassword" in form
    && "age" in form && "occupation" in form && "family_situation" in form
    && "monthly_spending_threshold" in form && "financial_goal" in form
  }

  /** The checks of handleSubmit, in their order: the error they set,
      or None when the form may be sent. */
  function Check(form: map<string, string>): (e: Option<string>)
    requires HasFields(form)
    ensures form["password"] != form["confirmPassword"] ==> e == Some(Mismatch)
    ensures form["password"] == form["confirmPassword"] ==> (e.Some? <==> |form["password"]| < 6)
    ensures e.Some? ==> e.value == Mismatch || e.value == TooShort
  {
    if form["password"] != form["confirmPassword"] then Some(Mismatch)
    else if |form["password"]| < 6 then Some(TooShort)
    else None
  }

  /** `formData.age ? parseInt(formData.age) : null`; a NaN is sent as
      null too. */
  function Age(text: string): Option<int> {
    if text != "" then ParseIntPrefix(text) else None
  }

  /** An integer typed into the age field is sent as that integer; an
      empty field as null. */
  lemma AgeOfInteger(n: int)
    ensures Age(IntToString(n)) == Some(n) && Age("") == None
  {
    ParseIntPrefixOfInt(n);
  }

  /** The registration payload (without the spending threshold). */
  datatype Registration = Registration(
    username: string,
    email: string,
    password: string,
    age: Option<int>,
    occupation: string,
    familySituation: string,
    financialGoal: string)

  function Payload(form: map<string, string>): Registration
    requires HasFields(form)
  {
    Registration(form["username"], form["email"], form["password"], Age(form["age"]),
                 form["occupation"], form["family_situation"], form["financial_goal"])
  }

  /** The body the server's register reads from the payload. */
  function Body(r: Registration): RegisterBody {
    RegisterBody(Some(r.username), Some(r.email), Some(r.password),
                 Profile(r.age, Some(r.occupation), Some(r.familySituation), Some(r.financialGoal)))
  }

  /** A form that passes the page's checks never fails the server's
      password check, and fails its required-field check exactly when
      the username or the email is empty. */
  lemma CheckedPayloadRegisters(form: map<string, string>)
    requires HasFields(form) && Check(form).None?
    ensures var b := Body(Payload(form));
            && Given(b.password) && b.password.value == form["password"]
            && (Given(b.username) && Given(b.email) <==> form["username"] != "" && form["email"] != "")
  {
  }

  class Page {
    var form: map<string, string>
    var error: string
    var loading: bool
    var location: string

    predicate Valid()
      reads this
    {
      HasFields(form)
    }

    /** Every field empty, no error. */
    constructor (location: string)
      ensures Valid()
      ensures forall k :: k in form ==> form[k] == ""
      ensures error == "" && !loading && this.location == location
    {
      form := map["username" := "", "email" := "", "password" := "", "confirmPassword" := "",
                  "age" := "", "occupation" := "", "family_situation" := "",
                  "monthly_spending_threshold" := "", "financial_goal" := ""];
      error := "";
      loading := false;
      this.location := location;
    }

    /** handleChange: the named field takes the value; the error is
        cleared. */
    method HandleChange(name: string, value: string)
      requires Valid()
      modifies this
      ensures Valid()
      ensures form == old(form)[name := value]
      ensures forall k :: k in old(form) && k != name ==> form[k] == old(form)[k]
      ensures error == "" && loading == old(loading) && location == old(location)
    {
      form := form[name := value];
      error := "";
    }

    /** handleSubmit: a form failing the checks shows their error and
        sends nothing; otherwise the payload is sent, a success leads to
        the login page and a failure shows the server's message or a
        fallback. */
    method HandleSubmit(outcome: Outcome) returns (sent: Option<Registration>)
      requires Valid()
      modifies this
      ensures Valid() && form == old(form)
      ensures Check(form).Some? ==>
        sent.None? && error == Check(form).value && loading == old(loading) && location == old(location)
      ensures Check(form).None? ==> sent == Some(Payload(form)) && !loading
      ensures Check(form).None? && outcome.Succeeded? ==> error == "" && location == "/"
      ensures Check(form).None? && outcome.Failed? ==>
        error == ErrorText(outcome, RegisterFailed) && location == old(location)
    {
      error := "";
      if form["password"] != form["confirmPassword"] {
        error := Mismatch;
        return None;
      }
      if |form["password"]| < 6 {
        error := TooShort;
        return None;
      }
      loading := true;
      var age := if form["age"] != "" then ParseIntPrefix(form["age"]) else None;
      sent := Some(Registration(form["username"], form["email"], form["password"], age,
                                form["occupation"], form["family_situation"], form["financial_goal"]));
      if outcome.Succeeded? {
        location := "/";
      } else {
        error := ErrorText(outcome, RegisterFailed);
      }
      loading := false;
    }
  }
}
