/** The web client's service layer: the query parameters each request
    sends, the query string they become, the Authorization header the
    request interceptor adds and the storage the response interceptor
    clears.  The lemmas follow the parameters to what the server reads. */
module Api {
  import opened Text
  import opened Js
  import opened Ledger
  import opened Server

  /** A page's filters object; a key the object lacks is Undefined. */
  datatype Filters = Filters(categoryId: JsValue, kind: JsValue, period: JsValue, month: JsValue, year: JsValue)

  /** `filters = {}` */
  const NoFilters := Filters(Undefined, Undefined, Undefined, Undefined, Undefined)

  /** What `if (v) params.append(name, v)` adds. */
  function Param(name: string, v: JsValue): (ps: seq<(string, string)>)
    ensures |ps| <= 1
    ensures ps != [] <==> Truthy(v)
    ensures forall i :: 0 <= i < |ps| ==> ps[i] == (name, JsString(v))
  {
    if Truthy(v) then [(name, JsString(v))] else []
  }

  /** The parameters of getTransactions. */
  function ListParams(f: Filters): seq<(string, string)> {
    Param("category_id", f.categoryId) + Param("type", f.kind) + Param("period", f.period)
    + Param("month", f.month) + Param("year", f.year)
  }

  /** The parameters of getSummary and getChartData. */
  function PeriodParams(f: Filters): seq<(string, string)> {
    Param("period", f.period) + Param("month", f.month) + Param("year", f.year)
  }

  /** No parameter is sent with an empty value. */
  predicate Filled(params: seq<(string, string)>) {
    forall i :: 0 <= i < |params| ==> params[i].1 != ""
  }

  /** `if (v) params.append(name, v)`: the pair is added only for a
      truthy value, whose text is never empty. */
  method AppendIfTruthy(params: seq<(string, string)>, name: string, v: JsValue) returns (r: seq<(string, string)>)
    ensures r == params + Param(name, v)
    ensures Filled(params) ==> Filled(r)
  {
    r := params;
    if Truthy(v) {
      SentNotEmpty(v);
      r := r + [(name, JsString(v))];
    }
  }

  /** getTransactions: one append per filter, in the order category_id,
      type, period, month, year, each only when its value is truthy. */
  method BuildListParams(f: Filters) returns (params: seq<(string, string)>)
    ensures params == ListParams(f)
    ensures Filled(params)
  {
    params := [];
    params := AppendIfTruthy(params, "category_id", f.categoryId);
    params := AppendIfTruthy(params, "type", f.kind);
    params := AppendIfTruthy(params, "period", f.period);
    params := AppendIfTruthy(params, "month", f.month);
    params := AppendIfTruthy(params, "year", f.year);
    assert [] + Param("category_id", f.categoryId) == Param("category_id", f.categoryId);
  }

  /** getSummary and getChartData: period, month and year only. */
  method BuildPeriodParams(f: Filters) returns (params: seq<(string, string)>)
    ensures params == PeriodParams(f)
    ensures forall i :: 0 <= i < |params| ==> params[i].0 != "category_id" && params[i].0 != "type"
  {
    params := [];
    params := AppendIfTruthy(params, "period", f.period);
    params := AppendIfTruthy(params, "month", f.month);
    params := AppendIfTruthy(params, "year", f.year);
    assert [] + Param("period", f.period) == Param("period", f.period);
  }

  lemma SentNotEmpty(v: JsValue)
    ensures Truthy(v) ==> JsString(v) != ""
  {
  }

  /** The summary and chart requests send what the list request would
      send for the same filters without a category or a type. */
  lemma PeriodParamsIgnoreCategoryAndType(f: Filters)
    ensures PeriodParams(f) == ListParams(f.(categoryId := Undefined, kind := Undefined))
  {
    assert Param("category_id", Undefined) + Param("type", Undefined) == [];
  }

  // ---------------------------------------------------------------------
  // The query string

  /** Text that form-urlencoding leaves as it is: letters, digits and
      "*-._".  The values the pages send are of this kind. */
  predicate Plain(s: string) {
    forall i :: 0 <= i < |s| ==>
      ('a' <= s[i] <= 'z') || ('A' <= s[i] <= 'Z') || IsDigit(s[i])
      || s[i] == '*' || s[i] == '-' || s[i] == '.' || s[i] == '_'
  }

  function PairText(p: (string, string)): string {
    p.0 + "=" + p.1
  }

  /** URLSearchParams.toString() for plain names and values. */
  function QueryString(params: seq<(string, string)>): string {
    Join(seq(|params|, i requires 0 <= i < |params| => PairText(params[i])), '&')
  }

  lemma PairTextRead(p: (string, string))
    requires Plain(p.0) && Plain(p.1)
    ensures PairOf(PairText(p)) == p && PairText(p) != "" && '&' !in PairText(p)
  {
    assert '=' !in p.0 by {
      forall i | 0 <= i < |p.0| ensures p.0[i] != '=' {
      }
    }
    IndexOfAfter(p.0, '=', p.1);
    var s := PairText(p);
    assert s == p.0 + ['='] + p.1;
    assert s[..|p.0|] == p.0 && s[|p.0| + 1..] == p.1;
    forall i | 0 <= i < |s| ensures s[i] != '&' {
      if i < |p.0| {
        assert s[i] == p.0[i];
      } else if i > |p.0| {
        assert s[i] == p.1[i - |p.0| - 1];
      }
    }
  }

  lemma {:induction false} PairsOfTexts(params: seq<(string, string)>)
    requires forall i :: 0 <= i < |params| ==> Plain(params[i].0) && Plain(params[i].1)
    ensures PairsOf(seq(|params|, i requires 0 <= i < |params| => PairText(params[i]))) == params
  {
    var texts := seq(|params|, i requires 0 <= i < |params| => PairText(params[i]));
    if params != [] {
      PairTextRead(params[0]);
      PairsOfTexts(params[1..]);
      assert texts[1..] == seq(|params[1..]|, i requires 0 <= i < |params[1..]| => PairText(params[1..][i]));
      assert params == [params[0]] + params[1..];
    }
  }

  /** The server reads back exactly the pairs the client sent. */
  lemma ParseArgsQueryString(params: seq<(string, string)>)
    requires PlainPairs(params)
    ensures ParseArgs(QueryString(params)) == params
  {
    var texts := seq(|params|, i requires 0 <= i < |params| => PairText(params[i]));
    if params == [] {
      assert QueryString(params) == "";
    } else {
      forall i | 0 <= i < |texts| ensures '&' !in texts[i] {
        PairTextRead(params[i]);
      }
      SplitJoin(texts, '&');
      PairsOfTexts(params);
    }
  }

  // ---------------------------------------------------------------------
  // What the server reads

  /** The text sent for a filter value, if any. */
  function Sent(v: JsValue): Option<string> {
    if Truthy(v) then Some(JsString(v)) else None
  }

  /** The server's int conversion of a sent value. */
  function SentInt(v: JsValue): Option<int> {
    if Truthy(v) then ParseInt(JsString(v)) else None
  }

  predicate PlainValue(v: JsValue) {
    Truthy(v) ==> Plain(JsString(v))
  }

  predicate PlainFilters(f: Filters) {
    PlainValue(f.categoryId) && PlainValue(f.kind) && PlainValue(f.period) && PlainValue(f.month) && PlainValue(f.year)
  }

  /** A number's text is plain. */
  lemma NumberTextPlain(h: int)
    ensures Plain(NumberText(h))
  {
  }

  lemma LookupParam(name: string, v: JsValue, key: string)
    ensures Lookup(Param(name, v), key) == if name == key then Sent(v) else None
  {
  }

  predicate PlainPairs(ps: seq<(string, string)>) {
    forall i :: 0 <= i < |ps| ==> Plain(ps[i].0) && Plain(ps[i].1)
  }

  lemma PlainPairsAppend(a: seq<(string, string)>, b: seq<(string, string)>)
    requires PlainPairs(a) && PlainPairs(b)
    ensures PlainPairs(a + b)
  {
    forall i | 0 <= i < |a + b| ensures Plain((a + b)[i].0) && Plain((a + b)[i].1) {
      if i >= |a| {
        assert (a + b)[i] == b[i - |a|];
      }
    }
  }

  lemma ParamPlain(name: string, v: JsValue)
    requires Plain(name) && PlainValue(v)
    ensures PlainPairs(Param(name, v))
  {
  }

  lemma NamesPlain()
    ensures Plain("category_id") && Plain("type") && Plain("period") && Plain("month") && Plain("year")
  {
  }

  lemma ListParamsPlain(f: Filters)
    requires PlainFilters(f)
    ensures PlainPairs(ListParams(f))
  {
    NamesPlain();
    var a, b, c, d, e := Param("category_id", f.categoryId), Param("type", f.kind), Param("period", f.period),
                         Param("month", f.month), Param("year", f.year);
    ParamPlain("category_id", f.categoryId);
    ParamPlain("type", f.kind);
    ParamPlain("period", f.period);
    ParamPlain("month", f.month);
    ParamPlain("year", f.year);
    PlainPairsAppend(a, b);
    PlainPairsAppend(a + b, c);
    PlainPairsAppend(a + b + c, d);
    PlainPairsAppend(a + b + c + d, e);
  }

  /** The value the server looks up for each name the client may send. */
  function SentFor(f: Filters, key: string): Option<string> {
    if key == "category_id" then Sent(f.categoryId)
    else if key == "type" then Sent(f.kind)
    else if key == "period" then Sent(f.period)
    else if key == "month" then Sent(f.month)
    else if key == "year" then Sent(f.year)
    else None
  }

  lemma LookupListParams(f: Filters, key: string)
    ensures Lookup(ListParams(f), key) == SentFor(f, key)
  {
    var a, b, c, d, e := Param("category_id", f.categoryId), Param("type", f.kind), Param("period", f.period),
                         Param("month", f.month), Param("year", f.year);
    LookupAppend(a + b + c + d, e, key);
    LookupAppend(a + b + c, d, key);
    LookupAppend(a + b, c, key);
    LookupAppend(a, b, key);
    LookupParam("category_id", f.categoryId, key);
    LookupParam("type", f.kind, key);
    LookupParam("period", f.period, key);
    LookupParam("month", f.month, key);
    LookupParam("year", f.year, key);
  }

  /** The list request's filters reach the server unchanged: a filter
      the client leaves out is absent there, and a number is read back
      with int(). */
  lemma ServerReadsListFilters(f: Filters, nowYear: int)
    requires PlainFilters(f)
    ensures ListQuery(ParseArgs(QueryString(ListParams(f))), nowYear)
            == Query(SentInt(f.categoryId), Sent(f.kind), Sent(f.period), SentInt(f.month),
                     SentInt(f.year).GetOr(nowYear))
  {
    ListParamsPlain(f);
    ParseArgsQueryString(ListParams(f));
    LookupListParams(f, "category_id");
    LookupListParams(f, "type");
    LookupListParams(f, "period");
    LookupListParams(f, "month");
    LookupListParams(f, "year");
  }

  /** The filters the pages keep: a period name, the month and year as
      numbers, no category and no type. */
  function PageFilters(period: string, month: int, year: int): Filters {
    Filters(Str(""), Str(""), Str(period), Int(month), Int(year))
  }

  /** With such filters, the server lists the period the page shows. */
  lemma ServerReadsPageFilters(period: string, month: int, year: int, nowYear: int)
    requires period == "monthly" || period == "yearly"
    requires month != 0 && year != 0
    ensures ListQuery(ParseArgs(QueryString(ListParams(PageFilters(period, month, year)))), nowYear)
            == Query(None, None, Some(period), Some(month), year)
  {
    var f := PageFilters(period, month, year);
    WholeNumberText(month);
    WholeNumberText(year);
    NumberTextPlain(100 * month);
    NumberTextPlain(100 * year);
    IntToStringRoundTrip(month);
    IntToStringRoundTrip(year);
    assert SentInt(f.month) == Some(month);
    assert SentInt(f.year) == Some(year);
    assert Sent(f.period) == Some(period);
    assert Sent(f.kind) == None && SentInt(f.categoryId) == None;
    assert Plain(period) by { PeriodNamesPlain(); }
    assert PlainFilters(f);
    ServerReadsListFilters(f, nowYear);
  }

  lemma PeriodNamesPlain()
    ensures Plain("monthly") && Plain("yearly")
  {
  }

  /** The summary and chart requests never carry a category or a type. */
  lemma ServerReadsPeriodFilters(f: Filters)
    requires PlainFilters(f)
    ensures var args := ParseArgs(QueryString(PeriodParams(f)));
            && Lookup(args, "category_id").None? && Lookup(args, "type").None?
            && Lookup(args, "period") == Sent(f.period)
            && IntArg(args, "month") == SentInt(f.month)
            && IntArg(args, "year") == SentInt(f.year)
  {
    var g := f.(categoryId := Undefined, kind := Undefined);
    PeriodParamsIgnoreCategoryAndType(f);
    ListParamsPlain(g);
    ParseArgsQueryString(ListParams(g));
    LookupListParams(g, "category_id");
    LookupListParams(g, "type");
    LookupListParams(g, "period");
    LookupListParams(g, "month");
    LookupListParams(g, "year");
  }

  /** getCategories: "?type=<t>" when a type is given, nothing otherwise. */
  function CategoriesSuffix(kind: JsValue): string {
    if Truthy(kind) then "?type=" + JsString(kind) else ""
  }

  /** The server filters the categories by exactly the type the client
      gives, and not at all when it gives none. */
  lemma ServerReadsCategoryType(kind: JsValue)
    requires PlainValue(kind)
    ensures var suffix := CategoriesSuffix(kind);
            Lookup(if suffix == "" then [] else ParseArgs(suffix[1..]), "type") == Sent(kind)
  {
    if Truthy(kind) {
      TypeSuffixRead(JsString(kind));
    }
  }

  lemma TypeSuffixRead(v: string)
    requires Plain(v)
    ensures Lookup(ParseArgs(("?type=" + v)[1..]), "type") == Some(v)
  {
    var p := ("type", v);
    assert Plain("type");
    SinglePairRead(p);
    assert "?type=" + v == "?" + PairText(p);
    assert ("?" + PairText(p))[1..] == PairText(p);
  }

  /** A query string of one plain pair reads back as that pair. */
  lemma SinglePairRead(p: (string, string))
    requires Plain(p.0) && Plain(p.1)
    ensures ParseArgs(PairText(p)) == [p] && Lookup([p], p.0) == Some(p.1)
  {
    var text := PairText(p);
    PairTextRead(p);
    SplitNoSeparator(text, '&');
    assert PairsOf([text]) == [PairOf(text)];
  }

  // ---------------------------------------------------------------------
  // The interceptors

  /** The Authorization header for the stored token, if one is stored
      and not empty. */
  function AuthorizationHeader(storage: map<string, string>): (h: Option<string>)
    ensures h.Some? <==> "token" in storage && storage["token"] != ""
  {
    if "token" in storage && storage["token"] != "" then Some("Bearer " + storage["token"]) else None
  }

  /** The header carries the stored token to the server, which finds the
      token's user; with no token the server answers "Token is missing". */
  lemma StoredTokenReachesServer(storage: map<string, string>, sessions: map<string, nat>, users: seq<User>)
    ensures AuthorizationHeader(storage).Some? ==> TokenOf(AuthorizationHeader(storage).value) == storage["token"]
    ensures AuthorizationHeader(storage).None? ==>
      Authenticate(AuthorizationHeader(storage), sessions, users) == Rejected(Reply(401, "Token is missing"))
    ensures AuthorizationHeader(storage).Some? && storage["token"] in sessions
            && (exists u :: u in users && u.id == sessions[storage["token"]]) ==>
      Authenticate(AuthorizationHeader(storage), sessions, users).Authorized?
      && Authenticate(AuthorizationHeader(storage), sessions, users).user.id == sessions[storage["token"]]
  {
    if AuthorizationHeader(storage).Some? {
      BearerTokenRoundTrip(storage["token"]);
    }
  }

  /** The headers of one request. */
  class RequestConfig {
    var headers: map<string, string>

    constructor (headers: map<string, string>)
      ensures this.headers == headers
    {
      this.headers := headers;
    }
  }

  /** The browser state the client touches: local storage and the
      current location. */
  class Browser {
    var storage: map<string, string>
    var location: string

    constructor (storage: map<string, string>, location: string)
      ensures this.storage == storage && this.location == location
    {
      this.storage := storage;
      this.location := location;
    }

    /** The request interceptor. */
    method AttachToken(config: RequestConfig)
      modifies config
      ensures AuthorizationHeader(storage).Some? ==>
        config.headers == old(config.headers)["Authorization" := AuthorizationHeader(storage).value]
      ensures AuthorizationHeader(storage).None? ==> config.headers == old(config.headers)
    {
      var token := if "token" in storage then storage["token"] else "";
      if token != "" {
        config.headers := config.headers["Authorization" := "Bearer " + token];
      }
    }

    /** The response interceptor's error branch: a 401 signs the user
        out; the error is passed on either way. */
    method OnResponseError(status: Option<int>)
      modifies this
      ensures status == Some(401) ==> storage == old(storage) - {"token", "user"} && location == "/"
      ensures status != Some(401) ==> storage == old(storage) && location == old(location)
    {
      if status == Some(401) {
        storage := storage - {"token"};
        storage := storage - {"user"};
        location := "/";
      }
    }
  }
}
