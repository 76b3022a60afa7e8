/** The Flask server's request handling: the token check, the query
    string and JSON body parsing, and the endpoints that read and change
    the store of users, categories and transactions.

    The store is the `Database` class; each endpoint is one method.  The
    JSON bodies are modelled with one optional field per key, None when
    the key is absent.  A reply is its status code and its message. */
module Server {
  import opened Text
  import opened Dates
  import opened Wire
  import opened Ledger

  datatype Reply = Reply(status: nat, message: string)

  const TypeMessage := "Type must be either expense or revenue"
  /** The start of every 500 message; the exception text after it is not
      modelled. */
  const ErrorMessage := "An error occurred: "

  /** The profile fields stored with a user as given at registration. */
  datatype Profile = Profile(
    age: Option<int>,
    occupation: Option<string>,
    familySituation: Option<string>,
    financialGoal: Option<string>)

  datatype User = User(id: nat, username: string, email: string, profile: Profile)

  // ---------------------------------------------------------------------
  // Row ids

  /** The id SQLite gives the next row of a table whose integer primary
      key is its rowid: one more than the largest id in use, 1 for an
      empty table. */
  function NextId(ids: seq<nat>): (n: nat)
    ensures n >= 1
    ensures forall i :: 0 <= i < |ids| ==> ids[i] < n
    ensures ids != [] ==> n - 1 in ids
  {
    if ids == [] then 1
    else
      var rest := NextId(ids[1..]);
      assert forall i :: 1 <= i < |ids| ==> ids[i] == ids[1..][i - 1];
      if ids[0] + 1 >= rest then ids[0] + 1 else rest
  }

  function TransactionIds(rows: seq<Transaction>): (ids: seq<nat>)
    ensures |ids| == |rows| && forall i :: 0 <= i < |rows| ==> ids[i] == rows[i].id
  {
    seq(|rows|, i requires 0 <= i < |rows| => rows[i].id)
  }

  function CategoryIdList(cats: seq<Category>): (ids: seq<nat>)
    ensures |ids| == |cats| && forall i :: 0 <= i < |cats| ==> ids[i] == cats[i].id
  {
    seq(|cats|, i requires 0 <= i < |cats| => cats[i].id)
  }

  function UserIds(users: seq<User>): (ids: seq<nat>)
    ensures |ids| == |users| && forall i :: 0 <= i < |users| ==> ids[i] == users[i].id
  {
    seq(|users|, i requires 0 <= i < |users| => users[i].id)
  }

  // ---------------------------------------------------------------------
  // The token check

  /** The token in an Authorization header: the header without a leading
      "Bearer ", or the header itself. */
  function TokenOf(header: string): string {
    if |header| >= 7 && header[..7] == "Bearer " then header[7..] else header
  }

  /** The header the web client sends carries back exactly its token. */
  lemma BearerTokenRoundTrip(token: string)
    ensures TokenOf("Bearer " + token) == token
  {
    assert ("Bearer " + token)[..7] == "Bearer ";
    assert ("Bearer " + token)[7..] == token;
  }

  function FindUser(users: seq<User>, id: nat): (r: Option<User>)
    ensures r.Some? ==> r.value in users && r.value.id == id
    ensures r.None? ==> forall u :: u in users ==> u.id != id
  {
    if users == [] then None
    else if users[0].id == id then Some(users[0])
    else FindUser(users[1..], id)
  }

  datatype Auth = Authorized(user: User) | Rejected(reply: Reply)

  /** The token_required decorator.  Decoding the JSON web token is not
      modelled: `sessions` maps each token the decoder accepts to the
      user id it carries. */
  function Authenticate(header: Option<string>, sessions: map<string, nat>, users: seq<User>): (a: Auth)
    ensures header.None? || header.value == "" ==> a == Rejected(Reply(401, "Token is missing"))
    ensures a.Authorized? <==>
      header.Some? && header.value != "" && TokenOf(header.value) in sessions
      && exists u :: u in users && u.id == sessions[TokenOf(header.value)]
    ensures a.Authorized? ==> a.user in users && a.user.id == sessions[TokenOf(header.value)]
    ensures a.Rejected? ==> a.reply.status == 401
  {
    if header.None? || header.value == "" then Rejected(Reply(401, "Token is missing"))
    else
      var token := TokenOf(header.value);
      if token !in sessions then Rejected(Reply(401, "Invalid token"))
      else
        match FindUser(users, sessions[token])
        case None => Rejected(Reply(401, "User not found"))
        case Some(u) => Authorized(u)
  }

  // ---------------------------------------------------------------------
  // The query string

  /** request.args.get(key): the first value given for the key. */
  function Lookup(args: seq<(string, string)>, key: string): (v: Option<string>)
    ensures v.None? <==> forall i :: 0 <= i < |args| ==> args[i].0 != key
    ensures v.Some? ==>
      exists i :: 0 <= i < |args| && args[i] == (key, v.value) && forall j :: 0 <= j < i ==> args[j].0 != key
  {
    if args == [] then None
    else if args[0].0 == key then
      assert args[0] == (key, args[0].1);
      Some(args[0].1)
    else
      var v := Lookup(args[1..], key);
      assert forall i :: 1 <= i < |args| ==> args[i] == args[1..][i - 1];
      if v.Some? then
        var i :| 0 <= i < |args[1..]| && args[1..][i] == (key, v.value)
                 && forall j :: 0 <= j < i ==> args[1..][j].0 != key;
        assert args[i + 1] == (key, v.value);
        assert forall j :: 0 <= j < i + 1 ==> args[j].0 != key by {
          forall j | 0 <= j < i + 1 ensures args[j].0 != key {
            if j > 0 {
              assert args[j] == args[1..][j - 1];
            }
          }
        }
        v
      else v
  }

  /** A value looked up in two lists of pairs one after the other. */
  lemma {:induction false} LookupAppend(a: seq<(string, string)>, b: seq<(string, string)>, key: string)
    ensures Lookup(a + b, key) == if Lookup(a, key).Some? then Lookup(a, key) else Lookup(b, key)
  {
    if a == [] {
      assert a + b == b;
    } else {
      assert (a + b)[1..] == a[1..] + b;
      LookupAppend(a[1..], b, key);
    }
  }

  /** One piece of a query string as a pair: split at its first '=', or
      the whole piece with an empty value when it has none. */
  function PairOf(piece: string): (string, string) {
    var i := IndexOf(piece, '=');
    if i < |piece| then (piece[..i], piece[i + 1..]) else (piece, "")
  }

  function PairsOf(pieces: seq<string>): seq<(string, string)> {
    if pieces == [] then []
    else (if pieces[0] == "" then [] else [PairOf(pieces[0])]) + PairsOf(pieces[1..])
  }

  /** The request's query string as pairs, as werkzeug reads it: the
      pieces between '&', empty ones skipped, each split at its first '='.
      Percent-decoding and '+' for a space are not modelled. */
  function ParseArgs(query: string): seq<(string, string)> {
    PairsOf(Split(query, '&'))
  }

  /** request.args.get(key, type=int): None when the key is absent or
      its value is not a number. */
  function IntArg(args: seq<(string, string)>, key: string): (v: Option<int>)
    ensures Lookup(args, key).None? ==> v.None?
    ensures v.Some? ==> Lookup(args, key).Some? && ParseInt(Lookup(args, key).value) == v
  {
    match Lookup(args, key)
    case None => None
    case Some(s) => ParseInt(s)
  }

  /** The year argument: the current year when absent or not a number. */
  function YearArg(args: seq<(string, string)>, nowYear: int): int {
    IntArg(args, "year").GetOr(nowYear)
  }

  /** The filters of GET /api/transactions. */
  function ListQuery(args: seq<(string, string)>, nowYear: int): Query {
    Query(IntArg(args, "category_id"), Lookup(args, "type"), Lookup(args, "period"),
          IntArg(args, "month"), YearArg(args, nowYear))
  }

  /** The period of GET /api/analytics/charts, "monthly" when absent. */
  function ChartPeriod(args: seq<(string, string)>): (p: Option<string>)
    ensures p.Some?
    ensures Lookup(args, "period").None? ==> p == Some("monthly")
    ensures Lookup(args, "period").Some? ==> p == Lookup(args, "period")
  {
    match Lookup(args, "period")
    case None => Some("monthly")
    case Some(p) => Some(p)
  }

  // ---------------------------------------------------------------------
  // JSON bodies

  /** The body of a create or update: each key present or absent. */
  datatype TransactionBody = TransactionBody(
    date: Option<string>,
    categoryId: Option<int>,
    description: Option<string>,
    amount: Option<int>,
    kind: Option<string>)
  {
    predicate Complete() {
      date.Some? && categoryId.Some? && description.Some? && amount.Some? && kind.Some?
    }
  }

  datatype CategoryBody = CategoryBody(name: Option<string>, kind: Option<string>, icon: Option<string>)

  datatype RegisterBody = RegisterBody(
    username: Option<string>,
    email: Option<string>,
    password: Option<string>,
    profile: Profile)

  /** Python truthiness of an optional string. */
  predicate Given(v: Option<string>) {
    v.Some? && v.value != ""
  }

  /** The outcome of applying an update body to a row. */
  datatype Patch = Patched(row: Transaction) | BadDate | BadType

  /** The field assignments of an update, in the server's order: a date
      that strptime rejects fails first (a 500), then a type other than
      expense or revenue (a 400); otherwise each field present in the
      body replaces the row's and every other field is kept. */
  function ApplyBody(t: Transaction, body: TransactionBody): (p: Patch)
    ensures p == BadDate <==> body.date.Some? && Parse(body.date.value).None?
    ensures p == BadType <==>
      (body.date.None? || Parse(body.date.value).Some?) && body.kind.Some? && ParseKind(body.kind.value).None?
    ensures p.Patched? ==>
      && p.row.id == t.id && p.row.owner == t.owner
      && (body.date.None? ==> p.row.date == t.date)
      && (body.date.Some? ==> Parse(body.date.value) == Some(p.row.date))
      && (body.categoryId.None? ==> p.row.categoryId == t.categoryId)
      && (body.categoryId.Some? ==> p.row.categoryId == body.categoryId.value)
      && (body.description.None? ==> p.row.description == t.description)
      && (body.description.Some? ==> p.row.description == body.description.value)
      && (body.amount.None? ==> p.row.amount == t.amount)
      && (body.amount.Some? ==> p.row.amount == body.amount.value)
      && (body.kind.None? ==> p.row.kind == t.kind)
      && (body.kind.Some? ==> KindName(p.row.kind) == body.kind.value)
  {
    if body.date.Some? && Parse(body.date.value).None? then BadDate
    else if body.kind.Some? && ParseKind(body.kind.value).None? then BadType
    else
      Patched(t.(
        date := if body.date.Some? then Parse(body.date.value).value else t.date,
        categoryId := body.categoryId.GetOr(t.categoryId),
        description := body.description.GetOr(t.description),
        amount := body.amount.GetOr(t.amount),
        kind := if body.kind.Some? then ParseKind(body.kind.value).value else t.kind))
  }

  /** Sending the same update twice leaves the row as the first one did. */
  lemma ApplyBodyIdempotent(t: Transaction, body: TransactionBody)
    requires ApplyBody(t, body).Patched?
    ensures ApplyBody(ApplyBody(t, body).row, body) == ApplyBody(t, body)
  {
  }

  /** The first row with the id that the caller owns, as an index. */
  function FindOwned(rows: seq<Transaction>, user: nat, id: int): (r: Option<nat>)
    ensures r.Some? ==> r.value < |rows| && rows[r.value].id == id && rows[r.value].owner == user
    ensures r.Some? ==> forall j :: 0 <= j < r.value ==> !(rows[j].id == id && rows[j].owner == user)
    ensures r.None? ==> forall t :: t in rows ==> !(t.id == id && t.owner == user)
  {
    if rows == [] then None
    else if rows[0].id == id && rows[0].owner == user then Some(0)
    else
      match FindOwned(rows[1..], user, id)
      case None => None
      case Some(i) =>
        assert forall j :: 1 <= j <= i ==> rows[j] == rows[1..][j - 1];
        Some(i + 1)
  }

  // ---------------------------------------------------------------------
  // Writes by one user leave every other user's rows as they were

  lemma {:induction false} OwnRowsAfterAppend(rows: seq<Transaction>, t: Transaction, v: nat)
    requires t.owner != v
    ensures Select(rows + [t], [OwnedBy(v)]) == Select(rows, [OwnedBy(v)])
  {
    SelectAppend(rows, [t], [OwnedBy(v)]);
    SatisfiesOne(t, OwnedBy(v));
    assert Select([t], [OwnedBy(v)]) == [];
  }

  lemma {:induction false} OwnRowsAfterRemove(rows: seq<Transaction>, i: nat, v: nat)
    requires i < |rows| && rows[i].owner != v
    ensures Select(rows[..i] + rows[i + 1..], [OwnedBy(v)]) == Select(rows, [OwnedBy(v)])
  {
    assert rows == rows[..i] + [rows[i]] + rows[i + 1..];
    SelectAppend(rows[..i] + [rows[i]], rows[i + 1..], [OwnedBy(v)]);
    SelectAppend(rows[..i], rows[i + 1..], [OwnedBy(v)]);
    OwnRowsAfterAppend(rows[..i], rows[i], v);
  }

  lemma {:induction false} OwnRowsAfterReplace(rows: seq<Transaction>, i: nat, t: Transaction, v: nat)
    requires i < |rows| && rows[i].owner != v && t.owner != v
    ensures Select(rows[i := t], [OwnedBy(v)]) == Select(rows, [OwnedBy(v)])
  {
    var updated := rows[i := t];
    assert updated[..i] + updated[i + 1..] == rows[..i] + rows[i + 1..];
    OwnRowsAfterRemove(updated, i, v);
    OwnRowsAfterRemove(rows, i, v);
  }

  // ---------------------------------------------------------------------
  // The store

  /** The transaction table's invariant: ids are unique and every stored
      date is a calendar date. */
  predicate RowsValid(rows: seq<Transaction>) {
    && (forall i, j :: 0 <= i < j < |rows| ==> rows[i].id != rows[j].id)
    && (forall t :: t in rows ==> IsValid(t.date))
  }

  /** Appending a row with the next id and a calendar date keeps the
      invariant. */
  lemma RowsValidAppend(rows: seq<Transaction>, row: Transaction)
    requires RowsValid(rows) && row.id == NextId(TransactionIds(rows)) && IsValid(row.date)
    ensures RowsValid(rows + [row])
  {
    var r := rows + [row];
    forall i, j | 0 <= i < j < |r| ensures r[i].id != r[j].id {
      if j == |rows| {
        assert TransactionIds(rows)[i] == rows[i].id;
      }
    }
    forall t | t in r ensures IsValid(t.date) {
      if t != row {
        var k :| 0 <= k < |r| && r[k] == t;
        assert rows[k] in rows;
      }
    }
  }

  /** Replacing a row by one with the same id and a calendar date keeps
      the invariant. */
  lemma RowsValidReplace(rows: seq<Transaction>, i: nat, row: Transaction)
    requires RowsValid(rows) && i < |rows| && row.id == rows[i].id && IsValid(row.date)
    ensures RowsValid(rows[i := row])
  {
    var r := rows[i := row];
    forall t | t in r ensures IsValid(t.date) {
      var k :| 0 <= k < |r| && r[k] == t;
      if k != i {
        assert rows[k] in rows;
      }
    }
  }

  /** Removing a row keeps the invariant, and what remains is every
      other row: those with another id. */
  lemma RowsValidRemove(rows: seq<Transaction>, i: nat)
    requires RowsValid(rows) && i < |rows|
    ensures RowsValid(rows[..i] + rows[i + 1..])
    ensures forall t :: t in rows[..i] + rows[i + 1..] <==> t in rows && t.id != rows[i].id
  {
    var r := rows[..i] + rows[i + 1..];
    assert forall k :: 0 <= k < |r| ==> r[k] == rows[if k < i then k else k + 1];
    forall t | t in rows && t.id != rows[i].id ensures t in r {
      var k :| 0 <= k < |rows| && rows[k] == t;
      assert r[if k < i then k else k - 1] == t;
    }
  }

  /** The update's field assignments, one by one on a copy of the row:
      a date strptime rejects or a bad type stops them. */
  method AssignFields(t: Transaction, body: TransactionBody) returns (p: Patch)
    ensures p == ApplyBody(t, body)
  {
    var row := t;
    if body.date.Some? {
      var date := Parse(body.date.value);
      if date.None? {
        return BadDate;
      }
      row := row.(date := date.value);
    }
    if body.categoryId.Some? {
      row := row.(categoryId := body.categoryId.value);
    }
    if body.description.Some? {
      row := row.(description := body.description.value);
    }
    if body.amount.Some? {
      row := row.(amount := body.amount.value);
    }
    if body.kind.Some? {
      var kind := ParseKind(body.kind.value);
      if kind.None? {
        return BadType;
      }
      row := row.(kind := kind.value);
    }
    p := Patched(row);
  }

  class Database {
    var users: seq<User>
    var categories: seq<Category>
    var transactions: seq<Transaction>

    /** Ids are unique in every table, usernames and e-mail addresses are
        unique among users, and every stored date is a calendar date. */
    predicate Valid()
      reads this
    {
      && (forall i, j :: 0 <= i < j < |users| ==>
            users[i].id != users[j].id && users[i].username != users[j].username && users[i].email != users[j].email)
      && UniqueIds(categories)
      && RowsValid(transactions)
    }

    constructor ()
      ensures Valid()
      ensures users == [] && categories == [] && transactions == []
    {
      users := [];
      categories := [];
      transactions := [];
    }

    /** POST /api/register */
    method Register(body: RegisterBody) returns (reply: Reply)
      requires Valid()
      modifies this
      ensures Valid()
      ensures categories == old(categories) && transactions == old(transactions)
      ensures !(Given(body.username) && Given(body.email) && Given(body.password)) ==>
        reply == Reply(400, "Username, email and password are required") && users == old(users)
      ensures (Given(body.username) && Given(body.email) && Given(body.password)
               && exists u :: u in old(users) && u.username == body.username.value) ==>
        reply == Reply(400, "Username already exists") && users == old(users)
      ensures (Given(body.username) && Given(body.email) && Given(body.password)
               && (forall u :: u in old(users) ==> u.username != body.username.value)
               && exists u :: u in old(users) && u.email == body.email.value) ==>
        reply == Reply(400, "Email already exists") && users == old(users)
      ensures reply.status == 201 <==>
        Given(body.username) && Given(body.email) && Given(body.password)
        && forall u :: u in old(users) ==> u.username != body.username.value && u.email != body.email.value
      ensures reply.status == 201 ==>
        reply.message == "User created successfully"
        && users == old(users) + [User(NextId(UserIds(old(users))), body.username.value, body.email.value, body.profile)]
    {
      if !Given(body.username) || !Given(body.email) || !Given(body.password) {
        return Reply(400, "Username, email and password are required");
      }
      var username, email := body.username.value, body.email.value;
      if exists u :: u in users && u.username == username {
        return Reply(400, "Username already exists");
      }
      if exists u :: u in users && u.email == email {
        return Reply(400, "Email already exists");
      }
      var user := User(NextId(UserIds(users)), username, email, body.profile);
      users := users + [user];
      reply := Reply(201, "User created successfully");
    }

    /** POST /api/categories */
    method CreateCategory(body: CategoryBody) returns (reply: Reply, created: Option<CategoryJson>)
      requires Valid()
      modifies this
      ensures Valid()
      ensures users == old(users) && transactions == old(transactions)
      ensures !(body.name.Some? && body.kind.Some? && body.icon.Some?) ==>
        reply == Reply(400, "Name, type, and icon are required") && categories == old(categories)
      ensures body.name.Some? && body.kind.Some? && body.icon.Some? && ParseKind(body.kind.value).None? ==>
        reply == Reply(400, TypeMessage) && categories == old(categories)
      ensures reply.status == 201 <==>
        body.name.Some? && body.kind.Some? && body.icon.Some? && ParseKind(body.kind.value).Some?
      ensures reply.status != 201 ==> created.None?
      ensures reply.status == 201 ==>
        var c := Category(NextId(CategoryIdList(old(categories))), body.name.value,
                          ParseKind(body.kind.value).value, body.icon.value);
        categories == old(categories) + [c]
        && created == Some(CategoryJson(c.id, c.name, body.kind.value, c.icon))
    {
      created := None;
      if !(body.name.Some? && body.kind.Some? && body.icon.Some?) {
        return Reply(400, "Name, type, and icon are required"), None;
      }
      var kind := ParseKind(body.kind.value);
      if kind.None? {
        return Reply(400, TypeMessage), None;
      }
      var c := Category(NextId(CategoryIdList(categories)), body.name.value, kind.value, body.icon.value);
      categories := categories + [c];
      reply := Reply(201, "Category created successfully");
      created := Some(CategoryJson(c.id, c.name, KindName(c.kind), c.icon));
    }

    /** POST /api/transactions: the new row is committed before the reply
        is built, so a row naming a missing category is stored and the
        reply is still a 500. */
    method CreateTransaction(user: nat, body: TransactionBody) returns (reply: Reply, created: Option<TransactionJson>)
      requires Valid()
      modifies this
      ensures Valid()
      ensures users == old(users) && categories == old(categories)
      ensures !body.Complete() ==> reply == Reply(400, "All fields are required") && transactions == old(transactions)
      ensures body.Complete() && ParseKind(body.kind.value).None? ==>
        reply == Reply(400, TypeMessage) && transactions == old(transactions)
      ensures body.Complete() && ParseKind(body.kind.value).Some? && Parse(body.date.value).None? ==>
        reply == Reply(500, ErrorMessage) && transactions == old(transactions)
      ensures body.Complete() && ParseKind(body.kind.value).Some? && Parse(body.date.value).Some? ==>
        var row := Transaction(NextId(TransactionIds(old(transactions))), user, Parse(body.date.value).value,
                               body.categoryId.value, body.description.value, body.amount.value,
                               ParseKind(body.kind.value).value);
        && transactions == old(transactions) + [row]
        && created == ToJson(row, categories)
        && (reply.status == 201 <==> row.categoryId in CategoryIds(categories))
        && (reply.status != 201 ==> reply == Reply(500, ErrorMessage))
      ensures reply.status == 201 ==> created.Some? && |transactions| == |old(transactions)| + 1
    {
      created := None;
      if !body.Complete() {
        return Reply(400, "All fields are required"), None;
      }
      var kind := ParseKind(body.kind.value);
      if kind.None? {
        return Reply(400, TypeMessage), None;
      }
      var date := Parse(body.date.value);
      if date.None? {
        return Reply(500, ErrorMessage), None;
      }
      var row := Transaction(NextId(TransactionIds(transactions)), user, date.value,
                             body.categoryId.value, body.description.value, body.amount.value, kind.value);
      RowsValidAppend(transactions, row);
      transactions := transactions + [row];
      created := ToJson(row, categories);
      if created.Some? {
        reply := Reply(201, "Transaction created successfully");
      } else {
        reply := Reply(500, ErrorMessage);
      }
    }

    /** PUT /api/transactions/<id>: the fields are assigned one by one on
        the caller's row; a date strptime rejects or a bad type ends the
        request before the commit, so the stored row is unchanged. */
    method UpdateTransaction(user: nat, id: int, body: TransactionBody) returns (reply: Reply, updated: Option<TransactionJson>)
      requires Valid()
      modifies this
      ensures Valid()
      ensures users == old(users) && categories == old(categories)
      ensures FindOwned(old(transactions), user, id).None? ==>
        reply == Reply(404, "Transaction not found") && transactions == old(transactions) && updated.None?
      ensures FindOwned(old(transactions), user, id).Some? ==>
        var i := FindOwned(old(transactions), user, id).value;
        match ApplyBody(old(transactions)[i], body)
        case BadDate => reply == Reply(500, ErrorMessage) && transactions == old(transactions)
        case BadType => reply == Reply(400, TypeMessage) && transactions == old(transactions)
        case Patched(row) =>
          && transactions == old(transactions)[i := row]
          && updated == ToJson(row, categories)
          && (reply.status == 200 <==> row.categoryId in CategoryIds(categories))
          && (reply.status != 200 ==> reply == Reply(500, ErrorMessage))
    {
      updated := None;
      var found := FindOwned(transactions, user, id);
      if found.None? {
        return Reply(404, "Transaction not found"), None;
      }
      var i := found.value;
      var p := AssignFields(transactions[i], body);
      match p
      case BadDate =>
        return Reply(500, ErrorMessage), None;
      case BadType =>
        return Reply(400, TypeMessage), None;
      case Patched(row) =>
        assert transactions[i] in transactions;
        RowsValidReplace(transactions, i, row);
        transactions := transactions[i := row];
        updated := ToJson(row, categories);
        if updated.Some? {
          reply := Reply(200, "Transaction updated successfully");
        } else {
          reply := Reply(500, ErrorMessage);
        }
    }

    /** DELETE /api/transactions/<id> */
    method DeleteTransaction(user: nat, id: int) returns (reply: Reply)
      requires Valid()
      modifies this
      ensures Valid()
      ensures users == old(users) && categories == old(categories)
      ensures FindOwned(old(transactions), user, id).None? ==>
        reply == Reply(404, "Transaction not found") && transactions == old(transactions)
      ensures FindOwned(old(transactions), user, id).Some? ==>
        var i := FindOwned(old(transactions), user, id).value;
        reply == Reply(200, "Transaction deleted successfully")
        && transactions == old(transactions)[..i] + old(transactions)[i + 1..]
      ensures forall t :: t in transactions <==> t in old(transactions) && !(reply.status == 200 && t.id == id)
    {
      var found := FindOwned(transactions, user, id);
      if found.None? {
        return Reply(404, "Transaction not found");
      }
      var i := found.value;
      RowsValidRemove(transactions, i);
      transactions := transactions[..i] + transactions[i + 1..];
      reply := Reply(200, "Transaction deleted successfully");
    }

    /** GET /api/transactions; None for the 500 reply when a listed row
        names a missing category. */
    method GetTransactions(user: nat, args: seq<(string, string)>, nowYear: int)
      returns (reply: Reply, listed: Option<seq<TransactionJson>>)
      requires Valid()
      ensures listed == ToJsonList(ListTransactions(transactions, user, ListQuery(args, nowYear)), categories)
      ensures reply.status == 200 <==> listed.Some?
      ensures listed.Some? ==>
        forall i :: 0 <= i < |listed.value| ==> exists t :: t in transactions && t.owner == user && listed.value[i].id == t.id
    {
      var rows := ListTransactions(transactions, user, ListQuery(args, nowYear));
      listed := ToJsonList(rows, categories);
      if listed.Some? {
        reply := Reply(200, "");
        forall i | 0 <= i < |listed.value|
          ensures exists t :: t in transactions && t.owner == user && listed.value[i].id == t.id
        {
          assert rows[i] in rows;
          assert Some(listed.value[i]) == ToJson(rows[i], categories);
        }
      } else {
        reply := Reply(500, ErrorMessage);
      }
    }

    /** GET /api/analytics/summary */
    method GetSummary(user: nat, args: seq<(string, string)>, nowYear: int) returns (s: Summary)
      ensures s == Summarize(transactions, user, Lookup(args, "period"), IntArg(args, "month"), YearArg(args, nowYear))
      ensures s.balance == s.totalRevenues - s.totalExpenses
    {
      s := Summarize(transactions, user, Lookup(args, "period"), IntArg(args, "month"), YearArg(args, nowYear));
    }

    /** GET /api/analytics/charts: the category breakdown and the
        timeline, with the period "monthly" when none is given. */
    method GetChartData(user: nat, args: seq<(string, string)>, nowYear: int)
      returns (breakdown: seq<CategoryTotal>, timeline: seq<Bucket>)
      ensures var period, month, year := ChartPeriod(args), IntArg(args, "month"), YearArg(args, nowYear);
        && breakdown == Breakdown(categories, Select(transactions, ChartCriteria(user, period, month, year)))
        && timeline == Timeline(transactions, user, period, month, year)
      ensures |timeline| == 31 || |timeline| == 12
    {
      var period, month, year := ChartPeriod(args), IntArg(args, "month"), YearArg(args, nowYear);
      breakdown := Breakdown(categories, Select(transactions, ChartCriteria(user, period, month, year)));
      timeline := BuildTimeline(transactions, user, period, month, year);
    }

    /** GET /api/categories */
    method GetCategories(args: seq<(string, string)>) returns (cats: seq<CategoryJson>)
      ensures cats == CategoriesOfType(categories, Lookup(args, "type"))
      ensures forall c :: c in cats ==> !TextGiven(Lookup(args, "type")) || c.kind == Lookup(args, "type").value
    {
      cats := CategoriesOfType(categories, Lookup(args, "type"));
    }
  }
}
