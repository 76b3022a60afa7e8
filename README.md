# budget_manager in Dafny

This project models SpendWise, the budget manager in the budget_manager
repository. The model covers two sides:

- the Flask server, which keeps users, categories and dated expense or
  revenue transactions, and answers with filtered lists, period
  summaries, a per-category breakdown and a timeline;
- the web client's service layer and four of its pages (History,
  Profile, Dashboard and SignUp), which build the requests, export CSV
  text and guard the forms.

## Modules

| module | file | what it holds |
|---|---|---|
| `Text` | text.dfy | decimal text, Python's `int()` on canonical text, `join`/`split` on one character |
| `Dates` | dates.dfy | calendar dates; `strftime("%Y-%m-%d")` and `strptime` on that format |
| `Wire` | wire.dfy | the JSON records the server sends |
| `Ledger` | ledger.dfy | the query engine: filters as criteria, the list, the summary, the breakdown and the timeline |
| `Server` | server.dfy | the token check, query-string and body parsing, and the `Database` class with one method per endpoint |
| `Js` | js.dfy | JavaScript values: truthiness, `String(x)` of numbers, `parseInt` |
| `Api` | api.dfy | `api.js`: parameter builders, the query string, the two interceptors |
| `Csv` | csv.dfy | comma-joined lines joined by line breaks |
| `Forms` | forms.dfy | the transaction form, request outcomes and error text, category choices by type |
| `HistoryPage`, `ProfilePage`, `DashboardPage`, `SignUpPage` | history.dfy, profile.dfy, dashboard.dfy, signup.dfy | each page's state as a class, with its exports and guards |

Conventions:

- Amounts are integer cents, since the column is `Numeric(10, 2)`.
- On the client, a number is held in hundredths. The client receives
  `float(amount)`, so a number of cents arrives as that many hundredths,
  and a month or a year `n` is `Int(n)`.
- Dates are `(year, month, day)` triples.
- The server's database is three sequences in the `Database` class. A
  new row's id is one more than the largest id in its table, or 1 in an
  empty table, as SQLite assigns integer primary keys.
- A filter chain such as `query.filter_by(...).filter(...)` is a
  sequence of `Criterion` values. `Select` keeps the rows that satisfy
  all of them, in order.
- The clock's current day, month and year are parameters.
- So are the outcomes of requests sent from a page (`Outcome`).
- A signed-in session is a map from token to user id, standing in for
  the JWT.

Two places where the model follows the code as written:

- Create and update store a row whose category does not exist. They
  commit, then fail to build the reply, so the answer is a 500 while the
  row stays in the store. `Server.Database.CreateTransaction` and
  `UpdateTransaction` state exactly this.
- An update whose date is not a valid date fails in `strptime` (a 500)
  before the type is checked. With an invalid type it answers 400. In
  neither case is anything stored.

## Model

| member | source | states |
|---|---|---|
| Text.IntToStringRoundTrip | backend/app.py:143-147 | `int()` reads every integer's decimal text back as that integer |
| Dates.ParseFormat | backend/app.py:203 | `strptime("%Y-%m-%d")` reads back the text `strftime` writes for every valid date with a four-digit year |
| Dates.NotAfterTotal | backend/app.py:166 | the date order the list is sorted by is total, and two dates each not after the other are equal |
| Ledger.ParseKind | backend/app.py:199-200 | a type is accepted exactly when it is "expense" or "revenue", and the accepted kind prints back as the same text |
| Ledger.Select | backend/app.py:149-164 | a filter chain keeps exactly the rows satisfying every criterion, and never adds rows |
| Ledger.SelectAppend | backend/app.py:149-166 | filtering a concatenation concatenates the filtered parts, so the filter keeps row order |
| Ledger.SelectSelect | backend/app.py:319-330 | filtering an already filtered query by more criteria equals one filter by both lists of criteria |
| Ledger.KindsPartition | backend/app.py:329-333 | the expense rows and the revenue rows of a selection split it: their counts and their totals add up to the selection's |
| Ledger.PeriodSelection | backend/app.py:158-164 | "monthly" with a truthy month keeps the rows of that month and year, "yearly" those of the year, anything else keeps every row |
| Ledger.PeriodCriteriaMeaning | backend/app.py:321-327 | the summary's period filter holds for a row exactly when its month/year condition holds |
| Ledger.ListCriteriaMeaning | backend/app.py:149-164 | a row passes the list's filters exactly when it is the caller's and matches the category and the type when they are truthy, and the period |
| Ledger.SortNewestFirst | backend/app.py:166 | the list is ordered by date, newest first, and is a permutation of its input |
| Ledger.ListTransactions | backend/app.py:143-166 | the listed rows are newest first, are a permutation of the filtered rows, and a row is listed exactly when it is stored and passes the filters |
| Ledger.Summarize | backend/app.py:329-334 | balance equals total revenues minus total expenses |
| Ledger.SummaryCoversPeriod | backend/app.py:319-333 | expense and revenue totals together are the total of the caller's rows in the period |
| Ledger.ListAgreesWithSummary | backend/app.py:143-166 | the list for a period, summed per type, gives the summary's totals for the same period |
| Ledger.ListCountMatchesSummary | backend/app.py:329-330 | the list for a period has as many rows as the summary's expense and revenue selections together |
| Ledger.Breakdown | backend/app.py:357-382 | each entry is a known category with at least one selected expense, and its amount is the sum of that category's expenses |
| Ledger.BreakdownHasCategory | backend/app.py:367-377 | every category with at least one selected expense has its entry, with that category's name, icon and total |
| Ledger.BreakdownIdsUnique | backend/app.py:375 | grouping by category gives at most one entry per category |
| Ledger.BreakdownMatchesSummary | backend/app.py:357-382 | when every row's category exists, the entries sum to the summary's total expenses for the same period, month and year |
| Ledger.Buckets | backend/app.py:404-421 | bucket i is the totals of the window's rows keyed i + 1, with its label; there are exactly n buckets |
| Ledger.BuildTimeline | backend/app.py:385-470 | the two for-loops append the buckets the timeline specification defines |
| Ledger.TimelineShape | backend/app.py:402-470 | "monthly" with a month gives 31 buckets labelled "1".."31", otherwise 12 labelled "Jan".."Dec"; each holds its day's or month's expense and revenue totals, zero when empty |
| Ledger.TimelineMatchesSummary | backend/app.py:385-470 | for a monthly (with month) or yearly period over valid dates, the expense and revenue columns sum to the summary's totals |
| Ledger.ToJson | backend/app.py:168-183 | a row's JSON exists exactly when its category exists (otherwise the reply fails); it carries the row's id, amount, description, type and category id, its date formatted as YYYY-MM-DD, and the name and icon of a category with the row's category id |
| Ledger.ToJsonList | backend/app.py:168-183 | the list's JSON exists exactly when every listed row's category exists, element by element |
| Ledger.CategoriesOfType | backend/app.py:485-498 | with a truthy type exactly the categories of that type are sent (nothing else, and each of them); without one every category is sent, in table order |
| Server.NextId | backend/models.py:49 | a new id is at least 1 and above every id in the table, and follows the largest one |
| Server.BearerTokenRoundTrip | backend/app.py:31-32 | stripping the 7-character "Bearer " prefix gives back the token |
| Server.Authenticate | backend/app.py:25-42 | no header gives 401 "Token is missing"; the caller is found exactly when the token belongs to a session of an existing user; every rejection is a 401 |
| Server.Lookup | backend/app.py:143-147 | a query argument is absent exactly when no pair has its name, otherwise it is the first pair's value |
| Server.IntArg | backend/app.py:143-146 | an integer argument is absent when the name is absent or its value is not a number |
| Server.ChartPeriod | backend/app.py:352 | the chart period is the sent one when the query has one, and "monthly" otherwise |
| Server.ApplyBody | backend/app.py:251-264 | a bad date fails first and a bad type next; otherwise exactly the fields present in the body change |
| Server.ApplyBodyIdempotent | backend/app.py:251-264 | applying the same update body twice gives what applying it once gives |
| Server.FindOwned | backend/app.py:242-247 | the row found has the id and belongs to the caller, and is the first such; none is found when no row matches both |
| Server.OwnRowsAfterAppend | backend/app.py:204-215 | adding a row of one user leaves every other user's rows as they were |
| Server.OwnRowsAfterRemove | backend/app.py:300-301 | deleting a row of one user leaves every other user's rows as they were |
| Server.OwnRowsAfterReplace | backend/app.py:251-266 | updating a row of one user leaves every other user's rows as they were |
| Server.Database.constructor | backend/models.py:49-56 | the store starts empty |
| Server.Database.Register | backend/app.py:104-130 | missing username, email or password gives 400, then a taken username, then a taken email; otherwise exactly one user with a fresh id is added |
| Server.Database.CreateCategory | backend/app.py:512-533 | missing fields give 400, then a type other than expense or revenue; otherwise exactly one category with a fresh id is added |
| Server.Database.CreateTransaction | backend/app.py:196-237 | missing fields or a bad type give 400 and a bad date 500, with nothing stored; otherwise exactly one row owned by the caller is added and all others are unchanged |
| Server.Database.UpdateTransaction | backend/app.py:242-286 | a row not the caller's gives 404; a bad date 500 and a bad type 400 change nothing; otherwise only that row changes, as the body says |
| Server.Database.DeleteTransaction | backend/app.py:293-307 | a row not the caller's gives 404 and changes nothing; otherwise exactly that row is removed |
| Server.Database.GetTransactions | backend/app.py:143-187 | the reply is 200 exactly when every listed row's category exists, and then lists only the caller's rows, built from the filtered rows newest first |
| Server.Database.GetSummary | backend/app.py:315-345 | the summary of the caller's rows for the period read from the query string, with balance = revenues - expenses |
| Server.Database.GetChartData | backend/app.py:352-474 | the breakdown of the caller's expenses and the timeline for the query's period, month and year; the timeline has 31 or 12 buckets |
| Server.Database.GetCategories | backend/app.py:485-500 | the reply is CategoriesOfType of the table for the query's type: every category of that type and no other, or every category in table order when no type is sent |
| Js.ReadNumberText | frontend/src/pages/History.jsx:139 | the text JavaScript prints for an amount reads back as the same amount |
| Js.WholeNumberText | frontend/src/services/api.js:76-77 | a whole-number month or year prints as the integer's decimal text |
| Js.ParseIntPrefixOfInt | frontend/src/pages/SignUp.jsx:51 | `parseInt` reads every integer's decimal text back as that integer |
| Api.Param | frontend/src/services/api.js:73-77 | a filter adds one pair exactly when its value is truthy, the pair being its name and the value's text |
| Api.BuildListParams | frontend/src/services/api.js:71-77 | the successive appends give the pairs category_id, type, period, month, year in that order, each only when truthy, none with an empty value |
| Api.BuildPeriodParams | frontend/src/services/api.js:99-103 | the summary and chart parameters never carry category_id or type |
| Api.PeriodParamsIgnoreCategoryAndType | frontend/src/services/api.js:109-113 | the summary and chart requests send what the list request sends for the same filters without a category and a type |
| Api.ParseArgsQueryString | frontend/src/services/api.js:79 | for plain names and values, the server reads back exactly the pairs the client's query string holds, in order |
| Api.LookupListParams | frontend/src/services/api.js:72-79 | the server finds each list filter under its name, and finds it absent when the client left it out |
| Api.ServerReadsListFilters | frontend/src/services/api.js:71-79 | the server's list query is the client's filters: text filters as sent, numbers read back by `int()`, the year defaulting to the current one |
| Api.ServerReadsPageFilters | frontend/src/pages/History.jsx:17-23 | the pages' period filters make the server list exactly that period, with no category or type |
| Api.ServerReadsPeriodFilters | frontend/src/services/api.js:99-105 | the summary request reaches the server with no category and no type, and with the period, month and year sent |
| Api.ServerReadsCategoryType | frontend/src/services/api.js:120-122 | the categories request's type reaches the server as given, and no type is read when none is given |
| Api.AuthorizationHeader | frontend/src/services/api.js:16-19 | a header is set exactly when a non-empty token is stored |
| Api.StoredTokenReachesServer | frontend/src/services/api.js:16-19 | the server recovers the stored token from the header and finds its user; with no token the server answers "Token is missing" |
| Api.Browser.AttachToken | frontend/src/services/api.js:15-20 | the request gets `Authorization: Bearer <token>` exactly when a token is stored; otherwise its headers are unchanged |
| Api.Browser.OnResponseError | frontend/src/services/api.js:30-38 | a 401 removes token and user from storage and goes to "/"; any other error changes nothing |
| Csv.DocumentLines | frontend/src/pages/History.jsx:143-146 | without line breaks in fields, the text splits back into the header line and one line per row: rows + 1 lines |
| Csv.LineFields | frontend/src/pages/History.jsx:145 | a line whose fields hold no comma splits back into exactly its fields |
| Csv.JoinSplitsField | frontend/src/pages/History.jsx:135-145 | a comma inside a field is, once joined, indistinguishable from a field boundary |
| Forms.ErrorText | frontend/src/pages/History.jsx:113 | the error is the server's message when it is a non-empty text, otherwise the fallback |
| Forms.OfKindMembers | frontend/src/pages/History.jsx:124-126 | the category choices are exactly the categories of the form's type |
| Forms.OfKindAppend | frontend/src/pages/Dashboard.jsx:147-149 | filtering a concatenation concatenates the filtered parts, so the category order is kept |
| Forms.OfKindMatchesServer | frontend/src/pages/Dashboard.jsx:147-149 | filtering all categories on the client gives what the server sends when asked for that type |
| HistoryPage.ExportCsv | frontend/src/pages/History.jsx:128-146 | an empty list produces no CSV, any other list produces one |
| HistoryPage.ExportLines | frontend/src/pages/History.jsx:134-146 | the export is the header line followed by one line per transaction in list order: n + 1 lines |
| HistoryPage.ExportColumns | frontend/src/pages/History.jsx:135-145 | a line is date, category name, description, amount and type, split back exactly when no field holds a comma |
| HistoryPage.CommaInDescription | frontend/src/pages/History.jsx:135-145 | nothing is quoted: a comma in the description gives six columns and moves the amount into the type's column |
| HistoryPage.EditForm | frontend/src/pages/History.jsx:78-84 | the edit form shows the transaction's date, category id, description, amount and type |
| HistoryPage.Page.constructor | frontend/src/pages/History.jsx:14-34 | the page opens on the current year with no category or type, and an empty create form |
| HistoryPage.Page.FilteredCategories | frontend/src/pages/History.jsx:124-126 | the choices are exactly the loaded categories of the form's type |
| HistoryPage.Page.ClearFilters | frontend/src/pages/History.jsx:274-282 | the filters become the current year, period "yearly", empty category and type; nothing else changes |
| HistoryPage.Page.SetPeriod | frontend/src/pages/History.jsx:210-220 | only the period filter changes |
| HistoryPage.Page.SetFormType | frontend/src/pages/History.jsx:422-444 | the form's type changes and its category is reset to "" |
| HistoryPage.Page.CreateClicked | frontend/src/pages/History.jsx:63-73 | create mode with an empty form for today, and the modal open |
| HistoryPage.Page.EditClicked | frontend/src/pages/History.jsx:75-86 | edit mode, the transaction selected, the form prefilled from it, and the modal open |
| HistoryPage.Page.Submit | frontend/src/pages/History.jsx:100-115 | create mode sends a create, edit mode an update of the selected transaction's id; a success closes the modal, a failure shows the message or "Failed to save transaction" |
| HistoryPage.ClearedFiltersListYear | frontend/src/pages/History.jsx:274-282 | after Clear Filters the server lists exactly the user's transactions of the year |
| ProfilePage.TypedExportFilters | frontend/src/pages/Profile.jsx:104-113 | the filters carry the type plus the same period fields as the full export: none, period and year, or period, month and year |
| ProfilePage.ServerReadsScope | frontend/src/pages/Profile.jsx:43-58 | the server's list query is everything, the current year, or the current month, with the type when one is sent |
| ProfilePage.TypedExportListsOnlyKind | frontend/src/pages/Profile.jsx:104-116 | the expenses-only export lists only the user's expenses, the revenues-only export only revenues |
| ProfilePage.Quote | frontend/src/pages/Profile.jsx:71 | the description is wrapped in double quotes, with quotes inside it not escaped |
| ProfilePage.FullExport | frontend/src/pages/Profile.jsx:59-79 | an empty list produces no CSV |
| ProfilePage.TypedExport | frontend/src/pages/Profile.jsx:116-134 | an empty list produces no CSV |
| ProfilePage.FullExportQuotesHistory | frontend/src/pages/Profile.jsx:67-79 | the full export is the history export of the same list with every description quoted |
| ProfilePage.TypedRowDropsType | frontend/src/pages/Profile.jsx:123-129 | a typed export's header and rows are the full export's without the Type column |
| ProfilePage.ExportLines | frontend/src/pages/Profile.jsx:76-79 | the full export has n + 1 lines |
| ProfilePage.TypedExportLines | frontend/src/pages/Profile.jsx:131-134 | a typed export has n + 1 lines |
| DashboardPage.Recent | frontend/src/pages/Dashboard.jsx:152 | the recent list is the first min(5, n) transactions, in list order |
| DashboardPage.RecentAreNewest | frontend/src/pages/Dashboard.jsx:151-152 | of a list sorted newest first, no transaction left out is dated after a shown one |
| DashboardPage.CompleteIgnoresDate | frontend/src/pages/Dashboard.jsx:113-117 | the quick-add guard does not look at the date |
| DashboardPage.ResetFormsIncomplete | frontend/src/pages/Dashboard.jsx:124-130 | a reset form, or one whose type just changed, fails the guard until a category is chosen |
| DashboardPage.PeriodChangeKeepsOtherParams | frontend/src/pages/Dashboard.jsx:105-107 | after a period change every list parameter but the period is sent as before |
| DashboardPage.Page.constructor | frontend/src/pages/Dashboard.jsx:41-55 | the page opens on the current year with no category, and an empty quick-add form |
| DashboardPage.Page.RecentTransactions | frontend/src/pages/Dashboard.jsx:152 | the first five transactions, or all when there are fewer |
| DashboardPage.Page.QuickAddCategories | frontend/src/pages/Dashboard.jsx:147-149 | the choices are exactly the loaded categories of the selected type |
| DashboardPage.Page.PeriodChanged | frontend/src/pages/Dashboard.jsx:105-107 | only the period filter changes |
| DashboardPage.Page.QuickAddTypeChanged | frontend/src/pages/Dashboard.jsx:410-415 | the type changes and the category is reset to "" |
| DashboardPage.Page.QuickAdd | frontend/src/pages/Dashboard.jsx:109-138 | an empty category, description or amount gives "Please fill all fields" and sends nothing; otherwise the form is sent, a success resets it to the defaults with type "expense", a failure keeps it and shows the message or "Failed to add transaction" |
| SignUpPage.Check | frontend/src/pages/SignUp.jsx:33-42 | mismatched passwords give "Passwords do not match" whatever their length; matching ones shorter than 6 give the length error; otherwise none |
| SignUpPage.AgeOfInteger | frontend/src/pages/SignUp.jsx:51 | an empty age is sent as null, an integer's text as that integer |
| SignUpPage.CheckedPayloadRegisters | frontend/src/pages/SignUp.jsx:47-58 | a form passing the checks sends username, email and password unchanged, so the server's password check passes and its required-field check fails exactly for an empty username or email |
| SignUpPage.Page.constructor | frontend/src/pages/SignUp.jsx:7-19 | every field starts empty, with no error |
| SignUpPage.Page.HandleChange | frontend/src/pages/SignUp.jsx:21-27 | only the named field changes, and the error is cleared |
| SignUpPage.Page.HandleSubmit | frontend/src/pages/SignUp.jsx:29-79 | a failed check shows its error and sends nothing; otherwise the payload is sent, a success goes to "/", a failure shows the message or "An error occurred during registration"; loading ends false |

## Left out

- Passwords are not kept, hashed or checked, and login is not modelled. JWT encoding and decoding with expiry become a map from token to user id, so "Token has expired" has no counterpart.
- Floating point is not modelled: `float(...)` in replies, `parseFloat` of the spending threshold, `toFixed`. Amounts stay integer cents. The spending threshold is not in `SignUpPage.Registration`.
- `SignUpPage.Check`: the length is counted in Unicode scalar values, not in UTF-16 code units as JavaScript counts them.
- `datetime.now()`, `new Date()` and the interval timer are not modelled. The current year, month and day are parameters.
- `Dates.Parse` reads only canonical `YYYY-MM-DD` text. `strptime` also accepts single-digit months and days.
- `Text.ParseInt` reads only canonical decimal text. Python's `int()` also accepts surrounding white space, a '+' sign and '_' separators.
- `Js.ParseIntPrefix` skips only the six ASCII white-space characters (space, tab, line feed, vertical tab, form feed, carriage return) and reads decimal digits only. `parseInt` also skips other Unicode white space and reads "0x" prefixes.
- `Js.NumberText` covers numbers with at most two decimals. Other numbers, and those from 1e21 up, print differently.
- `Server.ParseArgs` does no percent-decoding and no '+'-to-space. `Api.QueryString` is stated for letters, digits and "*-._" only, which is what the pages send.
- `Ledger.Breakdown` lists categories in table order. SQL's `group_by` leaves the order unspecified.
- `Ledger.ListTransactions` sorts by date with a stable insertion sort. SQL leaves the order of equal dates unspecified.
- JSON bodies carry typed fields or are absent. Values of the wrong JSON type and `null` are not modelled, and neither is how a page's form object becomes a create or update body.
- The text after "An error occurred: " in a 500 reply is the Python exception message and is not modelled.
- These parts of the pages are not modelled:
  - rendering (Recharts, `Intl.NumberFormat`, `toLocaleDateString`);
  - downloads (Blob, the link element and the file name);
  - `alert` and `confirm`;
  - the parallel loading of `Promise.all`.
- The pages' data loading (`loadData`, `loadCategories`) and the delete handler are network calls and are not modelled.
- Not in the model, being UI and storage only: frontend/src/pages/Login.jsx, frontend/src/components/Navigation.jsx, the select handlers for the History category and type filters, and the logout button.
- backend/seed_data.py (random sample data, dropping tables) is not part of this model.
