# Expense ledger API, modelled in Dafny

The expense ledger is a small JSON API over two PostgreSQL tables, `accounts` and
`transactions`. It can run as a plain HTTP server or as a Netlify (AWS Lambda
compatible) function. This project models the request path end to end:

- **Router.** `pathMatches` decides which route patterns a path matches:
  `/`, `/accounts`, `/accounts/:id`, `/accounts/:id/transactions` and
  `/accounts/:id/transactions/:txId`. `newRouter` walks the route table in order.
  It answers with the first route whose pattern and method both match, else 405
  when some pattern matched, else 404.
- **Netlify entry point.** It strips the function's mount prefix from the path.
  It merges the API Gateway query parameters into the request. Then it runs the
  router into a recorder and copies the recorder into the proxy response.
- **Handlers.** There are four account handlers and four transaction handlers,
  each with its early-return checks and exact error messages. Two parsers read
  ids out of paths. `UpdateTransaction` merges a partial update. `DeleteAccount`
  falls back to the `id` query parameter.
- **Utilities.** `ParsePagination` reads `page` and `pageSize` with
  `strconv.Atoi`. `WriteJSON` writes a JSON response.
- **Repositories.** They check their arguments and clamp the page and page size
  before computing the offset. They generate UUIDs and apply SQL not-found
  semantics: no row is `(nil, nil)` for `GetByID` and "transaction not found" for
  `Update`/`Delete`, while an account update that touches no row still succeeds.
- **Store.** An in-memory store stands in for PostgreSQL. It keeps the schema's
  primary keys, the foreign key with `ON DELETE CASCADE`, and the `CHECK` on the
  transaction type.

## How the model is organised

| module | file | models |
|---|---|---|
| `Wrappers` | wrappers.dfy | `Option`, `Result` |
| `Models` | models.dfy | `Account`, `Transaction`, the request structs |
| `Numbers` | numbers.dfy | 64-bit wrap-around and `strconv.Atoi` |
| `Text` | text.dfy | `strings.HasPrefix`, `TrimPrefix`, `Contains`, `SplitN` |
| `Http` | http.dfy | requests, `httptest.ResponseRecorder`, `http.Error`, `http.NotFound` |
| `Utils` | response.dfy | `ParsePagination`, `WriteJSON` |
| `Ledger` | store.dfy | the database, its constraints, clamp/offset/page |
| `AccountStore` | account_repository.dfy | `AccountRepository` |
| `TransactionStore` | transaction_repository.dfy | `TransactionRepository` |
| `AccountHandlers` | account_handler.dfy | `AccountHandler` |
| `TransactionHandlers` | transaction_handler.dfy | `TransactionHandler` |
| `Router` | router.dfy | `pathMatches`, `newRouter`, the route table |
| `Server` | server.dfy | the assembled application and the health check |
| `Netlify` | netlify.dfy | the Lambda handler |

The pure logic of each handler and repository operation is a function of:

- the request;
- the tables;
- the generated id;
- a *driver* script.

The function gives the response, or the error, and the tables afterwards. The
driver is a sequence of `Option<string>`; entry `k` says whether the k-th SQL
statement of the call fails, and with what cause. The class methods
(`AccountRepository.GetAll`, `AccountHandler.UpdateAccount`,
`App.ServeHTTP`, ...) keep the source's imperative shape. They write into a
`ResponseRecorder` and update the shared `Database` object in place, and each
is proved to write exactly the response its function gives and to leave
exactly the tables it gives.

The router is modelled once. `pathMatches` and `newRouter` are identical in
netlify/functions/api/main.go:27-72 and api/netlify/functions/api/main.go:31-74,
and the two route tables (netlify/functions/api/main.go:93-105 and
api/netlify/functions/api/main.go:101-112) list the same ten routes in the same
order. The rows below cite the second file.

## Model

| member | source | states |
|---|---|---|
| Numbers.Wrap64 | repositories/account_repository.go:65 | the result is the 64-bit two's-complement value congruent to the input mod 2^64, and equals the input when the input fits |
| Numbers.Atoi | utils/response.go:18 | a parsed value lies in the int64 range and the text starts with a digit or a sign |
| Numbers.AtoiDecimal | utils/response.go:18 | every decimal numeral in range, with no sign, `+` or `-`, parses back to its value |
| Text.TrimPrefix | handlers/transaction_handler.go:46 | with the prefix present, prefix + result is the input; otherwise the input is unchanged |
| Text.IndexOf | handlers/transaction_handler.go:47 | the first occurrence of a character, or none exactly when it does not occur |
| Text.SplitN | handlers/transaction_handler.go:47 | `strings.SplitN`: 1 to n pieces, joining them with the separator gives back the string, no piece but the last holds the separator, and the last holds none when fewer than n pieces came out |
| Http.Error | api/handlers/account_handler.go:41 | `http.Error`: text content type, `nosniff`, the status unless one was already written, the message plus a newline appended; on a fresh recorder it shows exactly that failure |
| Http.NotFound | handlers/transaction_handler.go:76 | `http.NotFound` on a fresh recorder shows a 404 with "404 page not found" |
| Http.ResponseRecorder.constructor | api/netlify/functions/api/main.go:162 | a new recorder has no header, status 200 and an empty body |
| Http.ResponseRecorder.WriteHeader | api/netlify/functions/api/main.go:102 | the first status written sticks; later ones are ignored |
| Http.ResponseRecorder.Write | api/netlify/functions/api/main.go:102 | writing implies status 200 if none was written and appends to the body |
| Utils.PositiveParam | utils/response.go:17-26 | a parameter is used only if it parses to a value of at least 1; an empty parameter is never used |
| Utils.ParsePagination | utils/response.go:15-31 | page is at least 1 and page size lies in 1..100 |
| Utils.PaginationDefaults | utils/response.go:16 | without usable parameters the result is page 1 of size 20 |
| Utils.PageParameter | utils/response.go:17-21 | the page is the parsed `page` parameter when it is at least 1, else 1 |
| Utils.PageSizeParameter | utils/response.go:22-29 | the size is the parsed `pageSize` parameter when at least 1, capped at 100, else 20 |
| Utils.PaginationFromDecimal | utils/response.go:15-31 | decimal parameters with page ≥ 1 and 1 ≤ size ≤ 100 are read back exactly |
| Utils.PaginationIndependent | utils/response.go:15-31 | changing any other query parameter leaves page and page size as they were |
| Utils.WriteJSON | utils/response.go:33-37 | sets the JSON content type, keeps the first status, appends the value; on a fresh recorder it shows exactly that JSON response |
| Ledger.Filter | api/repositories/transaction_repository.go:169 | the rows kept are exactly the rows of the table satisfying the WHERE condition, never more than there were |
| Ledger.FilterNothing | api/repositories/transaction_repository.go:175 | when no row satisfies the condition the result is empty |
| Ledger.FilterKeepsUnique | api/internal/schema.go:19 | removing rows keeps a key unique |
| Ledger.SetAccount | repositories/account_repository.go:106-109 | `UPDATE accounts ... WHERE id`: same length, rows with the id become the new record, all others are unchanged |
| Ledger.SetTransaction | api/repositories/transaction_repository.go:147-151 | `UPDATE transactions ... WHERE account_id AND id`: matching rows take the new record, others are unchanged |
| Ledger.FindTransaction | api/repositories/transaction_repository.go:97-108 | finds a row with both ids when one exists, and returns none exactly when no row has them |
| Ledger.InsertAccountWellFormed | api/internal/schema.go:9-15 | an insert that passed the primary-key check keeps the tables well formed |
| Ledger.InsertTransactionWellFormed | api/internal/schema.go:17-25 | an insert that passed the key, foreign-key and type checks keeps the tables well formed |
| Ledger.UpdateAccountWellFormed | api/internal/schema.go:9-15 | an account update keeps the tables well formed |
| Ledger.UpdateTransactionWellFormed | api/internal/schema.go:17-25 | a transaction update that passed the type check keeps the tables well formed |
| Ledger.DeleteAccountWellFormed | api/internal/schema.go:20 | `ON DELETE CASCADE`: removing an account removes its transactions, its id leaves the key set, and the tables stay well formed |
| Ledger.DeleteTransactionWellFormed | api/internal/schema.go:17-25 | deleting transaction rows keeps the tables well formed |
| Ledger.Rest | repositories/account_repository.go:66 | the SQL statements after the k-th see the rest of the driver script |
| Ledger.Scan | repositories/account_repository.go:35-48 | `scanAccounts`: no rows give a nil slice, rows give exactly those rows in order |
| Ledger.Clamp | repositories/account_repository.go:56-64 | page below 1 becomes 1; size below 1 becomes 20, above 100 becomes 100, and is kept otherwise |
| Ledger.ClampIdempotent | repositories/account_repository.go:56-64 | clamping twice is clamping once |
| Ledger.ClampKeepsParsedPagination | api/repositories/transaction_repository.go:57-66 | the repositories' clamp never changes what the handlers' `ParsePagination` gave |
| Ledger.Offset | repositories/account_repository.go:65 | the offset is (page - 1) × size, as an unbounded natural number (corrected member) |
| Ledger.OffsetOverflow | repositories/account_repository.go:65 | page 2^62 + 1 with size 4 makes the 64-bit offset 0 while the true offset is 2^64; with size 2 it goes negative |
| Ledger.OffsetAsWrittenAgreesForSmallPages | api/repositories/transaction_repository.go:66 | for pages up to 2^56 and sizes up to 100 the 64-bit offset equals the true one |
| Ledger.Page | repositories/account_repository.go:67 | `LIMIT`/`OFFSET`: at most `limit` rows, none past the end, and row i of the page is row offset + i |
| Ledger.RowOnItsPage | api/repositories/transaction_repository.go:66-73 | every row k appears, as entry k mod s, on page k div s + 1 |
| Ledger.Database.constructor | api/internal/schema.go:9-28 | an empty database is well formed |
| AccountStore.ListResult | repositories/account_repository.go:50-82 | fails exactly when the COUNT or the SELECT fails, with the "count accounts: " / "query accounts: " prefixes; on success the total is the number of accounts and the rows are the clamped page |
| AccountStore.ListRows | repositories/account_repository.go:78-80 | a successful listing is never nil, has at most 100 rows, and row i is account offset + i |
| AccountStore.CreateResult | repositories/account_repository.go:84-94 | succeeds exactly when the INSERT does and the generated id is new; the record is appended with that id; errors say "insert account: " |
| AccountStore.CreateWellFormed | repositories/account_repository.go:84-94 | a create keeps the tables well formed |
| AccountStore.UpdateCheck | repositories/account_repository.go:97-105 | no error exactly when id, name and type are all non-empty |
| AccountStore.UpdateResult | repositories/account_repository.go:96-114 | the checks' error comes first; otherwise it succeeds exactly when the UPDATE does, setting that id's row |
| AccountStore.UpdateChecksFirst | repositories/account_repository.go:97-105 | a failing check gives the same error whatever the tables and the database do |
| AccountStore.UpdateMissingSucceeds | repositories/account_repository.go:106-113 | updating an id no account has succeeds and changes nothing |
| AccountStore.UpdateChangesNameAndType | repositories/account_repository.go:106-109 | only the row with that id changes, its id stays, transactions are untouched |
| AccountStore.UpdateWellFormed | repositories/account_repository.go:96-114 | an update keeps the tables well formed |
| AccountStore.DeleteResult | repositories/account_repository.go:116-128 | an empty id is "account ID is required"; otherwise it succeeds exactly when the DELETE does |
| AccountStore.DeleteCascades | repositories/account_repository.go:120-123 | a delete removes the account and all its transactions and keeps every other account and transaction |
| AccountStore.DeleteWellFormed | repositories/account_repository.go:116-128 | a delete keeps the tables well formed |
| AccountStore.AccountRepository.constructor | repositories/account_repository.go:30-32 | the repository keeps the pool it is given |
| AccountStore.AccountRepository.GetAll | repositories/account_repository.go:50-82 | returns exactly `ListResult` of the current tables |
| AccountStore.AccountRepository.Create | repositories/account_repository.go:84-94 | the record gets the new id; the error and new tables are those of `CreateResult` |
| AccountStore.AccountRepository.Update | repositories/account_repository.go:96-114 | the error and new tables are those of `UpdateResult` |
| AccountStore.AccountRepository.Delete | repositories/account_repository.go:116-128 | the error and new tables are those of `DeleteResult` |
| TransactionStore.ListResult | api/repositories/transaction_repository.go:45-87 | empty account id is rejected first; fails exactly when COUNT or SELECT fails; on success the total counts the account's transactions and the rows are the clamped page of them |
| TransactionStore.ListRows | api/repositories/transaction_repository.go:83-85 | a successful listing is never nil, has at most 100 rows, all belonging to the account |
| TransactionStore.IdsCheck | api/repositories/transaction_repository.go:90-95 | no error exactly when both ids are non-empty |
| TransactionStore.FetchResult | api/repositories/transaction_repository.go:89-110 | the checks come first; a found row has both ids, and no row is `Ok(None)`, not an error |
| TransactionStore.FetchMissing | api/repositories/transaction_repository.go:103-105 | a pair of ids no row has gives no record and no error |
| TransactionStore.KindCheck | api/repositories/transaction_repository.go:116-121 | no error exactly when the type is income or expense |
| TransactionStore.CreateCheck | api/repositories/transaction_repository.go:113-121 | no error exactly when the account id is set and the type allowed |
| TransactionStore.CreateResult | api/repositories/transaction_repository.go:112-132 | the checks come first; succeeds exactly when the INSERT does, the id is new and the account exists, appending the record with the new id |
| TransactionStore.CreatedRecord | api/repositories/transaction_repository.go:122 | the record takes the new id only once the checks have passed |
| TransactionStore.CreateWellFormed | api/repositories/transaction_repository.go:112-132 | a create keeps the tables well formed |
| TransactionStore.UpdateCheck | api/repositories/transaction_repository.go:135-146 | no error exactly when id and account id are set and the type allowed |
| TransactionStore.UpdateResult | api/repositories/transaction_repository.go:134-159 | the checks come first; succeeds exactly when the UPDATE does and some row has both ids |
| TransactionStore.UpdateMissing | api/repositories/transaction_repository.go:155-157 | updating a pair no row has is "transaction not found" |
| TransactionStore.UpdateChangesFourFields | api/repositories/transaction_repository.go:147-151 | only the matching row changes, and its two ids stay |
| TransactionStore.UpdateWellFormed | api/repositories/transaction_repository.go:134-159 | an update keeps the tables well formed |
| TransactionStore.DeleteResult | api/repositories/transaction_repository.go:161-179 | the checks come first; succeeds exactly when the DELETE does and some row has both ids |
| TransactionStore.DeleteMissing | api/repositories/transaction_repository.go:175-177 | deleting a pair no row has is "transaction not found" |
| TransactionStore.DeleteRemovesPair | api/repositories/transaction_repository.go:168-171 | exactly the rows with both ids go; accounts and all other transactions stay |
| TransactionStore.DeleteWellFormed | api/repositories/transaction_repository.go:161-179 | a delete keeps the tables well formed |
| TransactionStore.TransactionRepository.constructor | api/repositories/transaction_repository.go:26-28 | the repository keeps the pool it is given |
| TransactionStore.TransactionRepository.GetByAccountID | api/repositories/transaction_repository.go:45-87 | returns exactly `ListResult` of the current tables |
| TransactionStore.TransactionRepository.GetByID | api/repositories/transaction_repository.go:89-110 | returns exactly `FetchResult` of the current tables |
| TransactionStore.TransactionRepository.Create | api/repositories/transaction_repository.go:112-132 | the record and the error and new tables are those of `CreatedRecord` and `CreateResult` |
| TransactionStore.TransactionRepository.Update | api/repositories/transaction_repository.go:134-159 | the error and new tables are those of `UpdateResult` |
| TransactionStore.TransactionRepository.Delete | api/repositories/transaction_repository.go:161-179 | the error and new tables are those of `DeleteResult` |
| AccountHandlers.AccountIdFromPath | api/handlers/account_handler.go:93-102 | a non-empty id is exactly what follows `/accounts/` and holds no slash; a path without the prefix gives "" |
| AccountHandlers.AccountIdRoundTrip | api/handlers/account_handler.go:93-102 | every non-empty slash-free id is read back from `/accounts/{id}` |
| AccountHandlers.AccountIdRejects | api/handlers/account_handler.go:94-100 | `/accounts`, `/accounts/` and any deeper path give no id |
| AccountHandlers.CheckAccountBody | api/handlers/account_handler.go:68-83 | accepts exactly a decoded body with a name and an allowed type; otherwise the first failing check's message, in the source's order |
| AccountHandlers.CreditRejected | api/handlers/account_handler.go:17 | "credit" is refused on create although the create message lists it |
| AccountHandlers.AcceptedBodyPassesUpdateCheck | api/handlers/account_handler.go:123-135 | a body the handler accepts always passes the repository's own checks |
| AccountHandlers.ListAccountsReply | api/handlers/account_handler.go:39-59 | any method but GET is 405 "method not allowed"; GET answers 200 or 500 |
| AccountHandlers.ListAccountsPage | api/handlers/account_handler.go:44-58 | GET shows the page of accounts, the total and the parsed page and size, or 500 "failed to list accounts" |
| AccountHandlers.CreateAccountOutcome | api/handlers/account_handler.go:61-90 | any method but POST is 405; anything but a 201 leaves the tables unchanged |
| AccountHandlers.CreateAccountRejects | api/handlers/account_handler.go:68-83 | a body failing a check is a 400 with that message and the store is not called |
| AccountHandlers.CreateAccountCreates | api/handlers/account_handler.go:84-89 | an accepted body appends the account with the new id and answers 201 with it, or 500 "failed to create account" |
| AccountHandlers.CreateAccountWellFormed | api/handlers/account_handler.go:61-90 | the handler keeps the tables well formed |
| AccountHandlers.UpdateAccountOutcome | api/handlers/account_handler.go:104-141 | method check, then 400 "invalid account ID in path"; anything but 200 leaves the tables unchanged |
| AccountHandlers.UpdateAccountSends | api/handlers/account_handler.go:135-140 | an accepted body updates that id's row and answers 200 with the record, or 500 "failed to update account" |
| AccountHandlers.UpdateAccountRejects | api/handlers/account_handler.go:119-134 | a body failing a check is a 400 with that message |
| AccountHandlers.UpdateAccountWellFormed | api/handlers/account_handler.go:104-141 | the handler keeps the tables well formed |
| AccountHandlers.DeleteTarget | api/handlers/account_handler.go:148-151 | the id from the path, or else the `id` query parameter |
| AccountHandlers.DeleteTargetPrefersPath | api/handlers/account_handler.go:148-151 | the query parameter is never consulted when the path names an account |
| AccountHandlers.DeleteAccountOutcome | api/handlers/account_handler.go:143-161 | method check, then 400 "ID is required (path or query)"; anything but 200 leaves the tables unchanged |
| AccountHandlers.DeleteAccountRemoves | api/handlers/account_handler.go:156-160 | with an id, the account and its transactions go and the answer is "account deleted", or 500 |
| AccountHandlers.DeleteAccountWellFormed | api/handlers/account_handler.go:143-161 | the handler keeps the tables well formed |
| AccountHandlers.AccountHandler.constructor | api/handlers/account_handler.go:35-37 | the handler keeps its repository |
| AccountHandlers.AccountHandler.ListAccounts | api/handlers/account_handler.go:39-59 | writes exactly `ListAccountsReply` into a fresh recorder |
| AccountHandlers.AccountHandler.CreateAccount | api/handlers/account_handler.go:61-90 | writes exactly the response of `CreateAccountOutcome` and leaves its tables |
| AccountHandlers.AccountHandler.UpdateAccount | api/handlers/account_handler.go:104-141 | writes exactly the response of `UpdateAccountOutcome` and leaves its tables |
| AccountHandlers.AccountHandler.DeleteAccount | api/handlers/account_handler.go:143-161 | writes exactly the response of `DeleteAccountOutcome` and leaves its tables |
| TransactionHandlers.IdsOfParts | handlers/transaction_handler.go:48-55 | an account id needs a second piece "transactions"; a transaction id is a non-empty slash-free third piece |
| TransactionHandlers.IdsOfRest | handlers/transaction_handler.go:46-55 | named ids sit in the rest of the path at exactly their places; after `{a}/transactions` the rest is empty or continues with a slash |
| TransactionHandlers.IdsOfRestSound | handlers/transaction_handler.go:46-55 | joining the pieces back shows where the named ids sit |
| TransactionHandlers.PathIdsOf | handlers/transaction_handler.go:42-56 | an account id means the path is `/accounts/{a}/transactions` or starts `/accounts/{a}/transactions/` (so `/accounts/a/transactionsX` names nothing); a transaction id means the path is exactly `/accounts/{a}/transactions/{t}`; no account id means no transaction id |
| TransactionHandlers.PathIdsOfItem | handlers/transaction_handler.go:42-56 | `/accounts/{a}/transactions/{t}` names both ids |
| TransactionHandlers.PathIdsOfCollection | handlers/transaction_handler.go:42-56 | the collection path, with or without a trailing slash, names the account only |
| TransactionHandlers.PathIdsOfDeeper | handlers/transaction_handler.go:52 | a further slash drops the transaction id and keeps the account id |
| TransactionHandlers.PathIdsOfOtherSegment | handlers/transaction_handler.go:48-50 | any second segment other than `transactions` names nothing, with or without further segments |
| TransactionHandlers.PathIdsOfOthers | handlers/transaction_handler.go:43-50 | `/accounts`, `/accounts/{a}` and an empty account id name nothing |
| TransactionHandlers.ListTransactionsReply | handlers/transaction_handler.go:58-97 | method check, then 400 "invalid account ID in path"; any JSON answer is a 200 |
| TransactionHandlers.ListTransactionsOne | handlers/transaction_handler.go:68-81 | a path naming a transaction shows that row, 404 when no row has both ids, or 500 |
| TransactionHandlers.ListTransactionsPage | handlers/transaction_handler.go:82-96 | otherwise the page of the account's transactions with total, page and size, or 500 |
| TransactionHandlers.NewTransaction | handlers/transaction_handler.go:111-138 | the create body's checks in order (JSON, type present, type allowed, date present, date parses) and the record they give |
| TransactionHandlers.CreateTransactionOutcome | handlers/transaction_handler.go:99-144 | method check, then 400 "invalid path for create transaction"; anything but 201 leaves the tables unchanged |
| TransactionHandlers.CreateTransactionCreates | handlers/transaction_handler.go:132-143 | an accepted body appends the record with the new id and answers 201, or 500 "failed to create transaction" |
| TransactionHandlers.CreateTransactionRejects | handlers/transaction_handler.go:111-131 | a body failing a check is a 400 with that message |
| TransactionHandlers.CreateTransactionWellFormed | handlers/transaction_handler.go:99-144 | the handler keeps the tables well formed |
| TransactionHandlers.ApplyPatch | handlers/transaction_handler.go:176-196 | the merge succeeds exactly when a given date parses and a given type is allowed (date checked first); each given field replaces the stored one, the ids never change |
| TransactionHandlers.EmptyPatchKeeps | handlers/transaction_handler.go:176-196 | an empty patch keeps the record |
| TransactionHandlers.PatchIdempotent | handlers/transaction_handler.go:176-196 | applying an accepted patch again changes nothing more |
| TransactionHandlers.PatchKeepsKind | handlers/transaction_handler.go:190-197 | a merged record of a stored row always passes the repository's update checks |
| TransactionHandlers.UpdateTransactionOutcome | handlers/transaction_handler.go:146-202 | method check, then 400 "invalid path for update transaction"; anything but 200 leaves the tables unchanged |
| TransactionHandlers.SaveMergedOutcome | handlers/transaction_handler.go:176-201 | a refused patch is a 400 with its message; 200 exactly when the merge and the UPDATE both succeed |
| TransactionHandlers.UpdateTransactionMissing | handlers/transaction_handler.go:167-175 | an update of a transaction no row has is a 404, whatever the patch |
| TransactionHandlers.UpdateTransactionMerges | handlers/transaction_handler.go:176-201 | an accepted patch saves the merged record and answers 200 with it, or 500 "failed to update transaction" |
| TransactionHandlers.FilterKeepsMatch | handlers/transaction_handler.go:197 | the row just fetched is matched by the update's WHERE clause |
| TransactionHandlers.UpdateTransactionWellFormed | handlers/transaction_handler.go:146-202 | the handler keeps the tables well formed |
| TransactionHandlers.DeleteTransactionOutcome | handlers/transaction_handler.go:204-223 | method check, then 400 "invalid path for delete transaction"; anything but 200 leaves the tables unchanged |
| TransactionHandlers.DeleteTransactionMissing | handlers/transaction_handler.go:214-218 | deleting a transaction no row has is a 404 |
| TransactionHandlers.NotFoundErrorSaysNotFound | handlers/transaction_handler.go:215 | the repository's missing-row error contains "not found" |
| TransactionHandlers.DeleteTransactionRemoves | handlers/transaction_handler.go:214-222 | deleting an existing transaction removes exactly the rows with both ids and answers "transaction deleted" |
| TransactionHandlers.DeleteTransactionWellFormed | handlers/transaction_handler.go:204-223 | the handler keeps the tables well formed |
| TransactionHandlers.TransactionHandler.constructor | handlers/transaction_handler.go:36-38 | the handler keeps its repository and date parser |
| TransactionHandlers.TransactionHandler.ListTransactions | handlers/transaction_handler.go:58-97 | writes exactly `ListTransactionsReply` into a fresh recorder |
| TransactionHandlers.TransactionHandler.CreateTransaction | handlers/transaction_handler.go:99-144 | writes exactly the response of `CreateTransactionOutcome` and leaves its tables |
| TransactionHandlers.TransactionHandler.UpdateTransaction | handlers/transaction_handler.go:146-175 | writes exactly the response of `UpdateTransactionOutcome` and leaves its tables |
| TransactionHandlers.TransactionHandler.SaveMerged | handlers/transaction_handler.go:176-201 | writes exactly the response of `SaveMergedOutcome` and leaves its tables |
| TransactionHandlers.TransactionHandler.DeleteTransaction | handlers/transaction_handler.go:204-223 | writes exactly the response of `DeleteTransactionOutcome` and leaves its tables |
| Router.Segments | api/netlify/functions/api/main.go:39-40 | the path after `/accounts/` cut into at most four pieces |
| Router.PathMatches | api/netlify/functions/api/main.go:31-51 | equal paths match; outside `/accounts/`, and for any pattern other than the three placeholder patterns, matching is equality |
| Router.AccountPatternMatches | api/netlify/functions/api/main.go:42-43 | `/accounts/:id` matches `/accounts/{x}` for every non-empty slash-free x |
| Router.AccountPatternOnly | api/netlify/functions/api/main.go:42-43 | and only such paths |
| Router.TransactionsPatternMatches | api/netlify/functions/api/main.go:44-45 | `/accounts/:id/transactions` matches `/accounts/{x}/transactions` |
| Router.TransactionsPatternOnly | api/netlify/functions/api/main.go:44-45 | and only such paths |
| Router.TransactionPatternMatches | api/netlify/functions/api/main.go:46-47 | `/accounts/:id/transactions/:txId` matches `/accounts/{x}/transactions/{y}` |
| Router.TransactionPatternOnly | api/netlify/functions/api/main.go:46-47 | and, besides the pattern itself, only such paths |
| Router.MatchedPieces | api/netlify/functions/api/main.go:41-50 | a placeholder match fixes the number of pieces: 1, 2 or 3 |
| Router.PatternsExclusive | api/netlify/functions/api/main.go:41-50 | no path matches two different patterns of the kinds the table uses |
| Router.Resolve | api/netlify/functions/api/main.go:53-74 | with no routes the answer is 404 |
| Router.ResolveMeaning | api/netlify/functions/api/main.go:57-72 | serve the handler of some route whose pattern and method match, with no earlier such route; 405 exactly when some pattern matched but no method; 404 exactly when no pattern matched |
| Router.ResolveFirst | api/netlify/functions/api/main.go:58-66 | the first route whose pattern and method match is the one served |
| Router.Dispatch | api/netlify/functions/api/main.go:53-74 | the loop gives exactly `Resolve` |
| Router.SwapAdjacent | netlify/functions/api/main.go:99 | swapping neighbouring routes that no path matches both of changes no answer |
| Router.TablePatternsKinds | api/netlify/functions/api/main.go:101-112 | every pattern in the table is a placeholder pattern or lies outside `/accounts/` |
| Router.TableExclusive | api/netlify/functions/api/main.go:101-112 | two different patterns of the table never match the same path |
| Router.TableSwapKeepsDispatch | api/netlify/functions/api/main.go:101-112 | swapping neighbouring routes with different patterns never changes an answer, so "more specific first" is not needed |
| Router.TablePatterns | api/netlify/functions/api/main.go:101-112 | the pattern of each of the ten routes |
| Router.BlockServes | api/netlify/functions/api/main.go:58-66 | within the block of one pattern, the first route with the method is served |
| Router.BlockRefuses | api/netlify/functions/api/main.go:68-71 | a matched pattern with no route for the method is 405 |
| Router.HealthRoutes | api/netlify/functions/api/main.go:102 | on `/`, GET is the health check and every other method is 405 |
| Router.AccountsRoutes | api/netlify/functions/api/main.go:103-104 | on `/accounts`, GET lists, POST creates, everything else is 405 |
| Router.AccountRoutes | api/netlify/functions/api/main.go:105-106 | on `/accounts/{id}`, PUT updates, DELETE deletes, everything else is 405 |
| Router.TransactionRoutes | api/netlify/functions/api/main.go:107-109 | on `/accounts/{id}/transactions/{txId}`, GET shows, PUT updates, DELETE deletes, everything else is 405 |
| Router.TransactionsRoutes | api/netlify/functions/api/main.go:110-111 | on `/accounts/{id}/transactions`, GET lists, POST creates, everything else is 405 |
| Server.EndpointOutcome | api/netlify/functions/api/main.go:101-112 | the health check answers 200 "OK"; the two list handlers never change the tables |
| Server.AppOutcome | api/netlify/functions/api/main.go:53-74 | a path no pattern matches is 404 "404 page not found" and changes nothing |
| Server.AppKeepsWellFormed | api/netlify/functions/api/main.go:101-112 | no request breaks the keys, the foreign key or the type check |
| Server.GetChangesNothing | api/netlify/functions/api/main.go:101-112 | every GET leaves the tables unchanged |
| Server.UnknownPathNotFound | api/netlify/functions/api/main.go:31-38 | every path that is not `/`, `/accounts` or under `/accounts/` is 404 whatever the method |
| Server.HealthCheck | api/netlify/functions/api/main.go:102 | GET `/` is 200 "OK", any other method on `/` is 405, and neither changes the tables |
| Server.App.constructor | api/netlify/functions/api/main.go:96-99 | both handlers' repositories share one pool |
| Server.App.ServeHTTP | api/netlify/functions/api/main.go:53-74 | writes exactly the response of `AppOutcome` and leaves its tables |
| Netlify.StripFunctionPrefix | api/netlify/functions/api/main.go:120-126 | a path without the prefix is unchanged; a longer prefixed path loses the prefix once; the bare prefix becomes `/` |
| Netlify.StripRoundTrip | api/netlify/functions/api/main.go:120-126 | for every non-empty rest, prefix + rest is read back as rest |
| Netlify.StripBarePrefix | api/netlify/functions/api/main.go:123-125 | the bare prefix is the health path |
| Netlify.StripNotSegmentAware | api/netlify/functions/api/main.go:121-122 | the prefix is cut even in the middle of a segment, leaving a path that is neither `/`, `/accounts` nor under `/accounts/` |
| Netlify.MergedQuery | api/netlify/functions/api/main.go:142-154 | a key is present exactly when it has a single value or a non-empty list; its values are the single value then the list |
| Netlify.MergedQueryGet | api/netlify/functions/api/main.go:142-154 | `Get` prefers the single-valued parameter, then the first of the list, else "" |
| Netlify.AddValues | api/netlify/functions/api/main.go:149-151 | the inner loop adds the values one by one, in order |
| Netlify.MergeQuery | api/netlify/functions/api/main.go:142-154 | the two loops build exactly `MergedQuery`, in whatever order the maps are visited |
| Netlify.ToProxy | api/netlify/functions/api/main.go:165-178 | status copied, one body, a Content-Type for errors and JSON but not for the raw health text, the JSON value as the body |
| Netlify.ToRequest | api/netlify/functions/api/main.go:128-154 | the router sees the stripped path, the method, the body, and the query merged from the proxy's parameters |
| Netlify.HandlerOutcome | api/netlify/functions/api/main.go:119-179 | a request `NewRequest` refuses is a 400 JSON `{"error":"invalid request"}` with the tables unchanged; otherwise the status is the application's |
| Netlify.MountedLikeDirect | api/netlify/functions/api/main.go:119-163 | under the mount point a request is answered as the application answers the path after it |
| Netlify.PrefixLookalikeNotFound | api/netlify/functions/api/main.go:120-126 | a path such as `/.netlify/functions/apix` is 404 and changes nothing |
| Netlify.HandlerKeepsWellFormed | api/netlify/functions/api/main.go:119-179 | no proxy request breaks the tables' constraints |
| Netlify.Handle | api/netlify/functions/api/main.go:119-179 | returns exactly the response of `HandlerOutcome` and leaves its tables |

## Left out

- JSON decoding and the 1 MiB body cap (`http.MaxBytesReader`) are not modelled. A request's `Body` says for each handler struct whether decoding succeeded and what it gave. Encoding is also not modelled: a JSON response holds its value, without the encoder's trailing newline.
- `time.Parse` with RFC 3339 (utils/response.go:39-41) is a parameter, `DateParser`. Instants are nanoseconds since the epoch.
- The transaction amount is a `float64` and is only ever copied, so an integer stands for it.
- `uuid.New()` is the `newId` parameter. A duplicate generated id fails the INSERT as a primary-key violation.
- PostgreSQL is replaced by the in-memory `Database`. Its SQL failures (connection errors, `rows.Err`, scan errors) show up only as the driver script's per-statement faults. The `::uuid` casts are not modelled, so an id that is not a UUID is not an error.
- `ORDER BY name` and `ORDER BY date DESC, id` are not modelled. A listing pages the rows in insertion order.
- Netlify.Handle: request headers (lines 156-160) are not copied into the request, since no handler reads them.
- Netlify.ToRequest: the stripped path reaches the router as raw text. `http.NewRequestWithContext` parses it as a URL, and the model does not: it does not decode `%xx` escapes (`/accounts/a%20b` names account `a b` in the source and `a%20b` here; `/accounts/a%2Fb` is a 404 there and names account `a%2Fb` here), and it does not cut the path at `?` or `#` (`/accounts?page=2` lists page 2 in the source and is a 404 here). The merged query therefore starts empty instead of from a query in the path. The `path` of a `Request` stands for the already decoded `r.URL.Path`.
- AccountStore.ListResult and TransactionStore.ListResult (and so `AccountRepository.GetAll` and `TransactionRepository.GetByAccountID`) page by the corrected, unbounded `Ledger.Offset`, not by the source's 64-bit wrapping offset (repositories/account_repository.go:65, api/repositories/transaction_repository.go:66). For very large pages the source can return the first rows (offset wrapped to 0, as for page 2^62 + 1 of size 4) or fail on a negative OFFSET, where the model returns the true, empty page; `Ledger.OffsetAsWritten` and `Ledger.OffsetOverflow` under "## Findings" record that behaviour, and `Ledger.OffsetAsWrittenAgreesForSmallPages` bounds where the two agree.
- Netlify.HandlerOutcome: whether `http.NewRequestWithContext` accepts the method and path is the `accepted` parameter, not a parse.
- `sync.Once`, the global pool, `internal.Connect`, `internal.Migrate`, `log.Fatal`, `main`, `runHTTPServer` and the `RUN_HTTP_SERVER`/`PORT` environment variables are left out. They are start-up and I/O, and the application is built once by `App`'s constructor.
- handlers/account_handler.go and internal/schema.go are older, smaller versions of api/handlers/account_handler.go and api/internal/schema.go, which are the ones modelled; the older pair is not part of this model.
- The `AccountStore` and `TransactionStore` interfaces are not modelled as such. The handlers hold the concrete repositories, and the fake stores with arbitrary errors are covered by the driver script's faults.
- The `X-Content-Type-Options` header and other headers the recorder may add are modelled only for `http.Error`. Content sniffing on a first `Write` is not modelled, because every handler sets its header before writing.
- Router.SwapAdjacent: the reordering result covers adjacent swaps only. Any permutation follows by repeating them, which is not stated as one lemma.
- TransactionHandlers.TransactionHandler.UpdateTransaction: lines 176-201 sit in their own method, `SaveMerged`, which it calls.
- Router's three placeholder patterns are built from their pieces (`/accounts/` + `:id` + ...). They are the same strings as in the source.
- Go's random map iteration order is covered by picking keys arbitrarily in `MergeQuery`. The result is proved not to depend on that order.

## Findings

| source | as written | input that shows it | evidently intended | confidence | as-written member | corrected member |
|---|---|---|---|---|---|---|
| repositories/account_repository.go:65 | `offset := (page - 1) * pageSize` in Go's 64-bit `int`, after only a lower bound is put on `page`; the same line is api/repositories/transaction_repository.go:66 | `?page=4611686018427387905&pageSize=4`, which `ParsePagination` accepts, gives offset 0, so page 2^62 + 1 shows the first rows; with `pageSize=2` the offset is negative and the query fails | the offset is (page - 1) × pageSize, and every row appears on exactly its own page | medium, not executed | Ledger.OffsetOverflow | Ledger.Offset |
