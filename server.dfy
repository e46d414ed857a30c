/**
  The application both entry points build (netlify/functions/api/main.go and
  api/netlify/functions/api/main.go): the two handlers over one database, the
  route table of `Router`, and the health check. A function gives the response
  and the tables after any request; the `App` class dispatches exactly as the
  router's loop does and is proved to write that response.
 */
module Server {
  import opened Wrappers
  import opened Text
  import opened Http
  import opened Utils
  import opened Ledger
  import opened Router
  import AccountHandlers
  import TransactionHandlers

  /** The body of the health check on `/`. */
  const HealthText: string := "OK"

  const MethodNotAllowedText: string := "method not allowed"

  /** What the handler registered for `e` does with the request. */
  function EndpointOutcome(e: Endpoint, req: Request, t: Tables, newId: string, driver: Driver, parseDate: DateParser): (o: Outcome)
    ensures e.Health? ==> o == Outcome(Plain(StatusOK, HealthText), t)
    ensures e.ListAccounts? || e.ListTransactions? ==> o.tables == t
  {
    match e
    case Health => Outcome(Plain(StatusOK, HealthText), t)
    case ListAccounts => Outcome(AccountHandlers.ListAccountsReply(req, t, driver), t)
    case CreateAccount => AccountHandlers.CreateAccountOutcome(req, t, newId, driver)
    case UpdateAccount => AccountHandlers.UpdateAccountOutcome(req, t, driver)
    case DeleteAccount => AccountHandlers.DeleteAccountOutcome(req, t, driver)
    case ListTransactions => Outcome(TransactionHandlers.ListTransactionsReply(req, t, driver), t)
    case CreateTransaction => TransactionHandlers.CreateTransactionOutcome(req, t, newId, driver, parseDate)
    case UpdateTransaction => TransactionHandlers.UpdateTransactionOutcome(req, t, driver, parseDate)
    case DeleteTransaction => TransactionHandlers.DeleteTransactionOutcome(req, t, driver)
  }

  /** The router's answer: the first serving route's handler, else 405 when some pattern matched, else 404. */
  function AppOutcome(req: Request, t: Tables, newId: string, driver: Driver, parseDate: DateParser): (o: Outcome)
    ensures (forall i | 0 <= i < |Routes| :: !PathMatches(Routes[i].pattern, req.path)) ==>
      o == Outcome(Failure(StatusNotFound, NotFoundText), t)
  {
    ResolveMeaning(Routes, req.httpMethod, req.path);
    match Resolve(Routes, req.httpMethod, req.path)
    case NoPath => Outcome(Failure(StatusNotFound, NotFoundText), t)
    case NoMethod => Outcome(Failure(StatusMethodNotAllowed, MethodNotAllowedText), t)
    case Serve(e) => EndpointOutcome(e, req, t, newId, driver, parseDate)
  }

  /** No request breaks the store's keys or its foreign key. */
  lemma AppKeepsWellFormed(req: Request, t: Tables, newId: string, driver: Driver, parseDate: DateParser)
    requires WellFormed(t)
    ensures WellFormed(AppOutcome(req, t, newId, driver, parseDate).tables)
  {
    match Resolve(Routes, req.httpMethod, req.path)
    case NoPath =>
    case NoMethod =>
    case Serve(e) =>
      match e
      case Health =>
      case ListAccounts =>
      case CreateAccount => AccountHandlers.CreateAccountWellFormed(req, t, newId, driver);
      case UpdateAccount => AccountHandlers.UpdateAccountWellFormed(req, t, driver);
      case DeleteAccount => AccountHandlers.DeleteAccountWellFormed(req, t, driver);
      case ListTransactions =>
      case CreateTransaction => TransactionHandlers.CreateTransactionWellFormed(req, t, newId, driver, parseDate);
      case UpdateTransaction => TransactionHandlers.UpdateTransactionWellFormed(req, t, driver, parseDate);
      case DeleteTransaction => TransactionHandlers.DeleteTransactionWellFormed(req, t, driver);
  }

  /** Only POST, PUT and DELETE routes are registered to handlers that write. */
  lemma GetChangesNothing(req: Request, t: Tables, newId: string, driver: Driver, parseDate: DateParser)
    requires req.httpMethod == MethodGet
    ensures AppOutcome(req, t, newId, driver, parseDate).tables == t
  {
    ResolveMeaning(Routes, MethodGet, req.path);
    var d := Resolve(Routes, MethodGet, req.path);
    if d.Serve? {
      var i :| 0 <= i < |Routes| && Serves(Routes[i], MethodGet, req.path) && d.endpoint == Routes[i].endpoint;
      GetRoutesOnlyRead(i);
    }
  }

  lemma GetRoutesOnlyRead(i: nat)
    requires i < |Routes| && Routes[i].verb == MethodGet
    ensures Routes[i].endpoint.Health? || Routes[i].endpoint.ListAccounts? || Routes[i].endpoint.ListTransactions?
  {
    assert MethodGet != MethodPost && MethodGet != MethodPut && MethodGet != MethodDelete;
  }

  /** A path outside `/`, `/accounts` and `/accounts/` is answered 404 whatever the method. */
  lemma UnknownPathNotFound(req: Request, t: Tables, newId: string, driver: Driver, parseDate: DateParser)
    requires req.path != HealthPattern && req.path != AccountsPattern && !HasPrefix(req.path, AccountsPrefix)
    ensures AppOutcome(req, t, newId, driver, parseDate) == Outcome(Failure(StatusNotFound, NotFoundText), t)
  {
    forall i | 0 <= i < |Routes| ensures !PathMatches(Routes[i].pattern, req.path) {
      TablePatternsKinds(i);
      if IsPlaceholderPattern(Routes[i].pattern) && Routes[i].pattern == req.path {
        PlaceholderPatternsArePrefixed(Routes[i].pattern);
      }
    }
  }

  lemma PlaceholderPatternsArePrefixed(p: string)
    requires IsPlaceholderPattern(p)
    ensures HasPrefix(p, AccountsPrefix)
  {
    LiteralAccountPattern();
    LiteralTransactionsPattern();
    LiteralTransactionPattern();
  }

  /** GET `/` is the health check; any other method on `/` is answered 405. */
  lemma HealthCheck(req: Request, t: Tables, newId: string, driver: Driver, parseDate: DateParser)
    requires req.path == HealthPattern
    ensures var o := AppOutcome(req, t, newId, driver, parseDate);
      o.tables == t &&
      o.response == if req.httpMethod == MethodGet then Plain(StatusOK, HealthText)
                    else Failure(StatusMethodNotAllowed, MethodNotAllowedText)
  {
    HealthRoutes(req.httpMethod);
  }

  /** The router over both handlers, whose repositories share one pool. */
  class App {
    const accounts: AccountHandlers.AccountHandler
    const transactions: TransactionHandlers.TransactionHandler

    constructor (accounts: AccountHandlers.AccountHandler, transactions: TransactionHandlers.TransactionHandler)
      requires accounts.repo.pool == transactions.repo.pool
      ensures this.accounts == accounts && this.transactions == transactions
      ensures Valid()
    {
      this.accounts := accounts;
      this.transactions := transactions;
    }

    predicate Valid() {
      accounts.repo.pool == transactions.repo.pool
    }

    function Pool(): Database {
      accounts.repo.pool
    }

    /** newRouter's handler: try the routes in order, then answer 405 or 404. */
    method ServeHTTP(w: ResponseRecorder, req: Request, newId: string, driver: Driver)
      requires Valid() && w.Unwritten()
      modifies w, Pool()
      ensures var o := AppOutcome(req, old(Pool().tables), newId, driver, transactions.parseDate);
        w.Shows(o.response) && Pool().tables == o.tables
    {
      var d := Dispatch(Routes, req.httpMethod, req.path);
      match d {
        case NoPath =>
          NotFound(w);
        case NoMethod =>
          Error(w, MethodNotAllowedText, StatusMethodNotAllowed);
        case Serve(e) =>
          match e {
            case Health =>
              w.WriteHeader(StatusOK);
              w.Write(Text(HealthText));
            case ListAccounts =>
              accounts.ListAccounts(w, req, driver);
            case CreateAccount =>
              accounts.CreateAccount(w, req, newId, driver);
            case UpdateAccount =>
              accounts.UpdateAccount(w, req, driver);
            case DeleteAccount =>
              accounts.DeleteAccount(w, req, driver);
            case ListTransactions =>
              transactions.ListTransactions(w, req, driver);
            case CreateTransaction =>
              transactions.CreateTransaction(w, req, newId, driver);
            case UpdateTransaction =>
              transactions.UpdateTransaction(w, req, driver);
            case DeleteTransaction =>
              transactions.DeleteTransaction(w, req, driver);
          }
      }
    }
  }
}
