/**
  api/handlers/account_handler.go: the four account endpoints. For each endpoint a
  function gives the response (and the tables after it) from the request, the
  tables, the generated id and the driver script; the handler method follows the
  source's early returns and is proved to write exactly that response.
 */
module AccountHandlers {
  import opened Wrappers
  import opened Models
  import opened Text
  import opened Http
  import opened Utils
  import opened Ledger
  import opened AccountStore

  const AccountsPathPrefix: string := "/accounts/"

  /** allowedAccountTypes */
  predicate IsAccountType(kind: string) {
    kind == "bank" || kind == "cash" || kind == "other"
  }

  /** The create handler's message lists a type that the check refuses. */
  const CreateTypeMessage: string := "type must be one of: bank, cash, credit, other"
  const UpdateTypeMessage: string := "type must be one of: bank, cash, other"

  /** accountIDFromPath: the id of `/accounts/{id}`, or "" for any other path. */
  function AccountIdFromPath(path: string): (id: string)
    ensures id != "" ==> path == AccountsPathPrefix + id && '/' !in id
    ensures !HasPrefix(path, AccountsPathPrefix) ==> id == ""
  {
    if !HasPrefix(path, AccountsPathPrefix) then ""
    else
      var id := TrimPrefix(path, AccountsPathPrefix);
      ContainsChar(id, '/');
      if id == "" || Contains(id, "/") then "" else id
  }

  /** Every non-empty id without a slash is read back from its path. */
  lemma AccountIdRoundTrip(id: string)
    requires id != "" && '/' !in id
    ensures AccountIdFromPath(AccountsPathPrefix + id) == id
  {
    var path := AccountsPathPrefix + id;
    assert path[..|AccountsPathPrefix|] == AccountsPathPrefix;
    assert path[|AccountsPathPrefix|..] == id;
    ContainsChar(id, '/');
  }

  /** `/accounts`, `/accounts/` and any path with a further segment give no id. */
  lemma AccountIdRejects(a: string, b: string)
    ensures AccountIdFromPath("/accounts") == ""
    ensures AccountIdFromPath(AccountsPathPrefix) == ""
    ensures AccountIdFromPath(AccountsPathPrefix + a + "/" + b) == ""
  {
    var path := AccountsPathPrefix + a + "/" + b;
    assert path[|AccountsPathPrefix| + |a|] == '/';
  }

  /** The body checks of create and update, in order: JSON, name, type present, type allowed. */
  function CheckAccountBody(body: Decoded<AccountRequest>, typeMessage: string): (r: Result<AccountRequest>)
    ensures r.Ok? <==> body.Decoded? && body.value.name != "" && IsAccountType(body.value.kind)
    ensures r.Ok? ==> r.value == body.value
    ensures body.InvalidJson? ==> r == Err("invalid JSON")
    ensures body.Decoded? && body.value.name == "" ==> r == Err("name is required")
    ensures body.Decoded? && body.value.name != "" && !IsAccountType(body.value.kind) ==>
      r == Err(if body.value.kind == "" then "type is required" else typeMessage)
  {
    match body
    case InvalidJson => Err("invalid JSON")
    case Decoded(req) =>
      if req.name == "" then Err("name is required")
      else if req.kind == "" then Err("type is required")
      else if !IsAccountType(req.kind) then Err(typeMessage)
      else Ok(req)
  }

  /** "credit" is refused on create, with a message that names it as allowed. */
  lemma CreditRejected(name: string)
    requires name != ""
    ensures CheckAccountBody(Decoded(AccountRequest(name, "credit")), CreateTypeMessage) == Err(CreateTypeMessage)
    ensures Contains(CreateTypeMessage, "credit")
  {
    assert CreateTypeMessage == "type must be one of: bank, cash, " + "credit" + ", other";
    ContainsInfix("type must be one of: bank, cash, ", "credit", ", other");
  }

  /** A body the handler accepts also passes the repository's own update checks. */
  lemma AcceptedBodyPassesUpdateCheck(id: string, body: Decoded<AccountRequest>, typeMessage: string)
    requires id != "" && CheckAccountBody(body, typeMessage).Ok?
    ensures var req := CheckAccountBody(body, typeMessage).value;
      UpdateCheck(Account(id, req.name, req.kind)).None?
  {
  }

  /** ListAccounts */
  function ListAccountsReply(req: Request, t: Tables, driver: Driver): (r: Response)
    ensures req.httpMethod != MethodGet ==> r == Failure(StatusMethodNotAllowed, "method not allowed")
    ensures req.httpMethod == MethodGet ==> r.status in {StatusOK, StatusInternalServerError}
  {
    if req.httpMethod != MethodGet then Failure(StatusMethodNotAllowed, "method not allowed")
    else
      var p := ParsePagination(req.query);
      match ListResult(t, p.page, p.pageSize, driver)
      case Err(_) => Failure(StatusInternalServerError, "failed to list accounts")
      case Ok(listing) =>
        Json(StatusOK, AccountPage(listing.rows.GetOr([]), listing.total, p.page, p.pageSize))
  }

  /**
    A listing shows the requested page of the accounts, the number of accounts, and
    the page and page size as parsed; a failure of either statement is a 500.
   */
  lemma ListAccountsPage(req: Request, t: Tables, driver: Driver)
    requires req.httpMethod == MethodGet
    ensures var p := ParsePagination(req.query);
      ListAccountsReply(req, t, driver) ==
        if Fault(driver, 0).Some? || Fault(driver, 1).Some? then
          Failure(StatusInternalServerError, "failed to list accounts")
        else
          Json(StatusOK, AccountPage(Page(t.accounts, Offset(p), p.pageSize), |t.accounts|, p.page, p.pageSize))
  {
    ClampKeepsParsedPagination(req.query);
  }

  /** CreateAccount */
  function CreateAccountOutcome(req: Request, t: Tables, newId: string, driver: Driver): (o: Outcome)
    ensures req.httpMethod != MethodPost ==> o == Outcome(Failure(StatusMethodNotAllowed, "method not allowed"), t)
    ensures o.response.status != StatusCreated ==> o.tables == t
  {
    if req.httpMethod != MethodPost then Outcome(Failure(StatusMethodNotAllowed, "method not allowed"), t)
    else
      match CheckAccountBody(req.body.account, CreateTypeMessage)
      case Err(message) => Outcome(Failure(StatusBadRequest, message), t)
      case Ok(body) =>
        var acc := Account("", body.name, body.kind);
        var r := CreateResult(t, acc, newId, driver);
        match r
        case Err(_) => Outcome(Failure(StatusInternalServerError, "failed to create account"), t)
        case Ok(u) => Outcome(Json(StatusCreated, AccountJson(acc.(id := newId))), u)
  }

  /** A body that fails a check is a 400 with that check's message, and the store is not called. */
  lemma CreateAccountRejects(req: Request, t: Tables, newId: string, driver: Driver)
    requires req.httpMethod == MethodPost && CheckAccountBody(req.body.account, CreateTypeMessage).Err?
    ensures CreateAccountOutcome(req, t, newId, driver) ==
      Outcome(Failure(StatusBadRequest, CheckAccountBody(req.body.account, CreateTypeMessage).error), t)
  {
  }

  /**
    A valid body is a 201 showing the account with the generated id, which is
    appended to the table; a failed insert is a 500 and changes nothing.
   */
  lemma CreateAccountCreates(req: Request, t: Tables, newId: string, driver: Driver)
    requires req.httpMethod == MethodPost && CheckAccountBody(req.body.account, CreateTypeMessage).Ok?
    ensures var body := req.body.account.value;
      var o := CreateAccountOutcome(req, t, newId, driver);
      if Fault(driver, 0).None? && newId !in AccountIds(t) then
        o == Outcome(Json(StatusCreated, AccountJson(Account(newId, body.name, body.kind))),
                     t.(accounts := t.accounts + [Account(newId, body.name, body.kind)]))
      else
        o == Outcome(Failure(StatusInternalServerError, "failed to create account"), t)
  {
  }

  lemma CreateAccountWellFormed(req: Request, t: Tables, newId: string, driver: Driver)
    requires WellFormed(t)
    ensures WellFormed(CreateAccountOutcome(req, t, newId, driver).tables)
  {
    if req.httpMethod == MethodPost && CheckAccountBody(req.body.account, CreateTypeMessage).Ok? {
      var body := req.body.account.value;
      CreateWellFormed(t, Account("", body.name, body.kind), newId, driver);
    }
  }

  /** UpdateAccount */
  function UpdateAccountOutcome(req: Request, t: Tables, driver: Driver): (o: Outcome)
    ensures req.httpMethod != MethodPut ==> o == Outcome(Failure(StatusMethodNotAllowed, "method not allowed"), t)
    ensures req.httpMethod == MethodPut && AccountIdFromPath(req.path) == "" ==>
      o == Outcome(Failure(StatusBadRequest, "invalid account ID in path"), t)
    ensures o.response.status != StatusOK ==> o.tables == t
  {
    if req.httpMethod != MethodPut then Outcome(Failure(StatusMethodNotAllowed, "method not allowed"), t)
    else
      var id := AccountIdFromPath(req.path);
      if id == "" then Outcome(Failure(StatusBadRequest, "invalid account ID in path"), t)
      else
        match CheckAccountBody(req.body.account, UpdateTypeMessage)
        case Err(message) => Outcome(Failure(StatusBadRequest, message), t)
        case Ok(body) =>
          var acc := Account(id, body.name, body.kind);
          match UpdateResult(t, acc, driver)
          case Err(_) => Outcome(Failure(StatusInternalServerError, "failed to update account"), t)
          case Ok(u) => Outcome(Json(StatusOK, AccountJson(acc)), u)
  }

  /**
    With a valid id and body the store receives the path's id with the body's name
    and type; the response shows that record whether or not a row had the id.
   */
  lemma UpdateAccountSends(req: Request, t: Tables, driver: Driver)
    requires req.httpMethod == MethodPut && AccountIdFromPath(req.path) != ""
    requires CheckAccountBody(req.body.account, UpdateTypeMessage).Ok?
    ensures var acc := Account(AccountIdFromPath(req.path), req.body.account.value.name, req.body.account.value.kind);
      var o := UpdateAccountOutcome(req, t, driver);
      if Fault(driver, 0).None? then
        o == Outcome(Json(StatusOK, AccountJson(acc)), UpdateAccountRows(t, acc))
      else
        o == Outcome(Failure(StatusInternalServerError, "failed to update account"), t)
  {
  }

  lemma UpdateAccountRejects(req: Request, t: Tables, driver: Driver)
    requires req.httpMethod == MethodPut && AccountIdFromPath(req.path) != ""
    requires CheckAccountBody(req.body.account, UpdateTypeMessage).Err?
    ensures UpdateAccountOutcome(req, t, driver) ==
      Outcome(Failure(StatusBadRequest, CheckAccountBody(req.body.account, UpdateTypeMessage).error), t)
  {
  }

  lemma UpdateAccountWellFormed(req: Request, t: Tables, driver: Driver)
    requires WellFormed(t)
    ensures WellFormed(UpdateAccountOutcome(req, t, driver).tables)
  {
    if req.httpMethod == MethodPut && AccountIdFromPath(req.path) != ""
      && CheckAccountBody(req.body.account, UpdateTypeMessage).Ok?
    {
      var body := req.body.account.value;
      UpdateWellFormed(t, Account(AccountIdFromPath(req.path), body.name, body.kind), driver);
    }
  }

  /** The account DeleteAccount removes: the path's id, or else the `id` query parameter. */
  function DeleteTarget(req: Request): (id: string)
    ensures AccountIdFromPath(req.path) != "" ==> id == AccountIdFromPath(req.path)
    ensures AccountIdFromPath(req.path) == "" ==> id == QueryGet(req.query, "id")
  {
    var id := AccountIdFromPath(req.path);
    if id == "" then QueryGet(req.query, "id") else id
  }

  /** The query parameter is never consulted when the path names an account. */
  lemma DeleteTargetPrefersPath(id: string, q: Query, body: Body)
    requires id != "" && '/' !in id
    ensures DeleteTarget(Request(MethodDelete, AccountsPathPrefix + id, q, body)) == id
  {
    AccountIdRoundTrip(id);
  }

  /** DeleteAccount */
  function DeleteAccountOutcome(req: Request, t: Tables, driver: Driver): (o: Outcome)
    ensures req.httpMethod != MethodDelete ==> o == Outcome(Failure(StatusMethodNotAllowed, "method not allowed"), t)
    ensures req.httpMethod == MethodDelete && DeleteTarget(req) == "" ==>
      o == Outcome(Failure(StatusBadRequest, "ID is required (path or query)"), t)
    ensures o.response.status != StatusOK ==> o.tables == t
  {
    if req.httpMethod != MethodDelete then Outcome(Failure(StatusMethodNotAllowed, "method not allowed"), t)
    else
      var id := DeleteTarget(req);
      if id == "" then Outcome(Failure(StatusBadRequest, "ID is required (path or query)"), t)
      else
        match DeleteResult(t, id, driver)
        case Err(_) => Outcome(Failure(StatusInternalServerError, "failed to delete account"), t)
        case Ok(u) => Outcome(Json(StatusOK, Message("account deleted")), u)
  }

  /** A delete with an id removes that account and, by the cascade, its transactions. */
  lemma DeleteAccountRemoves(req: Request, t: Tables, driver: Driver)
    requires req.httpMethod == MethodDelete && DeleteTarget(req) != ""
    ensures var o := DeleteAccountOutcome(req, t, driver);
      if Fault(driver, 0).None? then
        o == Outcome(Json(StatusOK, Message("account deleted")), DeleteAccountRows(t, DeleteTarget(req)))
      else
        o == Outcome(Failure(StatusInternalServerError, "failed to delete account"), t)
  {
  }

  lemma DeleteAccountWellFormed(req: Request, t: Tables, driver: Driver)
    requires WellFormed(t)
    ensures WellFormed(DeleteAccountOutcome(req, t, driver).tables)
  {
    DeleteWellFormed(t, DeleteTarget(req), driver);
  }

  class AccountHandler {
    const repo: AccountRepository

    constructor (repo: AccountRepository)
      ensures this.repo == repo
    {
      this.repo := repo;
    }

    method ListAccounts(w: ResponseRecorder, req: Request, driver: Driver)
      requires w.Unwritten()
      modifies w
      ensures w.Shows(ListAccountsReply(req, repo.pool.tables, driver))
    {
      if req.httpMethod != MethodGet {
        Error(w, "method not allowed", StatusMethodNotAllowed);
        return;
      }
      var p := ParsePagination(req.query);
      var listed := repo.GetAll(p.page, p.pageSize, driver);
      if listed.Err? {
        Error(w, "failed to list accounts", StatusInternalServerError);
        return;
      }
      var accounts := listed.value.rows;
      if accounts.None? {
        accounts := Some([]);
      }
      WriteJSON(w, StatusOK, AccountPage(accounts.value, listed.value.total, p.page, p.pageSize));
    }

    method CreateAccount(w: ResponseRecorder, req: Request, newId: string, driver: Driver)
      requires w.Unwritten()
      modifies w, repo.pool
      ensures var o := CreateAccountOutcome(req, old(repo.pool.tables), newId, driver);
        w.Shows(o.response) && repo.pool.tables == o.tables
    {
      if req.httpMethod != MethodPost {
        Error(w, "method not allowed", StatusMethodNotAllowed);
        return;
      }
      if req.body.account.InvalidJson? {
        Error(w, "invalid JSON", StatusBadRequest);
        return;
      }
      var body := req.body.account.value;
      if body.name == "" {
        Error(w, "name is required", StatusBadRequest);
        return;
      }
      if body.kind == "" {
        Error(w, "type is required", StatusBadRequest);
        return;
      }
      if !IsAccountType(body.kind) {
        Error(w, CreateTypeMessage, StatusBadRequest);
        return;
      }
      var acc := Account("", body.name, body.kind);
      var err;
      acc, err := repo.Create(acc, newId, driver);
      if err.Some? {
        Error(w, "failed to create account", StatusInternalServerError);
        return;
      }
      WriteJSON(w, StatusCreated, AccountJson(acc));
    }

    method UpdateAccount(w: ResponseRecorder, req: Request, driver: Driver)
      requires w.Unwritten()
      modifies w, repo.pool
      ensures var o := UpdateAccountOutcome(req, old(repo.pool.tables), driver);
        w.Shows(o.response) && repo.pool.tables == o.tables
    {
      if req.httpMethod != MethodPut {
        Error(w, "method not allowed", StatusMethodNotAllowed);
        return;
      }
      var id := AccountIdFromPath(req.path);
      if id == "" {
        Error(w, "invalid account ID in path", StatusBadRequest);
        return;
      }
      if req.body.account.InvalidJson? {
        Error(w, "invalid JSON", StatusBadRequest);
        return;
      }
      var body := req.body.account.value;
      if body.name == "" {
        Error(w, "name is required", StatusBadRequest);
        return;
      }
      if body.kind == "" {
        Error(w, "type is required", StatusBadRequest);
        return;
      }
      if !IsAccountType(body.kind) {
        Error(w, UpdateTypeMessage, StatusBadRequest);
        return;
      }
      var acc := Account(id, body.name, body.kind);
      var err := repo.Update(acc, driver);
      if err.Some? {
        Error(w, "failed to update account", StatusInternalServerError);
        return;
      }
      WriteJSON(w, StatusOK, AccountJson(acc));
    }

    method DeleteAccount(w: ResponseRecorder, req: Request, driver: Driver)
      requires w.Unwritten()
      modifies w, repo.pool
      ensures var o := DeleteAccountOutcome(req, old(repo.pool.tables), driver);
        w.Shows(o.response) && repo.pool.tables == o.tables
    {
      if req.httpMethod != MethodDelete {
        Error(w, "method not allowed", StatusMethodNotAllowed);
        return;
      }
      var id := AccountIdFromPath(req.path);
      if id == "" {
        id := QueryGet(req.query, "id");
      }
      if id == "" {
        Error(w, "ID is required (path or query)", StatusBadRequest);
        return;
      }
      var err := repo.Delete(id, driver);
      if err.Some? {
        Error(w, "failed to delete account", StatusInternalServerError);
        return;
      }
      WriteJSON(w, StatusOK, Message("account deleted"));
    }
  }
}
