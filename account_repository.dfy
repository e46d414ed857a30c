/**
  repositories/account_repository.go: the account table's repository. Each operation's
  result is given by a function of the tables, its arguments, the id the uuid
  generator supplies and the driver script; the class's methods follow the source
  statement by statement and are proved to produce exactly that result.
 */
module AccountStore {
  import opened Wrappers
  import opened Models
  import opened Utils
  import opened Ledger

  /** GetAll: statement 0 counts the accounts, statement 1 selects the page. */
  function ListResult(t: Tables, page: int, pageSize: int, driver: Driver): (r: Result<Listing<Account>>)
    ensures r.Ok? <==> Fault(driver, 0).None? && Fault(driver, 1).None?
    ensures r.Ok? ==> r.value.rows.Some? && r.value.total == |t.accounts|
    ensures r.Ok? ==> var p := Clamp(page, pageSize); r.value.rows.value == Page(t.accounts, Offset(p), p.pageSize)
    ensures Fault(driver, 0).Some? ==> r == Err("count accounts: " + Fault(driver, 0).value)
    ensures Fault(driver, 0).None? && Fault(driver, 1).Some? ==> r == Err("query accounts: " + Fault(driver, 1).value)
  {
    match Fault(driver, 0)
    case Some(cause) => Err("count accounts: " + cause)
    case None =>
      var p := Clamp(page, pageSize);
      match Fault(driver, 1)
      case Some(cause) => Err("query accounts: " + cause)
      case None => Ok(Listing(Some(Page(t.accounts, Offset(p), p.pageSize)), |t.accounts|))
  }

  /** A successful listing is never nil, holds at most 100 rows, and shows row k at its place on its page. */
  lemma ListRows(t: Tables, page: int, pageSize: int, driver: Driver)
    requires ListResult(t, page, pageSize, driver).Ok?
    ensures var r := ListResult(t, page, pageSize, driver).value;
      var p := Clamp(page, pageSize);
      && r.rows.Some? && |r.rows.value| <= MaxLimit
      && forall i | 0 <= i < |r.rows.value| :: r.rows.value[i] == t.accounts[(p.page - 1) * p.pageSize + i]
  {
  }

  /** Create: the record takes the generated id, then one INSERT. */
  function CreateResult(t: Tables, a: Account, newId: string, driver: Driver): (r: Result<Tables>)
    ensures r.Ok? <==> Fault(driver, 0).None? && newId !in AccountIds(t)
    ensures r.Ok? ==> r.value == Tables(t.accounts + [a.(id := newId)], t.transactions)
    ensures r.Err? ==> |r.error| >= 16 && r.error[..16] == "insert account: "
  {
    var saved := a.(id := newId);
    match Fault(driver, 0)
    case Some(cause) => Err("insert account: " + cause)
    case None =>
      match InsertAccount(t, saved)
      case Err(e) => Err("insert account: " + e)
      case Ok(u) => Ok(u)
  }

  lemma CreateWellFormed(t: Tables, a: Account, newId: string, driver: Driver)
    requires WellFormed(t)
    ensures WellFormed(After(t, CreateResult(t, a, newId, driver)))
  {
    if CreateResult(t, a, newId, driver).Ok? {
      InsertAccountWellFormed(t, a.(id := newId));
    }
  }

  /** The checks Update makes before any SQL, in order. */
  function UpdateCheck(a: Account): (r: Option<string>)
    ensures r.None? <==> a.id != "" && a.name != "" && a.kind != ""
  {
    if a.id == "" then Some("account ID is required")
    else if a.name == "" then Some("account name is required")
    else if a.kind == "" then Some("account type is required")
    else None
  }

  /** Update: the checks, then one UPDATE whose affected-row count is not looked at. */
  function UpdateResult(t: Tables, a: Account, driver: Driver): (r: Result<Tables>)
    ensures UpdateCheck(a).Some? ==> r == Err(UpdateCheck(a).value)
    ensures r.Ok? <==> UpdateCheck(a).None? && Fault(driver, 0).None?
    ensures r.Ok? ==> r.value == UpdateAccountRows(t, a)
  {
    match UpdateCheck(a)
    case Some(message) => Err(message)
    case None =>
      match Fault(driver, 0)
      case Some(cause) => Err("update account: " + cause)
      case None => Ok(UpdateAccountRows(t, a))
  }

  /** The checks do not look at the tables or the database. */
  lemma UpdateChecksFirst(t: Tables, u: Tables, a: Account, d: Driver, e: Driver)
    requires UpdateCheck(a).Some?
    ensures UpdateResult(t, a, d) == UpdateResult(u, a, e)
  {
  }

  /** Updating an id no row has still succeeds, and changes nothing. */
  lemma UpdateMissingSucceeds(t: Tables, a: Account, driver: Driver)
    requires UpdateCheck(a).None? && Fault(driver, 0).None?
    requires a.id !in AccountIds(t)
    ensures UpdateResult(t, a, driver) == Ok(t)
  {
    var rows := SetAccount(t.accounts, a);
    forall i | 0 <= i < |t.accounts| ensures rows[i] == t.accounts[i] {
      assert t.accounts[i] in t.accounts;
    }
    assert rows == t.accounts;
  }

  /** Only the name and type of the account with that id change; every id stays where it was. */
  lemma UpdateChangesNameAndType(t: Tables, a: Account, driver: Driver)
    requires UpdateResult(t, a, driver).Ok?
    ensures var u := UpdateResult(t, a, driver).value;
      && u.transactions == t.transactions && |u.accounts| == |t.accounts|
      && forall i | 0 <= i < |t.accounts| ::
           u.accounts[i].id == t.accounts[i].id
           && (t.accounts[i].id == a.id ==> u.accounts[i] == a)
           && (t.accounts[i].id != a.id ==> u.accounts[i] == t.accounts[i])
  {
  }

  lemma UpdateWellFormed(t: Tables, a: Account, driver: Driver)
    requires WellFormed(t)
    ensures WellFormed(After(t, UpdateResult(t, a, driver)))
  {
    UpdateAccountWellFormed(t, a);
  }

  /** Delete: the check, then one DELETE that cascades to the account's transactions. */
  function DeleteResult(t: Tables, id: string, driver: Driver): (r: Result<Tables>)
    ensures id == "" ==> r == Err("account ID is required")
    ensures r.Ok? <==> id != "" && Fault(driver, 0).None?
    ensures r.Ok? ==> r.value == DeleteAccountRows(t, id)
  {
    if id == "" then Err("account ID is required")
    else
      match Fault(driver, 0)
      case Some(cause) => Err("delete account: " + cause)
      case None => Ok(DeleteAccountRows(t, id))
  }

  /**
    A successful delete removes the account and every transaction of it, and keeps
    every other account and transaction; the tables stay well formed.
   */
  lemma DeleteCascades(t: Tables, id: string, driver: Driver)
    requires WellFormed(t) && DeleteResult(t, id, driver).Ok?
    ensures var u := DeleteResult(t, id, driver).value;
      && WellFormed(u)
      && AccountIds(u) == AccountIds(t) - {id}
      && (forall x | x in u.transactions :: x.accountId != id && x in t.transactions)
      && (forall x | x in t.transactions && x.accountId != id :: x in u.transactions)
  {
    DeleteAccountWellFormed(t, id);
  }

  lemma DeleteWellFormed(t: Tables, id: string, driver: Driver)
    requires WellFormed(t)
    ensures WellFormed(After(t, DeleteResult(t, id, driver)))
  {
    DeleteAccountWellFormed(t, id);
  }

  class AccountRepository {
    const pool: Database

    constructor (pool: Database)
      ensures this.pool == pool
    {
      this.pool := pool;
    }

    method GetAll(page: int, pageSize: int, driver: Driver) returns (r: Result<Listing<Account>>)
      ensures r == ListResult(pool.tables, page, pageSize, driver)
    {
      if Fault(driver, 0).Some? {
        return Err("count accounts: " + Fault(driver, 0).value);
      }
      var total := |pool.tables.accounts|;
      var p, size := page, pageSize;
      if p < 1 {
        p := 1;
      }
      if size < 1 {
        size := DefaultLimit;
      }
      if size > MaxLimit {
        size := MaxLimit;
      }
      var offset := (p - 1) * size;
      assert Pagination(p, size) == Clamp(page, pageSize);
      assert offset == Offset(Clamp(page, pageSize));
      if Fault(driver, 1).Some? {
        return Err("query accounts: " + Fault(driver, 1).value);
      }
      var accounts := Scan(Page(pool.tables.accounts, offset, size));
      if accounts.None? {
        accounts := Some([]);
      }
      return Ok(Listing(accounts, total));
    }

    method Create(a: Account, newId: string, driver: Driver) returns (saved: Account, err: Option<string>)
      modifies pool
      ensures saved == a.(id := newId)
      ensures var r := CreateResult(old(pool.tables), a, newId, driver);
        err == ErrorOf(r) && pool.tables == After(old(pool.tables), r)
    {
      saved := a.(id := newId);
      if Fault(driver, 0).Some? {
        return saved, Some("insert account: " + Fault(driver, 0).value);
      }
      var inserted := InsertAccount(pool.tables, saved);
      if inserted.Err? {
        return saved, Some("insert account: " + inserted.error);
      }
      pool.tables := inserted.value;
      err := None;
    }

    method Update(a: Account, driver: Driver) returns (err: Option<string>)
      modifies pool
      ensures var r := UpdateResult(old(pool.tables), a, driver);
        err == ErrorOf(r) && pool.tables == After(old(pool.tables), r)
    {
      if a.id == "" {
        return Some("account ID is required");
      }
      if a.name == "" {
        return Some("account name is required");
      }
      if a.kind == "" {
        return Some("account type is required");
      }
      if Fault(driver, 0).Some? {
        return Some("update account: " + Fault(driver, 0).value);
      }
      pool.tables := UpdateAccountRows(pool.tables, a);
      err := None;
    }

    method Delete(id: string, driver: Driver) returns (err: Option<string>)
      modifies pool
      ensures var r := DeleteResult(old(pool.tables), id, driver);
        err == ErrorOf(r) && pool.tables == After(old(pool.tables), r)
    {
      if id == "" {
        return Some("account ID is required");
      }
      if Fault(driver, 0).Some? {
        return Some("delete account: " + Fault(driver, 0).value);
      }
      pool.tables := DeleteAccountRows(pool.tables, id);
      err := None;
    }
  }
}
