/**
  api/repositories/transaction_repository.go: the transaction table's repository, in
  the same form as the account repository: a result function per operation and a
  class whose methods are proved to produce it.
 */
module TransactionStore {
  import opened Wrappers
  import opened Models
  import opened Utils
  import opened Ledger

  const NotFoundError: string := "transaction not found"

  /** GetByAccountID: the check, statement 0 counts the account's transactions, statement 1 selects the page. */
  function ListResult(t: Tables, accountId: string, page: int, pageSize: int, driver: Driver)
    : (r: Result<Listing<Transaction>>)
    ensures accountId == "" ==> r == Err("account ID is required")
    ensures r.Ok? <==> accountId != "" && Fault(driver, 0).None? && Fault(driver, 1).None?
    ensures r.Ok? ==> r.value.rows.Some? && r.value.total == |TransactionsOf(t, accountId)|
    ensures r.Ok? ==> var p := Clamp(page, pageSize);
      r.value.rows.value == Page(TransactionsOf(t, accountId), Offset(p), p.pageSize)
  {
    if accountId == "" then Err("account ID is required")
    else
      match Fault(driver, 0)
      case Some(cause) => Err("count transactions: " + cause)
      case None =>
        var p := Clamp(page, pageSize);
        match Fault(driver, 1)
        case Some(cause) => Err("query transactions: " + cause)
        case None =>
          var rows := TransactionsOf(t, accountId);
          Ok(Listing(Some(Page(rows, Offset(p), p.pageSize)), |rows|))
  }

  /** A successful listing is never nil, has at most 100 rows, all of them the account's own. */
  lemma ListRows(t: Tables, accountId: string, page: int, pageSize: int, driver: Driver)
    requires ListResult(t, accountId, page, pageSize, driver).Ok?
    ensures var r := ListResult(t, accountId, page, pageSize, driver).value;
      && r.rows.Some? && |r.rows.value| <= MaxLimit
      && forall x | x in r.rows.value :: x in t.transactions && x.accountId == accountId
  {
    var p := Clamp(page, pageSize);
    var rows := TransactionsOf(t, accountId);
    var shown := Page(rows, Offset(p), p.pageSize);
    forall x | x in shown ensures x in rows {
      var i :| 0 <= i < |shown| && shown[i] == x;
      assert rows[Offset(p) + i] == x;
    }
  }

  /** The two id checks GetByID and Delete make, in order. */
  function IdsCheck(accountId: string, id: string): (r: Option<string>)
    ensures r.None? <==> accountId != "" && id != ""
  {
    if accountId == "" then Some("account ID is required")
    else if id == "" then Some("transaction ID is required")
    else None
  }

  /** GetByID: the checks, then one SELECT; no row is (nil, nil), not an error. */
  function FetchResult(t: Tables, accountId: string, id: string, driver: Driver): (r: Result<Option<Transaction>>)
    ensures IdsCheck(accountId, id).Some? ==> r == Err(IdsCheck(accountId, id).value)
    ensures r.Ok? <==> IdsCheck(accountId, id).None? && Fault(driver, 0).None?
    ensures r.Ok? && r.value.Some? ==> r.value.value in t.transactions && Matches(r.value.value, accountId, id)
    ensures r.Ok? && r.value.None? ==> forall x | x in t.transactions :: !Matches(x, accountId, id)
  {
    match IdsCheck(accountId, id)
    case Some(message) => Err(message)
    case None =>
      match Fault(driver, 0)
      case Some(cause) => Err("get transaction: " + cause)
      case None => Ok(FindTransaction(t.transactions, accountId, id))
  }

  /** A missing row is reported as no record and no error. */
  lemma FetchMissing(t: Tables, accountId: string, id: string, driver: Driver)
    requires IdsCheck(accountId, id).None? && Fault(driver, 0).None?
    requires forall x | x in t.transactions :: !Matches(x, accountId, id)
    ensures FetchResult(t, accountId, id, driver) == Ok(None)
  {
  }

  /** The checks Create and Update share on the type. */
  function KindCheck(kind: string): (r: Option<string>)
    ensures r.None? <==> IsTransactionKind(kind)
  {
    if kind == "" then Some("transaction type is required")
    else if kind != IncomeKind && kind != ExpenseKind then Some("transaction type must be income or expense")
    else None
  }

  /** The checks Create makes before the id is assigned, in order. */
  function CreateCheck(x: Transaction): (r: Option<string>)
    ensures r.None? <==> x.accountId != "" && IsTransactionKind(x.kind)
  {
    if x.accountId == "" then Some("account ID is required") else KindCheck(x.kind)
  }

  /** Create: the checks, the generated id, then one INSERT. */
  function CreateResult(t: Tables, x: Transaction, newId: string, driver: Driver): (r: Result<Tables>)
    ensures CreateCheck(x).Some? ==> r == Err(CreateCheck(x).value)
    ensures r.Ok? <==>
      && CreateCheck(x).None? && Fault(driver, 0).None?
      && newId !in TransactionIds(t) && x.accountId in AccountIds(t)
    ensures r.Ok? ==> r.value == Tables(t.accounts, t.transactions + [x.(id := newId)])
  {
    match CreateCheck(x)
    case Some(message) => Err(message)
    case None =>
      var saved := x.(id := newId);
      match Fault(driver, 0)
      case Some(cause) => Err("insert transaction: " + cause)
      case None =>
        match InsertTransaction(t, saved)
        case Err(e) => Err("insert transaction: " + e)
        case Ok(u) => Ok(u)
  }

  /** The record Create leaves to its caller: the id is set only once the checks pass. */
  function CreatedRecord(x: Transaction, newId: string): (saved: Transaction)
    ensures CreateCheck(x).Some? ==> saved == x
    ensures CreateCheck(x).None? ==> saved == x.(id := newId)
  {
    if CreateCheck(x).Some? then x else x.(id := newId)
  }

  lemma CreateWellFormed(t: Tables, x: Transaction, newId: string, driver: Driver)
    requires WellFormed(t)
    ensures WellFormed(After(t, CreateResult(t, x, newId, driver)))
  {
    if CreateResult(t, x, newId, driver).Ok? {
      InsertTransactionWellFormed(t, x.(id := newId));
    }
  }

  /** The checks Update makes before any SQL, in order. */
  function UpdateCheck(x: Transaction): (r: Option<string>)
    ensures r.None? <==> x.id != "" && x.accountId != "" && IsTransactionKind(x.kind)
  {
    if x.id == "" then Some("transaction ID is required")
    else if x.accountId == "" then Some("account ID is required")
    else KindCheck(x.kind)
  }

  /** Update: the checks, then one UPDATE; no affected row is "transaction not found". */
  function UpdateResult(t: Tables, x: Transaction, driver: Driver): (r: Result<Tables>)
    ensures UpdateCheck(x).Some? ==> r == Err(UpdateCheck(x).value)
    ensures r.Ok? <==>
      UpdateCheck(x).None? && Fault(driver, 0).None? && |MatchingTransactions(t, x.accountId, x.id)| > 0
    ensures r.Ok? ==> r.value == Tables(t.accounts, SetTransaction(t.transactions, x))
  {
    match UpdateCheck(x)
    case Some(message) => Err(message)
    case None =>
      match Fault(driver, 0)
      case Some(cause) => Err("update transaction: " + cause)
      case None =>
        match UpdateTransactionRows(t, x)
        case Err(e) => Err("update transaction: " + e)
        case Ok(u) =>
          if |MatchingTransactions(t, x.accountId, x.id)| == 0 then Err(NotFoundError) else Ok(u)
  }

  /** Updating a pair no row has fails with "transaction not found". */
  lemma UpdateMissing(t: Tables, x: Transaction, driver: Driver)
    requires UpdateCheck(x).None? && Fault(driver, 0).None?
    requires forall y | y in t.transactions :: !Matches(y, x.accountId, x.id)
    ensures UpdateResult(t, x, driver) == Err(NotFoundError)
  {
    FilterNothing(t.transactions, (y: Transaction) => Matches(y, x.accountId, x.id));
  }

  /** Only amount, date, description and type of the matching row change. */
  lemma UpdateChangesFourFields(t: Tables, x: Transaction, driver: Driver)
    requires UpdateResult(t, x, driver).Ok?
    ensures var u := UpdateResult(t, x, driver).value;
      && u.accounts == t.accounts && |u.transactions| == |t.transactions|
      && forall i | 0 <= i < |t.transactions| ::
           var before, after := t.transactions[i], u.transactions[i];
           && after.id == before.id && after.accountId == before.accountId
           && (Matches(before, x.accountId, x.id) ==> after == x)
           && (!Matches(before, x.accountId, x.id) ==> after == before)
  {
  }

  lemma UpdateWellFormed(t: Tables, x: Transaction, driver: Driver)
    requires WellFormed(t)
    ensures WellFormed(After(t, UpdateResult(t, x, driver)))
  {
    if UpdateResult(t, x, driver).Ok? {
      UpdateTransactionWellFormed(t, x);
    }
  }

  /** Delete: the checks, then one DELETE; no affected row is "transaction not found". */
  function DeleteResult(t: Tables, accountId: string, id: string, driver: Driver): (r: Result<Tables>)
    ensures IdsCheck(accountId, id).Some? ==> r == Err(IdsCheck(accountId, id).value)
    ensures r.Ok? <==>
      IdsCheck(accountId, id).None? && Fault(driver, 0).None? && |MatchingTransactions(t, accountId, id)| > 0
    ensures r.Ok? ==> r.value == DeleteTransactionRows(t, accountId, id)
  {
    match IdsCheck(accountId, id)
    case Some(message) => Err(message)
    case None =>
      match Fault(driver, 0)
      case Some(cause) => Err("delete transaction: " + cause)
      case None =>
        if |MatchingTransactions(t, accountId, id)| == 0 then Err(NotFoundError)
        else Ok(DeleteTransactionRows(t, accountId, id))
  }

  /** Deleting a pair no row has fails with "transaction not found". */
  lemma DeleteMissing(t: Tables, accountId: string, id: string, driver: Driver)
    requires IdsCheck(accountId, id).None? && Fault(driver, 0).None?
    requires forall y | y in t.transactions :: !Matches(y, accountId, id)
    ensures DeleteResult(t, accountId, id, driver) == Err(NotFoundError)
  {
    FilterNothing(t.transactions, (y: Transaction) => Matches(y, accountId, id));
  }

  /** A successful delete removes exactly the rows with that pair of ids. */
  lemma DeleteRemovesPair(t: Tables, accountId: string, id: string, driver: Driver)
    requires DeleteResult(t, accountId, id, driver).Ok?
    ensures var u := DeleteResult(t, accountId, id, driver).value;
      && u.accounts == t.accounts
      && (forall y | y in u.transactions :: y in t.transactions && !Matches(y, accountId, id))
      && (forall y | y in t.transactions && !Matches(y, accountId, id) :: y in u.transactions)
  {
  }

  lemma DeleteWellFormed(t: Tables, accountId: string, id: string, driver: Driver)
    requires WellFormed(t)
    ensures WellFormed(After(t, DeleteResult(t, accountId, id, driver)))
  {
    DeleteTransactionWellFormed(t, accountId, id);
  }

  class TransactionRepository {
    const pool: Database

    constructor (pool: Database)
      ensures this.pool == pool
    {
      this.pool := pool;
    }

    method GetByAccountID(accountId: string, page: int, pageSize: int, driver: Driver)
      returns (r: Result<Listing<Transaction>>)
      ensures r == ListResult(pool.tables, accountId, page, pageSize, driver)
    {
      if accountId == "" {
        return Err("account ID is required");
      }
      if Fault(driver, 0).Some? {
        return Err("count transactions: " + Fault(driver, 0).value);
      }
      var rows := TransactionsOf(pool.tables, accountId);
      var total := |rows|;
      var p, size := page, pageSize;
      if p < 1 {
        p := 1;
      }
      if size < 1 {
        size := DefaultLimit;
      }
      if size > MaxLimit {
        size := MaxLimit;
      }
      var offset := (p - 1) * size;
      assert Pagination(p, size) == Clamp(page, pageSize);
      assert offset == Offset(Clamp(page, pageSize));
      if Fault(driver, 1).Some? {
        return Err("query transactions: " + Fault(driver, 1).value);
      }
      var list := Scan(Page(rows, offset, size));
      if list.None? {
        list := Some([]);
      }
      return Ok(Listing(list, total));
    }

    method GetByID(accountId: string, id: string, driver: Driver) returns (r: Result<Option<Transaction>>)
      ensures r == FetchResult(pool.tables, accountId, id, driver)
    {
      if accountId == "" {
        return Err("account ID is required");
      }
      if id == "" {
        return Err("transaction ID is required");
      }
      if Fault(driver, 0).Some? {
        return Err("get transaction: " + Fault(driver, 0).value);
      }
      var found := FindTransaction(pool.tables.transactions, accountId, id);
      if found.None? {
        return Ok(None);
      }
      return Ok(found);
    }

    method Create(x: Transaction, newId: string, driver: Driver) returns (saved: Transaction, err: Option<string>)
      modifies pool
      ensures saved == CreatedRecord(x, newId)
      ensures var r := CreateResult(old(pool.tables), x, newId, driver);
        err == ErrorOf(r) && pool.tables == After(old(pool.tables), r)
    {
      saved := x;
      if x.accountId == "" {
        return saved, Some("account ID is required");
      }
      if x.kind == "" {
        return saved, Some("transaction type is required");
      }
      if x.kind != IncomeKind && x.kind != ExpenseKind {
        return saved, Some("transaction type must be income or expense");
      }
      saved := saved.(id := newId);
      if Fault(driver, 0).Some? {
        return saved, Some("insert transaction: " + Fault(driver, 0).value);
      }
      var inserted := InsertTransaction(pool.tables, saved);
      if inserted.Err? {
        return saved, Some("insert transaction: " + inserted.error);
      }
      pool.tables := inserted.value;
      err := None;
    }

    method Update(x: Transaction, driver: Driver) returns (err: Option<string>)
      modifies pool
      ensures var r := UpdateResult(old(pool.tables), x, driver);
        err == ErrorOf(r) && pool.tables == After(old(pool.tables), r)
    {
      if x.id == "" {
        return Some("transaction ID is required");
      }
      if x.accountId == "" {
        return Some("account ID is required");
      }
      if x.kind == "" {
        return Some("transaction type is required");
      }
      if x.kind != IncomeKind && x.kind != ExpenseKind {
        return Some("transaction type must be income or expense");
      }
      if Fault(driver, 0).Some? {
        return Some("update transaction: " + Fault(driver, 0).value);
      }
      var affected := |MatchingTransactions(pool.tables, x.accountId, x.id)|;
      var updated := UpdateTransactionRows(pool.tables, x);
      if affected == 0 {
        return Some(NotFoundError);
      }
      pool.tables := updated.value;
      err := None;
    }

    method Delete(accountId: string, id: string, driver: Driver) returns (err: Option<string>)
      modifies pool
      ensures var r := DeleteResult(old(pool.tables), accountId, id, driver);
        err == ErrorOf(r) && pool.tables == After(old(pool.tables), r)
    {
      if accountId == "" {
        return Some("account ID is required");
      }
      if id == "" {
        return Some("transaction ID is required");
      }
      if Fault(driver, 0).Some? {
        return Some("delete transaction: " + Fault(driver, 0).value);
      }
      var affected := |MatchingTransactions(pool.tables, accountId, id)|;
      if affected == 0 {
        return Some(NotFoundError);
      }
      pool.tables := DeleteTransactionRows(pool.tables, accountId, id);
      err := None;
    }
  }
}
