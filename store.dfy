/**
  The database behind both repositories, in memory: the `accounts` and
  `transactions` tables as sequences of rows, the effect of each SQL statement the
  repositories issue, the constraints of the schema (api/internal/schema.go) and the
  pagination arithmetic both repositories share.
 */
module Ledger {
  import opened Wrappers
  import opened Models
  import opened Numbers
  import opened Http
  import opened Utils

  const IncomeKind: string := "income"
  const ExpenseKind: string := "expense"

  /** The CHECK constraint on transactions.type. */
  predicate IsTransactionKind(kind: string) {
    kind == IncomeKind || kind == ExpenseKind
  }

  /** The two tables, each in insertion order. */
  datatype Tables = Tables(accounts: seq<Account>, transactions: seq<Transaction>)

  /** What a request leaves behind: the response written and the tables after it. */
  datatype Outcome = Outcome(response: Response, tables: Tables)

  /** The tables after a statement: its new tables, or the old ones when it failed. */
  function After(t: Tables, r: Result<Tables>): Tables {
    if r.Ok? then r.value else t
  }

  function AccountIds(t: Tables): set<string> {
    set a | a in t.accounts :: a.id
  }

  function TransactionIds(t: Tables): set<string> {
    set x | x in t.transactions :: x.id
  }

  /** No two rows share a key. */
  predicate UniqueBy<T>(rows: seq<T>, key: T -> string) {
    forall i, j | 0 <= i < j < |rows| :: key(rows[i]) != key(rows[j])
  }

  function AccountKey(a: Account): string {
    a.id
  }

  function TransactionKey(x: Transaction): string {
    x.id
  }

  /**
    The schema's constraints: both primary keys unique, every transaction's
    account_id naming an account, every transaction type income or expense.
   */
  predicate WellFormed(t: Tables) {
    && UniqueBy(t.accounts, AccountKey)
    && UniqueBy(t.transactions, TransactionKey)
    && (forall x | x in t.transactions :: x.accountId in AccountIds(t) && IsTransactionKind(x.kind))
  }

  /** The rows that satisfy `keep`, in their order (a WHERE clause). */
  function Filter<T>(rows: seq<T>, keep: T -> bool): (r: seq<T>)
    ensures |r| <= |rows|
    ensures forall x | x in r :: x in rows && keep(x)
    ensures forall x | x in rows && keep(x) :: x in r
  {
    if rows == [] then []
    else
      assert rows == [rows[0]] + rows[1..];
      (if keep(rows[0]) then [rows[0]] else []) + Filter(rows[1..], keep)
  }

  lemma {:induction false} FilterNothing<T>(rows: seq<T>, keep: T -> bool)
    requires forall x | x in rows :: !keep(x)
    ensures Filter(rows, keep) == []
  {
    if rows != [] {
      assert rows[0] in rows;
      FilterNothing(rows[1..], keep);
    }
  }

  lemma {:induction false} FilterKeepsUnique<T>(rows: seq<T>, keep: T -> bool, key: T -> string)
    requires UniqueBy(rows, key)
    ensures UniqueBy(Filter(rows, keep), key)
  {
    if rows != [] {
      var tail := rows[1..];
      assert UniqueBy(tail, key) by {
        forall i, j | 0 <= i < j < |tail| ensures key(tail[i]) != key(tail[j]) {
          assert tail[i] == rows[i + 1] && tail[j] == rows[j + 1];
        }
      }
      FilterKeepsUnique(tail, keep, key);
      var rest := Filter(tail, keep);
      forall y | y in rest ensures key(y) != key(rows[0]) {
        var k :| 0 <= k < |tail| && tail[k] == y;
        assert rows[k + 1] == y;
      }
    }
  }

  /** UPDATE accounts SET name, type WHERE id: a row with the record's id takes its name and type. */
  function SetAccount(rows: seq<Account>, a: Account): (r: seq<Account>)
    ensures |r| == |rows|
    ensures forall i | 0 <= i < |rows| ::
      r[i] == if rows[i].id == a.id then rows[i].(name := a.name, kind := a.kind) else rows[i]
  {
    if rows == [] then []
    else
      [if rows[0].id == a.id then rows[0].(name := a.name, kind := a.kind) else rows[0]]
      + SetAccount(rows[1..], a)
  }

  predicate Matches(x: Transaction, accountId: string, id: string) {
    x.accountId == accountId && x.id == id
  }

  /**
    UPDATE transactions SET amount, date, description, type WHERE account_id AND id:
    a matching row takes those four fields of the record.
   */
  function SetTransaction(rows: seq<Transaction>, x: Transaction): (r: seq<Transaction>)
    ensures |r| == |rows|
    ensures forall i | 0 <= i < |rows| ::
      r[i] == if Matches(rows[i], x.accountId, x.id)
              then rows[i].(amount := x.amount, date := x.date, description := x.description, kind := x.kind)
              else rows[i]
  {
    if rows == [] then []
    else
      [if Matches(rows[0], x.accountId, x.id)
       then rows[0].(amount := x.amount, date := x.date, description := x.description, kind := x.kind)
       else rows[0]]
      + SetTransaction(rows[1..], x)
  }

  /** The first row with both ids, if any (a SELECT ... WHERE account_id AND id). */
  function FindTransaction(rows: seq<Transaction>, accountId: string, id: string): (r: Option<Transaction>)
    ensures r.None? <==> forall x | x in rows :: !Matches(x, accountId, id)
    ensures r.Some? ==> r.value in rows && Matches(r.value, accountId, id)
  {
    if rows == [] then None
    else if Matches(rows[0], accountId, id) then Some(rows[0])
    else
      assert rows == [rows[0]] + rows[1..];
      FindTransaction(rows[1..], accountId, id)
  }

  function TransactionsOf(t: Tables, accountId: string): seq<Transaction> {
    Filter(t.transactions, (x: Transaction) => x.accountId == accountId)
  }

  function MatchingTransactions(t: Tables, accountId: string, id: string): seq<Transaction> {
    Filter(t.transactions, (x: Transaction) => Matches(x, accountId, id))
  }

  const AccountsKeyViolation: string :=
    "ERROR: duplicate key value violates unique constraint \"accounts_pkey\" (SQLSTATE 23505)"
  const TransactionsKeyViolation: string :=
    "ERROR: duplicate key value violates unique constraint \"transactions_pkey\" (SQLSTATE 23505)"
  const AccountReferenceViolation: string :=
    "ERROR: insert or update on table \"transactions\" violates foreign key constraint \"transactions_account_id_fkey\" (SQLSTATE 23503)"
  const TransactionTypeViolation: string :=
    "ERROR: new row for relation \"transactions\" violates check constraint \"transactions_type_check\" (SQLSTATE 23514)"

  /** INSERT INTO accounts: refused when the id is taken. */
  function InsertAccount(t: Tables, a: Account): Result<Tables> {
    if a.id in AccountIds(t) then Err(AccountsKeyViolation)
    else Ok(t.(accounts := t.accounts + [a]))
  }

  /** INSERT INTO transactions: the type check, then the primary key, then the account reference. */
  function InsertTransaction(t: Tables, x: Transaction): Result<Tables> {
    if !IsTransactionKind(x.kind) then Err(TransactionTypeViolation)
    else if x.id in TransactionIds(t) then Err(TransactionsKeyViolation)
    else if x.accountId !in AccountIds(t) then Err(AccountReferenceViolation)
    else Ok(t.(transactions := t.transactions + [x]))
  }

  function UpdateAccountRows(t: Tables, a: Account): Tables {
    t.(accounts := SetAccount(t.accounts, a))
  }

  /** The UPDATE of a transaction: refused by the type check when it would store a bad type. */
  function UpdateTransactionRows(t: Tables, x: Transaction): Result<Tables> {
    if !IsTransactionKind(x.kind) && |MatchingTransactions(t, x.accountId, x.id)| > 0 then
      Err(TransactionTypeViolation)
    else
      Ok(t.(transactions := SetTransaction(t.transactions, x)))
  }

  /** DELETE FROM accounts WHERE id, with ON DELETE CASCADE on transactions.account_id. */
  function DeleteAccountRows(t: Tables, id: string): Tables {
    Tables(
      Filter(t.accounts, (a: Account) => a.id != id),
      Filter(t.transactions, (x: Transaction) => x.accountId != id))
  }

  function DeleteTransactionRows(t: Tables, accountId: string, id: string): Tables {
    t.(transactions := Filter(t.transactions, (x: Transaction) => !Matches(x, accountId, id)))
  }

  lemma InsertAccountWellFormed(t: Tables, a: Account)
    requires WellFormed(t) && InsertAccount(t, a).Ok?
    ensures WellFormed(InsertAccount(t, a).value)
  {
    var u := InsertAccount(t, a).value;
    assert AccountIds(t) <= AccountIds(u);
    forall i | 0 <= i < |t.accounts| ensures t.accounts[i].id != a.id {
      assert t.accounts[i] in t.accounts;
    }
  }

  lemma InsertTransactionWellFormed(t: Tables, x: Transaction)
    requires WellFormed(t) && InsertTransaction(t, x).Ok?
    ensures WellFormed(InsertTransaction(t, x).value)
  {
    forall i | 0 <= i < |t.transactions| ensures t.transactions[i].id != x.id {
      assert t.transactions[i] in t.transactions;
    }
  }

  lemma UpdateAccountWellFormed(t: Tables, a: Account)
    requires WellFormed(t)
    ensures WellFormed(UpdateAccountRows(t, a))
  {
    var u := UpdateAccountRows(t, a);
    forall id | id in AccountIds(t) ensures id in AccountIds(u) {
      var b :| b in t.accounts && b.id == id;
      var i :| 0 <= i < |t.accounts| && t.accounts[i] == b;
      assert u.accounts[i].id == id;
    }
  }

  lemma UpdateTransactionWellFormed(t: Tables, x: Transaction)
    requires WellFormed(t) && UpdateTransactionRows(t, x).Ok?
    ensures WellFormed(UpdateTransactionRows(t, x).value)
  {
    var u := UpdateTransactionRows(t, x).value;
    forall y | y in u.transactions ensures y.accountId in AccountIds(u) && IsTransactionKind(y.kind) {
      var i :| 0 <= i < |u.transactions| && u.transactions[i] == y;
      var old_y := t.transactions[i];
      assert old_y in t.transactions;
      if Matches(old_y, x.accountId, x.id) {
        assert old_y in MatchingTransactions(t, x.accountId, x.id);
      }
    }
  }

  /** The cascade is what keeps every remaining transaction's account in place. */
  lemma DeleteAccountWellFormed(t: Tables, id: string)
    requires WellFormed(t)
    ensures WellFormed(DeleteAccountRows(t, id))
    ensures AccountIds(DeleteAccountRows(t, id)) == AccountIds(t) - {id}
    ensures forall x | x in DeleteAccountRows(t, id).transactions :: x.accountId != id
  {
    var u := DeleteAccountRows(t, id);
    FilterKeepsUnique(t.accounts, (a: Account) => a.id != id, AccountKey);
    FilterKeepsUnique(t.transactions, (x: Transaction) => x.accountId != id, TransactionKey);
    forall k | k in AccountIds(t) - {id} ensures k in AccountIds(u) {
      var b :| b in t.accounts && b.id == k;
      assert b in u.accounts;
    }
  }

  lemma DeleteTransactionWellFormed(t: Tables, accountId: string, id: string)
    requires WellFormed(t)
    ensures WellFormed(DeleteTransactionRows(t, accountId, id))
  {
    FilterKeepsUnique(t.transactions, (x: Transaction) => !Matches(x, accountId, id), TransactionKey);
  }

  /**
    The scripted outcome of the SQL statements one request issues, in order: the
    k-th statement fails with cause d[k] when that is present and succeeds otherwise.
    It stands for the database's own failures (lost connection, an id that is not a
    UUID, ...), which the model does not derive.
   */
  type Driver = seq<Option<string>>

  function Fault(d: Driver, k: nat): Option<string> {
    if k < |d| then d[k] else None
  }

  /** The script of the statements after the first k. */
  function Rest(d: Driver, k: nat): (r: Driver)
    ensures forall j: nat :: Fault(r, j) == Fault(d, k + j)
  {
    if k <= |d| then d[k..] else []
  }

  /** A list result: the rows as the scan left them (None for Go's nil slice) and the count. */
  datatype Listing<T> = Listing(rows: Option<seq<T>>, total: int)

  /** The rows.Next loop of scanAccounts and scanTransactions: appending to a nil slice. */
  method Scan<T>(rows: seq<T>) returns (list: Option<seq<T>>)
    ensures rows == [] ==> list == None
    ensures rows != [] ==> list == Some(rows)
  {
    list := None;
    var i := 0;
    while i < |rows|
      invariant 0 <= i <= |rows|
      invariant i == 0 ==> list == None
      invariant i > 0 ==> list == Some(rows[..i])
    {
      assert rows[..i + 1] == rows[..i] + [rows[i]];
      list := Some(list.GetOr([]) + [rows[i]]);
      i := i + 1;
    }
    assert rows[..|rows|] == rows;
  }

  const DefaultLimit: int := 20
  const MaxLimit: int := 100

  /** The repositories' own normalisation of the requested page and page size. */
  function Clamp(page: int, pageSize: int): (p: Pagination)
    ensures p.page >= 1 && 1 <= p.pageSize <= MaxLimit
    ensures p.page == if page < 1 then 1 else page
    ensures p.pageSize == if pageSize < 1 then DefaultLimit else if pageSize > MaxLimit then MaxLimit else pageSize
  {
    var page := if page < 1 then 1 else page;
    var pageSize := if pageSize < 1 then DefaultLimit else pageSize;
    Pagination(page, if pageSize > MaxLimit then MaxLimit else pageSize)
  }

  lemma ClampIdempotent(page: int, pageSize: int)
    ensures var p := Clamp(page, pageSize); Clamp(p.page, p.pageSize) == p
  {
  }

  /** What the handlers pass is already normal, so the repositories' clamp changes nothing. */
  lemma ClampKeepsParsedPagination(q: Query)
    ensures var p := ParsePagination(q); Clamp(p.page, p.pageSize) == p
  {
  }

  /** The number of rows before page `p.page`, computed without overflow. */
  function Offset(p: Pagination): (r: nat)
    requires p.page >= 1 && p.pageSize >= 1
    ensures r == (p.page - 1) * p.pageSize
  {
    (p.page - 1) * p.pageSize
  }

  /** The offset as the source computes it: in Go's 64-bit int, which wraps. */
  function OffsetAsWritten(p: Pagination): int {
    Wrap64((p.page - 1) * p.pageSize)
  }

  /**
    A page number the handlers accept makes the 64-bit offset wrap: to 0 (the first
    rows come back as page 2^62 + 1) or to a negative OFFSET the database refuses.
   */
  lemma OffsetOverflow()
    ensures var p := Pagination(0x4000_0000_0000_0001, 4);
      OffsetAsWritten(p) == 0 && Offset(p) == TwoTo64
    ensures var p := Pagination(0x4000_0000_0000_0001, 2);
      OffsetAsWritten(p) < 0
  {
  }

  /** For every page size of at most 100, the two offsets agree up to page 2^56. */
  lemma OffsetAsWrittenAgreesForSmallPages(p: Pagination)
    requires 1 <= p.page <= 0x100_0000_0000_0000 && 1 <= p.pageSize <= MaxLimit
    ensures OffsetAsWritten(p) == Offset(p)
  {
    MultiplyMonotonic(p.page - 1, p.pageSize, 0x100_0000_0000_0000, MaxLimit);
  }

  lemma MultiplyMonotonic(a: int, b: int, bigA: int, bigB: int)
    requires 0 <= a <= bigA && 0 <= b <= bigB
    ensures 0 <= a * b <= bigA * bigB
  {
    assert a * b <= a * bigB;
    assert a * bigB <= bigA * bigB;
  }

  /** LIMIT limit OFFSET offset over the rows in order. */
  function Page<T>(rows: seq<T>, offset: nat, limit: nat): (r: seq<T>)
    ensures |r| <= limit
    ensures offset >= |rows| ==> r == []
    ensures offset < |rows| ==> |r| == if offset + limit <= |rows| then limit else |rows| - offset
    ensures forall i | 0 <= i < |r| :: r[i] == rows[offset + i]
  {
    if offset >= |rows| then []
    else rows[offset..if offset + limit <= |rows| then offset + limit else |rows|]
  }

  /** Row k of a listing is entry k % s of page k / s + 1 for page size s. */
  lemma RowOnItsPage<T>(rows: seq<T>, k: nat, s: int)
    requires k < |rows| && s >= 1
    ensures var p := Pagination(k / s + 1, s);
      k % s < |Page(rows, Offset(p), s)| && Page(rows, Offset(p), s)[k % s] == rows[k]
  {
    var p := Pagination(k / s + 1, s);
    assert Offset(p) == (k / s) * s;
    assert Offset(p) + k % s == k;
  }

  /** An in-memory database: both tables, shared by the two repositories. */
  class Database {
    var tables: Tables

    constructor ()
      ensures tables == Tables([], []) && WellFormed(tables)
    {
      tables := Tables([], []);
    }
  }
}
