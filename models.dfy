/**
  The ledger's records (api/models/account.go) and the request bodies the handlers
  decode them from. Field `Type` of the source is called `kind` here.
 */
module Models {
  import opened Wrappers

  /** The source's float64 amount. It is only ever copied, so an integer stands for it. */
  type Amount = int

  /** A time.Time, as nanoseconds since the Unix epoch. */
  datatype Instant = Instant(unixNano: int)

  datatype Account = Account(id: string, name: string, kind: string)

  datatype Transaction = Transaction(
    id: string,
    accountId: string,
    amount: Amount,
    date: Instant,
    description: string,
    kind: string)

  /** The body of account create and update requests; an absent field decodes to "". */
  datatype AccountRequest = AccountRequest(name: string, kind: string)

  /** The body of a transaction create request; an absent field decodes to its zero value. */
  datatype TransactionRequest = TransactionRequest(
    amount: Amount,
    date: string,
    description: string,
    kind: string)

  /** The body of a transaction update request: each field is present (non-nil) or not. */
  datatype TransactionPatch = TransactionPatch(
    amount: Option<Amount>,
    date: Option<string>,
    description: Option<string>,
    kind: Option<string>)
}
