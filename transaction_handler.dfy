/**
  handlers/transaction_handler.go: the transaction endpoints under
  `/accounts/{accountId}/transactions`. As for accounts, a function per endpoint
  gives the response and the tables after it, and the handler methods are proved
  to write exactly that.
 */
module TransactionHandlers {
  import opened Wrappers
  import opened Models
  import opened Text
  import opened Http
  import opened Utils
  import opened Ledger
  import TransactionStore

  const TransactionsPathPrefix: string := "/accounts/"
  const TransactionsSegment: string := "transactions"

  const InvalidDateMessage: string := "invalid date (use RFC3339)"
  const TransactionTypeMessage: string := "type must be one of: income, expense"

  /** The two ids a transactions path names; "" for an id it does not name. */
  datatype PathIds = PathIds(accountId: string, transactionId: string)

  /**
    The checks on the pieces of SplitN(rest, "/", 3): an account id followed by
    the `transactions` segment, then a transaction id only when the third piece is
    non-empty and slash-free.
   */
  function IdsOfParts(parts: seq<string>): (ids: PathIds)
    requires 1 <= |parts| <= 3
    ensures ids.accountId == "" ==> ids.transactionId == ""
    ensures ids.accountId != "" ==> |parts| >= 2 && ids.accountId == parts[0] && parts[1] == TransactionsSegment
    ensures ids.accountId != "" && ids.transactionId == "" ==> |parts| == 2 || parts[2] == "" || '/' in parts[2]
    ensures ids.transactionId != "" ==> |parts| == 3 && ids.transactionId == parts[2] && '/' !in parts[2]
  {
    if |parts| < 2 || parts[0] == "" || parts[1] != TransactionsSegment then PathIds("", "")
    else if |parts| == 3 && parts[2] != "" && !Contains(parts[2], "/") then
      ContainsChar(parts[2], '/');
      PathIds(parts[0], parts[2])
    else if |parts| == 3 then
      ContainsChar(parts[2], '/');
      PathIds(parts[0], "")
    else PathIds(parts[0], "")
  }

  /** The ids named by the part of the path after `/accounts/`. */
  function IdsOfRest(rest: string): (ids: PathIds)
    ensures ids.accountId == "" ==> ids.transactionId == ""
    ensures ids.accountId != "" ==>
      '/' !in ids.accountId && HasPrefix(rest, ids.accountId + "/" + TransactionsSegment)
    ensures ids.accountId != "" ==>
      rest == ids.accountId + "/" + TransactionsSegment || HasPrefix(rest, ids.accountId + "/" + TransactionsSegment + "/")
    ensures ids.transactionId != "" ==>
      '/' !in ids.transactionId && rest == ids.accountId + "/" + TransactionsSegment + "/" + ids.transactionId
  {
    IdsOfRestSound(rest);
    IdsOfParts(SplitN(rest, '/', 3))
  }

  /** Joining the pieces back shows where the named ids sit in `rest`. */
  lemma IdsOfRestSound(rest: string)
    ensures var ids := IdsOfParts(SplitN(rest, '/', 3));
      && (ids.accountId != "" ==>
            '/' !in ids.accountId && HasPrefix(rest, ids.accountId + "/" + TransactionsSegment))
      && (ids.accountId != "" ==>
            rest == ids.accountId + "/" + TransactionsSegment || HasPrefix(rest, ids.accountId + "/" + TransactionsSegment + "/"))
      && (ids.transactionId != "" ==>
            rest == ids.accountId + "/" + TransactionsSegment + "/" + ids.transactionId)
  {
    IdsOfPartsSound(SplitN(rest, '/', 3), rest);
  }

  lemma IdsOfPartsSound(parts: seq<string>, rest: string)
    requires 1 <= |parts| <= 3 && Join(parts, '/') == rest
    requires forall i | 0 <= i < |parts| - 1 :: '/' !in parts[i]
    ensures var ids := IdsOfParts(parts);
      && (ids.accountId != "" ==>
            '/' !in ids.accountId && HasPrefix(rest, ids.accountId + "/" + TransactionsSegment))
      && (ids.accountId != "" ==>
            rest == ids.accountId + "/" + TransactionsSegment || HasPrefix(rest, ids.accountId + "/" + TransactionsSegment + "/"))
      && (ids.transactionId != "" ==>
            rest == ids.accountId + "/" + TransactionsSegment + "/" + ids.transactionId)
  {
    var ids := IdsOfParts(parts);
    if ids.accountId != "" {
      assert '/' !in parts[0];
      JoinedPieces(parts, rest, '/');
      if |parts| == 3 {
        PrefixOfConcat(parts[0] + "/" + parts[1] + "/", parts[2]);
      }
    }
  }

  /**
    accountIDAndTransactionIDFromPath: `/accounts/{a}/transactions` (with anything
    after a further slash) names account a; `/accounts/{a}/transactions/{t}` with a
    slash-free t also names transaction t; every other path names neither.
   */
  function PathIdsOf(path: string): (ids: PathIds)
    ensures ids.accountId == "" ==> ids.transactionId == ""
    ensures ids.accountId != "" ==>
      '/' !in ids.accountId && HasPrefix(path, TransactionsPathPrefix + ids.accountId + "/" + TransactionsSegment)
    ensures ids.accountId != "" ==>
      || path == TransactionsPathPrefix + ids.accountId + "/" + TransactionsSegment
      || HasPrefix(path, TransactionsPathPrefix + ids.accountId + "/" + TransactionsSegment + "/")
    ensures ids.transactionId != "" ==>
      '/' !in ids.transactionId &&
      path == TransactionsPathPrefix + ids.accountId + "/" + TransactionsSegment + "/" + ids.transactionId
  {
    if !HasPrefix(path, TransactionsPathPrefix) then PathIds("", "")
    else
      var rest := TrimPrefix(path, TransactionsPathPrefix);
      PathIdsOfSound(TransactionsPathPrefix, path, rest);
      IdsOfRest(rest)
  }

  /** What the rest names, the whole path names behind the prefix. */
  lemma PathIdsOfSound(prefix: string, path: string, rest: string)
    requires path == prefix + rest
    ensures var ids := IdsOfRest(rest);
      && (ids.accountId != "" ==>
            HasPrefix(path, prefix + ids.accountId + "/" + TransactionsSegment))
      && (ids.accountId != "" ==>
            || path == prefix + ids.accountId + "/" + TransactionsSegment
            || HasPrefix(path, prefix + ids.accountId + "/" + TransactionsSegment + "/"))
      && (ids.transactionId != "" ==>
            path == prefix + ids.accountId + "/" + TransactionsSegment + "/" + ids.transactionId)
  {
    var ids := IdsOfRest(rest);
    if ids.accountId != "" {
      PrefixedHead(prefix, rest, ids.accountId, TransactionsSegment);
      if rest == ids.accountId + "/" + TransactionsSegment {
        Regroup(prefix, ids.accountId, TransactionsSegment);
      } else {
        PrefixedConcat(prefix, rest, ids.accountId + "/" + TransactionsSegment + "/");
        RegroupTrailing(prefix, ids.accountId, TransactionsSegment);
      }
    }
    if ids.transactionId != "" {
      Regroup3(prefix, ids.accountId, TransactionsSegment, ids.transactionId);
    }
  }

  lemma PrefixedHead(prefix: string, rest: string, a: string, seg: string)
    requires HasPrefix(rest, a + "/" + seg)
    ensures HasPrefix(prefix + rest, prefix + a + "/" + seg)
  {
    PrefixedConcat(prefix, rest, a + "/" + seg);
    Regroup(prefix, a, seg);
  }

  lemma PrefixedConcat(prefix: string, rest: string, head: string)
    requires HasPrefix(rest, head)
    ensures HasPrefix(prefix + rest, prefix + head)
  {
    var tail := rest[|head|..];
    assert rest == head + tail;
    assert prefix + rest == (prefix + head) + tail;
    PrefixOfConcat(prefix + head, tail);
  }

  /** A path under `/accounts/` names what the rest of it names. */
  lemma PathIdsOfPrefixed(rest: string)
    ensures PathIdsOf(TransactionsPathPrefix + rest) == IdsOfRest(rest)
  {
    PrefixOfConcat(TransactionsPathPrefix, rest);
    assert (TransactionsPathPrefix + rest)[|TransactionsPathPrefix|..] == rest;
  }

  /** How SplitN cuts `{a}/transactions/{tail}`. */
  lemma SplitItem(a: string, tail: string)
    requires '/' !in a
    ensures SplitN(a + "/" + TransactionsSegment + "/" + tail, '/', 3) == [a, TransactionsSegment, tail]
  {
    SegmentHasNoSlash();
    SplitTwoThenRest(a, TransactionsSegment, tail, '/');
  }

  lemma SegmentHasNoSlash()
    ensures '/' !in TransactionsSegment
  {
  }

  /** `/accounts/{a}/transactions/{t}` names both ids, for any slash-free non-empty ids. */
  lemma PathIdsOfItem(a: string, x: string)
    requires a != "" && '/' !in a && x != "" && '/' !in x
    ensures PathIdsOf(TransactionsPathPrefix + a + "/" + TransactionsSegment + "/" + x) == PathIds(a, x)
  {
    Regroup3(TransactionsPathPrefix, a, TransactionsSegment, x);
    PathIdsOfPrefixed(a + "/" + TransactionsSegment + "/" + x);
    SplitItem(a, x);
    ContainsChar(x, '/');
  }

  /** The collection path, with or without a trailing slash, names the account only. */
  lemma PathIdsOfCollection(a: string)
    requires a != "" && '/' !in a
    ensures PathIdsOf(TransactionsPathPrefix + a + "/" + TransactionsSegment) == PathIds(a, "")
    ensures PathIdsOf(TransactionsPathPrefix + a + "/" + TransactionsSegment + "/") == PathIds(a, "")
  {
    Regroup(TransactionsPathPrefix, a, TransactionsSegment);
    PathIdsOfPrefixed(a + "/" + TransactionsSegment);
    SegmentHasNoSlash();
    SplitPair(a, TransactionsSegment, '/', 3);
    PathIdsOfSlashed(a);
  }

  lemma PathIdsOfSlashed(a: string)
    requires a != "" && '/' !in a
    ensures PathIdsOf(TransactionsPathPrefix + a + "/" + TransactionsSegment + "/") == PathIds(a, "")
  {
    var rest := a + "/" + TransactionsSegment + "/";
    RegroupTrailing(TransactionsPathPrefix, a, TransactionsSegment);
    PathIdsOfPrefixed(rest);
    SplitItem(a, "");
    assert rest + "" == rest;
    assert !Contains("", "/");
  }

  /** A transaction id that would hold a slash is dropped, and the path names the account only. */
  lemma PathIdsOfDeeper(a: string, x: string, y: string)
    requires a != "" && '/' !in a
    ensures PathIdsOf(TransactionsPathPrefix + a + "/" + TransactionsSegment + "/" + x + "/" + y) == PathIds(a, "")
  {
    var tail := x + "/" + y;
    Regroup4(TransactionsPathPrefix, a, TransactionsSegment, x, y);
    PathIdsOfPrefixed(a + "/" + TransactionsSegment + "/" + tail);
    SplitItem(a, tail);
    assert tail[|x|] == '/';
    ContainsChar(tail, '/');
  }

  /**
    A second segment other than `transactions` names nothing, whether or not
    more segments follow it.
   */
  lemma PathIdsOfOtherSegment(a: string, b: string, tail: string)
    requires '/' !in a && '/' !in b && b != TransactionsSegment
    ensures PathIdsOf(TransactionsPathPrefix + a + "/" + b) == PathIds("", "")
    ensures PathIdsOf(TransactionsPathPrefix + a + "/" + b + "/" + tail) == PathIds("", "")
  {
    Regroup(TransactionsPathPrefix, a, b);
    PathIdsOfPrefixed(a + "/" + b);
    SplitPair(a, b, '/', 3);
    Regroup3(TransactionsPathPrefix, a, b, tail);
    PathIdsOfPrefixed(a + "/" + b + "/" + tail);
    SplitTwoThenRest(a, b, tail, '/');
  }

  /** Paths without the `transactions` segment after a non-empty account id name nothing. */
  lemma PathIdsOfOthers(a: string)
    requires '/' !in a
    ensures PathIdsOf("/accounts") == PathIds("", "")
    ensures PathIdsOf(TransactionsPathPrefix + a) == PathIds("", "")
    ensures PathIdsOf(TransactionsPathPrefix + "/" + TransactionsSegment) == PathIds("", "")
  {
    PathIdsOfPrefixed(a);
    SplitWithoutSeparator(a, '/', 3);
    PathIdsOfPrefixed("/" + TransactionsSegment);
    assert "/" + TransactionsSegment == "" + ['/'] + TransactionsSegment;
    SplitAtFirst("", TransactionsSegment, '/', 3);
  }

  /** ListTransactions: one transaction when the path names it, else a page of the account's. */
  function ListTransactionsReply(req: Request, t: Tables, driver: Driver): (r: Response)
    ensures req.httpMethod != MethodGet ==> r == Failure(StatusMethodNotAllowed, "method not allowed")
    ensures req.httpMethod == MethodGet && PathIdsOf(req.path).accountId == "" ==>
      r == Failure(StatusBadRequest, "invalid account ID in path")
    ensures r.Json? ==> r.status == StatusOK
  {
    if req.httpMethod != MethodGet then Failure(StatusMethodNotAllowed, "method not allowed")
    else
      var ids := PathIdsOf(req.path);
      if ids.accountId == "" then Failure(StatusBadRequest, "invalid account ID in path")
      else if ids.transactionId != "" then
        match TransactionStore.FetchResult(t, ids.accountId, ids.transactionId, driver)
        case Err(_) => Failure(StatusInternalServerError, "failed to get transaction")
        case Ok(None) => Failure(StatusNotFound, NotFoundText)
        case Ok(Some(x)) => Json(StatusOK, TransactionJson(x))
      else
        var p := ParsePagination(req.query);
        match TransactionStore.ListResult(t, ids.accountId, p.page, p.pageSize, driver)
        case Err(_) => Failure(StatusInternalServerError, "failed to list transactions")
        case Ok(listing) =>
          Json(StatusOK, TransactionPage(listing.rows.GetOr([]), listing.total, p.page, p.pageSize))
  }

  /** A path naming a transaction shows the row with both ids, or 404 when no row has them. */
  lemma ListTransactionsOne(req: Request, t: Tables, driver: Driver)
    requires req.httpMethod == MethodGet && PathIdsOf(req.path).transactionId != ""
    ensures var ids := PathIdsOf(req.path);
      ListTransactionsReply(req, t, driver) ==
        if Fault(driver, 0).Some? then Failure(StatusInternalServerError, "failed to get transaction")
        else match FindTransaction(t.transactions, ids.accountId, ids.transactionId)
          case None => Failure(StatusNotFound, NotFoundText)
          case Some(x) => Json(StatusOK, TransactionJson(x))
  {
  }

  /**
    The collection path shows the requested page of the account's transactions (in
    table order), how many it has, and the page and page size as parsed.
   */
  lemma ListTransactionsPage(req: Request, t: Tables, driver: Driver)
    requires req.httpMethod == MethodGet && PathIdsOf(req.path).accountId != ""
    requires PathIdsOf(req.path).transactionId == ""
    ensures var a := PathIdsOf(req.path).accountId;
      var p := ParsePagination(req.query);
      var rows := TransactionsOf(t, a);
      ListTransactionsReply(req, t, driver) ==
        if Fault(driver, 0).Some? || Fault(driver, 1).Some? then
          Failure(StatusInternalServerError, "failed to list transactions")
        else
          Json(StatusOK, TransactionPage(Page(rows, Offset(p), p.pageSize), |rows|, p.page, p.pageSize))
  {
    ClampKeepsParsedPagination(req.query);
  }

  /** The create body's checks, in order, and the record they give for account `accountId`. */
  function NewTransaction(accountId: string, body: Decoded<TransactionRequest>, parseDate: DateParser)
    : (r: Result<Transaction>)
    ensures r.Ok? <==>
      body.Decoded? && IsTransactionKind(body.value.kind) && body.value.date != ""
      && parseDate(body.value.date).Some?
    ensures body.InvalidJson? ==> r == Err("invalid JSON")
    ensures body.Decoded? && body.value.kind == "" ==> r == Err("type is required")
    ensures body.Decoded? && body.value.kind != "" && !IsTransactionKind(body.value.kind) ==>
      r == Err(TransactionTypeMessage)
    ensures body.Decoded? && IsTransactionKind(body.value.kind) && body.value.date == "" ==>
      r == Err("date is required")
    ensures (body.Decoded? && IsTransactionKind(body.value.kind) && body.value.date != ""
      && parseDate(body.value.date).None?) ==> r == Err(InvalidDateMessage)
    ensures r.Ok? ==> var req := body.value;
      r.value == Transaction("", accountId, req.amount, parseDate(req.date).value, req.description, req.kind)
  {
    match body
    case InvalidJson => Err("invalid JSON")
    case Decoded(req) =>
      if req.kind == "" then Err("type is required")
      else if !IsTransactionKind(req.kind) then Err(TransactionTypeMessage)
      else if req.date == "" then Err("date is required")
      else
        match parseDate(req.date)
        case None => Err(InvalidDateMessage)
        case Some(date) => Ok(Transaction("", accountId, req.amount, date, req.description, req.kind))
  }

  /** CreateTransaction */
  function CreateTransactionOutcome(req: Request, t: Tables, newId: string, driver: Driver, parseDate: DateParser)
    : (o: Outcome)
    ensures req.httpMethod != MethodPost ==> o == Outcome(Failure(StatusMethodNotAllowed, "method not allowed"), t)
    ensures req.httpMethod == MethodPost && (PathIdsOf(req.path).accountId == "" || PathIdsOf(req.path).transactionId != "") ==>
      o == Outcome(Failure(StatusBadRequest, "invalid path for create transaction"), t)
    ensures o.response.status != StatusCreated ==> o.tables == t
  {
    if req.httpMethod != MethodPost then Outcome(Failure(StatusMethodNotAllowed, "method not allowed"), t)
    else
      var ids := PathIdsOf(req.path);
      if ids.accountId == "" || ids.transactionId != "" then
        Outcome(Failure(StatusBadRequest, "invalid path for create transaction"), t)
      else
        match NewTransaction(ids.accountId, req.body.transaction, parseDate)
        case Err(message) => Outcome(Failure(StatusBadRequest, message), t)
        case Ok(x) =>
          match TransactionStore.CreateResult(t, x, newId, driver)
          case Err(_) => Outcome(Failure(StatusInternalServerError, "failed to create transaction"), t)
          case Ok(u) => Outcome(Json(StatusCreated, TransactionJson(x.(id := newId))), u)
  }

  /**
    A valid body on the collection path is a 201 showing the record with the
    generated id, appended to the table, when the account exists; an insert for an
    account that does not exist violates the foreign key and is a 500.
   */
  lemma CreateTransactionCreates(req: Request, t: Tables, newId: string, driver: Driver, parseDate: DateParser)
    requires req.httpMethod == MethodPost
    requires PathIdsOf(req.path).accountId != "" && PathIdsOf(req.path).transactionId == ""
    requires NewTransaction(PathIdsOf(req.path).accountId, req.body.transaction, parseDate).Ok?
    ensures var a := PathIdsOf(req.path).accountId;
      var x := NewTransaction(a, req.body.transaction, parseDate).value.(id := newId);
      var o := CreateTransactionOutcome(req, t, newId, driver, parseDate);
      if Fault(driver, 0).None? && newId !in TransactionIds(t) && a in AccountIds(t) then
        o == Outcome(Json(StatusCreated, TransactionJson(x)), t.(transactions := t.transactions + [x]))
      else
        o == Outcome(Failure(StatusInternalServerError, "failed to create transaction"), t)
  {
  }

  lemma CreateTransactionRejects(req: Request, t: Tables, newId: string, driver: Driver, parseDate: DateParser)
    requires req.httpMethod == MethodPost
    requires PathIdsOf(req.path).accountId != "" && PathIdsOf(req.path).transactionId == ""
    requires NewTransaction(PathIdsOf(req.path).accountId, req.body.transaction, parseDate).Err?
    ensures CreateTransactionOutcome(req, t, newId, driver, parseDate) ==
      Outcome(Failure(StatusBadRequest, NewTransaction(PathIdsOf(req.path).accountId, req.body.transaction, parseDate).error), t)
  {
  }

  lemma CreateTransactionWellFormed(req: Request, t: Tables, newId: string, driver: Driver, parseDate: DateParser)
    requires WellFormed(t)
    ensures WellFormed(CreateTransactionOutcome(req, t, newId, driver, parseDate).tables)
  {
    var ids := PathIdsOf(req.path);
    var x := NewTransaction(ids.accountId, req.body.transaction, parseDate);
    if x.Ok? {
      TransactionStore.CreateWellFormed(t, x.value, newId, driver);
    }
  }

  /** The patch's date is absent or parses. */
  predicate DateAccepted(patch: TransactionPatch, parseDate: DateParser) {
    patch.date.None? || parseDate(patch.date.value).Some?
  }

  /** The patch's type is absent or one of the two kinds. */
  predicate KindAccepted(patch: TransactionPatch) {
    patch.kind.None? || IsTransactionKind(patch.kind.value)
  }

  /**
    The partial update: each field the patch holds replaces the stored one, in the
    order amount, date, description, type; a date that does not parse or a type
    that is not a kind rejects the whole patch, the date first.
   */
  function ApplyPatch(x: Transaction, patch: TransactionPatch, parseDate: DateParser): (r: Result<Transaction>)
    ensures r.Ok? <==> DateAccepted(patch, parseDate) && KindAccepted(patch)
    ensures !DateAccepted(patch, parseDate) ==> r == Err(InvalidDateMessage)
    ensures DateAccepted(patch, parseDate) && !KindAccepted(patch) ==> r == Err(TransactionTypeMessage)
    ensures r.Ok? ==>
      && r.value.id == x.id && r.value.accountId == x.accountId
      && r.value.amount == patch.amount.GetOr(x.amount)
      && r.value.date == (if patch.date.Some? then parseDate(patch.date.value).value else x.date)
      && r.value.description == patch.description.GetOr(x.description)
      && r.value.kind == patch.kind.GetOr(x.kind)
  {
    var x := if patch.amount.Some? then x.(amount := patch.amount.value) else x;
    var date := if patch.date.Some? then parseDate(patch.date.value) else Some(x.date);
    if date.None? then Err(InvalidDateMessage)
    else
      var x := x.(date := date.value);
      var x := if patch.description.Some? then x.(description := patch.description.value) else x;
      if patch.kind.Some? && (patch.kind.value == "" || !IsTransactionKind(patch.kind.value)) then
        Err(TransactionTypeMessage)
      else if patch.kind.Some? then Ok(x.(kind := patch.kind.value))
      else Ok(x)
  }

  /** An empty patch keeps the record as it is. */
  lemma EmptyPatchKeeps(x: Transaction, parseDate: DateParser)
    ensures ApplyPatch(x, TransactionPatch(None, None, None, None), parseDate) == Ok(x)
  {
  }

  /** Applying an accepted patch a second time changes nothing more. */
  lemma PatchIdempotent(x: Transaction, patch: TransactionPatch, parseDate: DateParser)
    requires ApplyPatch(x, patch, parseDate).Ok?
    ensures var y := ApplyPatch(x, patch, parseDate).value; ApplyPatch(y, patch, parseDate) == Ok(y)
  {
  }

  /** A stored kind stays a kind: the merged record passes the repository's update checks. */
  lemma PatchKeepsKind(x: Transaction, patch: TransactionPatch, parseDate: DateParser)
    requires x.id != "" && x.accountId != "" && IsTransactionKind(x.kind)
    requires ApplyPatch(x, patch, parseDate).Ok?
    ensures TransactionStore.UpdateCheck(ApplyPatch(x, patch, parseDate).value).None?
  {
  }

  /**
    UpdateTransaction: path, JSON, the lookup (statement 0), the merge, then the
    repository's Update on the rest of the driver's script.
   */
  function UpdateTransactionOutcome(req: Request, t: Tables, driver: Driver, parseDate: DateParser): (o: Outcome)
    ensures req.httpMethod != MethodPut ==> o == Outcome(Failure(StatusMethodNotAllowed, "method not allowed"), t)
    ensures req.httpMethod == MethodPut && PathIdsOf(req.path).transactionId == "" ==>
      o == Outcome(Failure(StatusBadRequest, "invalid path for update transaction"), t)
    ensures o.response.status != StatusOK ==> o.tables == t
  {
    if req.httpMethod != MethodPut then Outcome(Failure(StatusMethodNotAllowed, "method not allowed"), t)
    else
      var ids := PathIdsOf(req.path);
      if ids.accountId == "" || ids.transactionId == "" then
        Outcome(Failure(StatusBadRequest, "invalid path for update transaction"), t)
      else if req.body.patch.InvalidJson? then Outcome(Failure(StatusBadRequest, "invalid JSON"), t)
      else
        match TransactionStore.FetchResult(t, ids.accountId, ids.transactionId, driver)
        case Err(_) => Outcome(Failure(StatusInternalServerError, "failed to get transaction"), t)
        case Ok(None) => Outcome(Failure(StatusNotFound, NotFoundText), t)
        case Ok(Some(existing)) => SaveMergedOutcome(t, existing, req.body.patch.value, Rest(driver, 1), parseDate)
  }

  /** The end of UpdateTransaction once the stored record is found: the merge, then the UPDATE. */
  function SaveMergedOutcome(t: Tables, existing: Transaction, patch: TransactionPatch, driver: Driver, parseDate: DateParser)
    : (o: Outcome)
    ensures ApplyPatch(existing, patch, parseDate).Err? ==>
      o == Outcome(Failure(StatusBadRequest, ApplyPatch(existing, patch, parseDate).error), t)
    ensures o.response.status == StatusOK <==>
      ApplyPatch(existing, patch, parseDate).Ok? && TransactionStore.UpdateResult(t, ApplyPatch(existing, patch, parseDate).value, driver).Ok?
    ensures o.response.status != StatusOK ==> o.tables == t
  {
    match ApplyPatch(existing, patch, parseDate)
    case Err(message) => Outcome(Failure(StatusBadRequest, message), t)
    case Ok(merged) =>
      match TransactionStore.UpdateResult(t, merged, driver)
      case Err(_) => Outcome(Failure(StatusInternalServerError, "failed to update transaction"), t)
      case Ok(u) => Outcome(Json(StatusOK, TransactionJson(merged)), u)
  }

  /** Updating a transaction no row has is a 404, and the patch is not looked at. */
  lemma UpdateTransactionMissing(req: Request, t: Tables, driver: Driver, parseDate: DateParser)
    requires req.httpMethod == MethodPut && PathIdsOf(req.path).transactionId != ""
    requires req.body.patch.Decoded? && Fault(driver, 0).None?
    requires forall x | x in t.transactions :: !Matches(x, PathIdsOf(req.path).accountId, PathIdsOf(req.path).transactionId)
    ensures UpdateTransactionOutcome(req, t, driver, parseDate) == Outcome(Failure(StatusNotFound, NotFoundText), t)
  {
  }

  /**
    On well-formed tables, an accepted patch on an existing transaction is a 200
    showing the merged record, and that record replaces the stored one; only a
    failure of the UPDATE statement makes it a 500.
   */
  lemma UpdateTransactionMerges(req: Request, t: Tables, driver: Driver, parseDate: DateParser)
    requires WellFormed(t)
    requires req.httpMethod == MethodPut && PathIdsOf(req.path).transactionId != ""
    requires req.body.patch.Decoded? && Fault(driver, 0).None?
    requires var ids := PathIdsOf(req.path);
      FindTransaction(t.transactions, ids.accountId, ids.transactionId).Some?
    requires var ids := PathIdsOf(req.path);
      ApplyPatch(FindTransaction(t.transactions, ids.accountId, ids.transactionId).value, req.body.patch.value, parseDate).Ok?
    ensures var ids := PathIdsOf(req.path);
      var merged := ApplyPatch(FindTransaction(t.transactions, ids.accountId, ids.transactionId).value,
                               req.body.patch.value, parseDate).value;
      var o := UpdateTransactionOutcome(req, t, driver, parseDate);
      if Fault(driver, 1).None? then
        o == Outcome(Json(StatusOK, TransactionJson(merged)), t.(transactions := SetTransaction(t.transactions, merged)))
      else
        o == Outcome(Failure(StatusInternalServerError, "failed to update transaction"), t)
  {
    var ids := PathIdsOf(req.path);
    var existing := FindTransaction(t.transactions, ids.accountId, ids.transactionId).value;
    var merged := ApplyPatch(existing, req.body.patch.value, parseDate).value;
    assert existing in t.transactions;
    PatchKeepsKind(existing, req.body.patch.value, parseDate);
    assert Fault(Rest(driver, 1), 0) == Fault(driver, 1);
    FilterKeepsMatch(t.transactions, existing, merged);
  }

  /** A row that matches the record's ids survives the WHERE filter. */
  lemma FilterKeepsMatch(rows: seq<Transaction>, existing: Transaction, merged: Transaction)
    requires existing in rows && Matches(existing, merged.accountId, merged.id)
    ensures |Filter(rows, (y: Transaction) => Matches(y, merged.accountId, merged.id))| > 0
  {
    var r := Filter(rows, (y: Transaction) => Matches(y, merged.accountId, merged.id));
    assert existing in r;
  }

  lemma UpdateTransactionWellFormed(req: Request, t: Tables, driver: Driver, parseDate: DateParser)
    requires WellFormed(t)
    ensures WellFormed(UpdateTransactionOutcome(req, t, driver, parseDate).tables)
  {
    var o := UpdateTransactionOutcome(req, t, driver, parseDate);
    if o.tables != t {
      var ids := PathIdsOf(req.path);
      var existing := TransactionStore.FetchResult(t, ids.accountId, ids.transactionId, driver).value.value;
      var merged := ApplyPatch(existing, req.body.patch.value, parseDate).value;
      TransactionStore.UpdateWellFormed(t, merged, Rest(driver, 1));
    }
  }

  /** DeleteTransaction: a repository error whose text says "not found" becomes a 404. */
  function DeleteTransactionOutcome(req: Request, t: Tables, driver: Driver): (o: Outcome)
    ensures req.httpMethod != MethodDelete ==> o == Outcome(Failure(StatusMethodNotAllowed, "method not allowed"), t)
    ensures req.httpMethod == MethodDelete && PathIdsOf(req.path).transactionId == "" ==>
      o == Outcome(Failure(StatusBadRequest, "invalid path for delete transaction"), t)
    ensures o.response.status != StatusOK ==> o.tables == t
  {
    if req.httpMethod != MethodDelete then Outcome(Failure(StatusMethodNotAllowed, "method not allowed"), t)
    else
      var ids := PathIdsOf(req.path);
      if ids.accountId == "" || ids.transactionId == "" then
        Outcome(Failure(StatusBadRequest, "invalid path for delete transaction"), t)
      else
        match TransactionStore.DeleteResult(t, ids.accountId, ids.transactionId, driver)
        case Err(e) =>
          if Contains(e, "not found") then Outcome(Failure(StatusNotFound, NotFoundText), t)
          else Outcome(Failure(StatusInternalServerError, "failed to delete transaction"), t)
        case Ok(u) => Outcome(Json(StatusOK, Message("transaction deleted")), u)
  }

  /** Deleting a transaction no row has is a 404. */
  lemma DeleteTransactionMissing(req: Request, t: Tables, driver: Driver)
    requires req.httpMethod == MethodDelete && PathIdsOf(req.path).transactionId != ""
    requires Fault(driver, 0).None?
    requires forall x | x in t.transactions :: !Matches(x, PathIdsOf(req.path).accountId, PathIdsOf(req.path).transactionId)
    ensures DeleteTransactionOutcome(req, t, driver) == Outcome(Failure(StatusNotFound, NotFoundText), t)
  {
    var ids := PathIdsOf(req.path);
    TransactionStore.DeleteMissing(t, ids.accountId, ids.transactionId, driver);
    NotFoundErrorSaysNotFound();
  }

  /** The repository's missing-row error is the one the handler turns into a 404. */
  lemma NotFoundErrorSaysNotFound()
    ensures Contains(TransactionStore.NotFoundError, "not found")
  {
    assert TransactionStore.NotFoundError == "transaction " + "not found" + "";
    ContainsInfix("transaction ", "not found", "");
  }

  /** Deleting an existing transaction removes exactly the rows with both ids. */
  lemma DeleteTransactionRemoves(req: Request, t: Tables, driver: Driver)
    requires req.httpMethod == MethodDelete && PathIdsOf(req.path).transactionId != ""
    requires Fault(driver, 0).None?
    requires exists x | x in t.transactions :: Matches(x, PathIdsOf(req.path).accountId, PathIdsOf(req.path).transactionId)
    ensures var ids := PathIdsOf(req.path);
      DeleteTransactionOutcome(req, t, driver) ==
        Outcome(Json(StatusOK, Message("transaction deleted")), DeleteTransactionRows(t, ids.accountId, ids.transactionId))
  {
    var ids := PathIdsOf(req.path);
    var x :| x in t.transactions && Matches(x, ids.accountId, ids.transactionId);
    var r := Filter(t.transactions, (y: Transaction) => Matches(y, ids.accountId, ids.transactionId));
    assert x in r;
  }

  lemma DeleteTransactionWellFormed(req: Request, t: Tables, driver: Driver)
    requires WellFormed(t)
    ensures WellFormed(DeleteTransactionOutcome(req, t, driver).tables)
  {
    var ids := PathIdsOf(req.path);
    TransactionStore.DeleteWellFormed(t, ids.accountId, ids.transactionId, driver);
  }

  class TransactionHandler {
    const repo: TransactionStore.TransactionRepository
    /** utils.ParseDate (time.Parse with the RFC 3339 layout). */
    const parseDate: DateParser

    constructor (repo: TransactionStore.TransactionRepository, parseDate: DateParser)
      ensures this.repo == repo && this.parseDate == parseDate
    {
      this.repo := repo;
      this.parseDate := parseDate;
    }

    method ListTransactions(w: ResponseRecorder, req: Request, driver: Driver)
      requires w.Unwritten()
      modifies w
      ensures w.Shows(ListTransactionsReply(req, repo.pool.tables, driver))
    {
      if req.httpMethod != MethodGet {
        Error(w, "method not allowed", StatusMethodNotAllowed);
        return;
      }
      var ids := PathIdsOf(req.path);
      if ids.accountId == "" {
        Error(w, "invalid account ID in path", StatusBadRequest);
        return;
      }
      if ids.transactionId != "" {
        var found := repo.GetByID(ids.accountId, ids.transactionId, driver);
        if found.Err? {
          Error(w, "failed to get transaction", StatusInternalServerError);
          return;
        }
        if found.value.None? {
          NotFound(w);
          return;
        }
        WriteJSON(w, StatusOK, TransactionJson(found.value.value));
        return;
      }
      var p := ParsePagination(req.query);
      var listed := repo.GetByAccountID(ids.accountId, p.page, p.pageSize, driver);
      if listed.Err? {
        Error(w, "failed to list transactions", StatusInternalServerError);
        return;
      }
      var list := listed.value.rows;
      if list.None? {
        list := Some([]);
      }
      WriteJSON(w, StatusOK, TransactionPage(list.value, listed.value.total, p.page, p.pageSize));
    }

    method CreateTransaction(w: ResponseRecorder, req: Request, newId: string, driver: Driver)
      requires w.Unwritten()
      modifies w, repo.pool
      ensures var o := CreateTransactionOutcome(req, old(repo.pool.tables), newId, driver, parseDate);
        w.Shows(o.response) && repo.pool.tables == o.tables
    {
      if req.httpMethod != MethodPost {
        Error(w, "method not allowed", StatusMethodNotAllowed);
        return;
      }
      var ids := PathIdsOf(req.path);
      if ids.accountId == "" || ids.transactionId != "" {
        Error(w, "invalid path for create transaction", StatusBadRequest);
        return;
      }
      if req.body.transaction.InvalidJson? {
        Error(w, "invalid JSON", StatusBadRequest);
        return;
      }
      var body := req.body.transaction.value;
      if body.kind == "" {
        Error(w, "type is required", StatusBadRequest);
        return;
      }
      if !IsTransactionKind(body.kind) {
        Error(w, TransactionTypeMessage, StatusBadRequest);
        return;
      }
      if body.date == "" {
        Error(w, "date is required", StatusBadRequest);
        return;
      }
      var date := parseDate(body.date);
      if date.None? {
        Error(w, InvalidDateMessage, StatusBadRequest);
        return;
      }
      var x := Transaction("", ids.accountId, body.amount, date.value, body.description, body.kind);
      var err;
      x, err := repo.Create(x, newId, driver);
      if err.Some? {
        Error(w, "failed to create transaction", StatusInternalServerError);
        return;
      }
      WriteJSON(w, StatusCreated, TransactionJson(x));
    }

    method UpdateTransaction(w: ResponseRecorder, req: Request, driver: Driver)
      requires w.Unwritten()
      modifies w, repo.pool
      ensures var o := UpdateTransactionOutcome(req, old(repo.pool.tables), driver, parseDate);
        w.Shows(o.response) && repo.pool.tables == o.tables
    {
      if req.httpMethod != MethodPut {
        Error(w, "method not allowed", StatusMethodNotAllowed);
        return;
      }
      var ids := PathIdsOf(req.path);
      if ids.accountId == "" || ids.transactionId == "" {
        Error(w, "invalid path for update transaction", StatusBadRequest);
        return;
      }
      if req.body.patch.InvalidJson? {
        Error(w, "invalid JSON", StatusBadRequest);
        return;
      }
      var found := repo.GetByID(ids.accountId, ids.transactionId, driver);
      if found.Err? {
        Error(w, "failed to get transaction", StatusInternalServerError);
        return;
      }
      if found.value.None? {
        NotFound(w);
        return;
      }
      SaveMerged(w, found.value.value, req.body.patch.value, Rest(driver, 1));
    }

    /** Lines 176-201 of the handler: merge the patch into the stored record and save it. */
    method SaveMerged(w: ResponseRecorder, existing: Transaction, patch: TransactionPatch, driver: Driver)
      requires w.Unwritten()
      modifies w, repo.pool
      ensures var o := SaveMergedOutcome(old(repo.pool.tables), existing, patch, driver, parseDate);
        w.Shows(o.response) && repo.pool.tables == o.tables
    {
      var merged := existing;
      if patch.amount.Some? {
        merged := merged.(amount := patch.amount.value);
      }
      if patch.date.Some? {
        var date := parseDate(patch.date.value);
        if date.None? {
          Error(w, InvalidDateMessage, StatusBadRequest);
          return;
        }
        merged := merged.(date := date.value);
      }
      if patch.description.Some? {
        merged := merged.(description := patch.description.value);
      }
      if patch.kind.Some? {
        if patch.kind.value == "" || !IsTransactionKind(patch.kind.value) {
          Error(w, TransactionTypeMessage, StatusBadRequest);
          return;
        }
        merged := merged.(kind := patch.kind.value);
      }
      assert ApplyPatch(existing, patch, parseDate) == Ok(merged);
      var err := repo.Update(merged, driver);
      if err.Some? {
        Error(w, "failed to update transaction", StatusInternalServerError);
        return;
      }
      WriteJSON(w, StatusOK, TransactionJson(merged));
    }

    method DeleteTransaction(w: ResponseRecorder, req: Request, driver: Driver)
      requires w.Unwritten()
      modifies w, repo.pool
      ensures var o := DeleteTransactionOutcome(req, old(repo.pool.tables), driver);
        w.Shows(o.response) && repo.pool.tables == o.tables
    {
      if req.httpMethod != MethodDelete {
        Error(w, "method not allowed", StatusMethodNotAllowed);
        return;
      }
      var ids := PathIdsOf(req.path);
      if ids.accountId == "" || ids.transactionId == "" {
        Error(w, "invalid path for delete transaction", StatusBadRequest);
        return;
      }
      var err := repo.Delete(ids.accountId, ids.transactionId, driver);
      if err.Some? {
        if Contains(err.value, "not found") {
          NotFound(w);
          return;
        }
        Error(w, "failed to delete transaction", StatusInternalServerError);
        return;
      }
      WriteJSON(w, StatusOK, Message("transaction deleted"));
    }
  }
}
