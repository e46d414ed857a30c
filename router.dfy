/**
  The router of both entry points (netlify/functions/api/main.go and its copy in
  api/netlify/functions/api/main.go): placeholder path patterns, the first-match
  dispatch loop with its 404/405 rule, and the route table.
 */
module Router {
  import opened Text
  import opened Http

  const AccountsPrefix: string := "/accounts/"
  const HealthPattern: string := "/"
  const AccountsPattern: string := "/accounts"
  const Segment: string := "transactions"
  const IdPlaceholder: string := ":id"
  const TxIdPlaceholder: string := ":txId"

  /** `/accounts/:id`, `/accounts/:id/transactions` and `/accounts/:id/transactions/:txId`, written by their pieces. */
  const AccountPattern: string := AccountsPrefix + IdPlaceholder
  const TransactionsPattern: string := AccountsPrefix + IdPlaceholder + "/" + Segment
  const TransactionPattern: string := AccountsPrefix + IdPlaceholder + "/" + Segment + "/" + TxIdPlaceholder

  /** The handler a route leads to. */
  datatype Endpoint =
    | Health
    | ListAccounts | CreateAccount | UpdateAccount | DeleteAccount
    | ListTransactions | CreateTransaction | UpdateTransaction | DeleteTransaction

  datatype Route = Route(verb: string, pattern: string, endpoint: Endpoint)

  predicate IsPlaceholderPattern(pattern: string) {
    pattern == AccountPattern || pattern == TransactionsPattern || pattern == TransactionPattern
  }

  /** The pieces of SplitN of what follows `/accounts/`, as pathMatches computes them. */
  function Segments(requestPath: string): (parts: seq<string>)
    requires HasPrefix(requestPath, AccountsPrefix)
    ensures 1 <= |parts| <= 4
  {
    SplitN(requestPath[|AccountsPrefix|..], '/', 4)
  }

  /**
    pathMatches: equal strings always match; otherwise only the three placeholder
    patterns match, and only paths under `/accounts/` with one, two or three
    pieces of the right shape.
   */
  function PathMatches(routePath: string, requestPath: string): (b: bool)
    ensures routePath == requestPath ==> b
    ensures !HasPrefix(requestPath, AccountsPrefix) ==> (b <==> routePath == requestPath)
    ensures !IsPlaceholderPattern(routePath) ==> (b <==> routePath == requestPath)
  {
    if routePath == requestPath then true
    else if !HasPrefix(requestPath, AccountsPrefix) then false
    else
      var parts := Segments(requestPath);
      if routePath == AccountPattern then |parts| == 1 && parts[0] != ""
      else if routePath == TransactionsPattern then |parts| == 2 && parts[0] != "" && parts[1] == Segment
      else if routePath == TransactionPattern then
        |parts| == 3 && parts[0] != "" && parts[1] == Segment && parts[2] != ""
      else false
  }

  lemma SegmentHasNoSlash()
    ensures '/' !in Segment
  {
  }

  /** The text after `/accounts/` of a path built from it. */
  lemma AfterPrefix(rest: string)
    ensures HasPrefix(AccountsPrefix + rest, AccountsPrefix)
    ensures (AccountsPrefix + rest)[|AccountsPrefix|..] == rest
  {
    PrefixOfConcat(AccountsPrefix, rest);
  }

  lemma SplitOne(x: string)
    requires '/' !in x
    ensures SplitN(x, '/', 4) == [x]
  {
    SplitWithoutSeparator(x, '/', 4);
  }

  lemma SplitTwo(x: string)
    requires '/' !in x
    ensures SplitN(x + "/" + Segment, '/', 4) == [x, Segment]
  {
    assert x + "/" + Segment == x + ['/'] + Segment;
    SplitAtFirst(x, Segment, '/', 4);
    SegmentHasNoSlash();
    SplitWithoutSeparator(Segment, '/', 3);
    assert [x] + [Segment] == [x, Segment];
  }

  lemma SplitThree(x: string, y: string)
    requires '/' !in x && '/' !in y
    ensures SplitN(x + "/" + Segment + "/" + y, '/', 4) == [x, Segment, y]
  {
    var b := Segment + ['/'] + y;
    assert x + "/" + Segment + "/" + y == x + ['/'] + b;
    SplitAtFirst(x, b, '/', 4);
    SegmentHasNoSlash();
    SplitAtFirst(Segment, y, '/', 3);
    SplitWithoutSeparator(y, '/', 2);
    assert [x] + ([Segment] + [y]) == [x, Segment, y];
  }

  /** `/accounts/:id` matches `/accounts/X` for every non-empty slash-free X ... */
  lemma AccountPatternMatches(x: string)
    requires x != "" && '/' !in x
    ensures PathMatches(AccountPattern, AccountsPrefix + x)
  {
    AfterPrefix(x);
    SplitOne(x);
  }

  /** ... and nothing else. */
  lemma AccountPatternOnly(p: string)
    requires PathMatches(AccountPattern, p)
    ensures HasPrefix(p, AccountsPrefix)
    ensures var x := p[|AccountsPrefix|..]; p == AccountsPrefix + x && x != "" && '/' !in x
  {
    var rest := p[|AccountsPrefix|..];
    assert p == AccountsPrefix + rest;
    var parts := Segments(p);
    assert parts == [parts[0]];
    assert Join(parts, '/') == parts[0];
  }

  /** `/accounts/:id/transactions` matches `/accounts/X/transactions` for every non-empty slash-free X ... */
  lemma TransactionsPatternMatches(x: string)
    requires x != "" && '/' !in x
    ensures PathMatches(TransactionsPattern, AccountsPrefix + x + "/" + Segment)
  {
    CollectionSegments(x);
  }

  /** The pieces of `/accounts/X/transactions`. */
  lemma CollectionSegments(x: string)
    requires '/' !in x
    ensures var path := AccountsPrefix + x + "/" + Segment;
      HasPrefix(path, AccountsPrefix) && Segments(path) == [x, Segment]
  {
    var rest := x + "/" + Segment;
    Regroup(AccountsPrefix, x, Segment);
    AfterPrefix(rest);
    SplitTwo(x);
  }

  /** The literal pattern, taken as a path, has the two pieces of its own pattern. */
  lemma LiteralTransactionsPattern()
    ensures HasPrefix(TransactionsPattern, AccountsPrefix)
    ensures Segments(TransactionsPattern) == [IdPlaceholder, Segment]
  {
    CollectionSegments(IdPlaceholder);
  }

  lemma LiteralAccountPattern()
    ensures HasPrefix(AccountPattern, AccountsPrefix)
    ensures Segments(AccountPattern) == [IdPlaceholder]
  {
    AfterPrefix(IdPlaceholder);
    SplitOne(IdPlaceholder);
  }

  /** A path split into two pieces is the two pieces joined by a slash. */
  lemma TwoPieces(rest: string)
    requires |SplitN(rest, '/', 4)| == 2
    ensures var parts := SplitN(rest, '/', 4); '/' !in parts[0] && rest == parts[0] + "/" + parts[1]
  {
    var parts := SplitN(rest, '/', 4);
    assert parts == [parts[0], parts[1]];
    Join2(parts[0], parts[1], '/');
  }

  /** ... and nothing else. */
  lemma TransactionsPatternOnly(p: string)
    requires PathMatches(TransactionsPattern, p)
    ensures HasPrefix(p, AccountsPrefix)
    ensures var x := Segments(p)[0]; x != "" && '/' !in x && p == AccountsPrefix + x + "/" + Segment
  {
    if p == TransactionsPattern {
      LiteralTransactionsPattern();
      Regroup(AccountsPrefix, Segments(p)[0], Segment);
    } else {
      var rest := p[|AccountsPrefix|..];
      assert p == AccountsPrefix + rest;
      var parts := Segments(p);
      assert |parts| == 2 && parts[0] != "" && parts[1] == Segment;
      TwoPieces(rest);
      assert p == AccountsPrefix + (parts[0] + "/" + Segment);
      Regroup(AccountsPrefix, parts[0], Segment);
    }
  }

  /**
    `/accounts/:id/transactions/:txId` matches `/accounts/X/transactions/Y` for all
    non-empty slash-free X and Y ...
   */
  lemma TransactionPatternMatches(x: string, y: string)
    requires x != "" && '/' !in x && y != "" && '/' !in y
    ensures PathMatches(TransactionPattern, AccountsPrefix + x + "/" + Segment + "/" + y)
  {
    ItemSegments(x, y);
  }

  /** The pieces of `/accounts/X/transactions/Y`. */
  lemma ItemSegments(x: string, y: string)
    requires '/' !in x && '/' !in y
    ensures var path := AccountsPrefix + x + "/" + Segment + "/" + y;
      HasPrefix(path, AccountsPrefix) && Segments(path) == [x, Segment, y]
  {
    var rest := x + "/" + Segment + "/" + y;
    Regroup3(AccountsPrefix, x, Segment, y);
    AfterPrefix(rest);
    SplitThree(x, y);
  }

  lemma LiteralTransactionPattern()
    ensures HasPrefix(TransactionPattern, AccountsPrefix)
    ensures Segments(TransactionPattern) == [IdPlaceholder, Segment, TxIdPlaceholder]
  {
    ItemSegments(IdPlaceholder, TxIdPlaceholder);
  }

  lemma ThreePieces(rest: string)
    requires |SplitN(rest, '/', 4)| == 3
    ensures var parts := SplitN(rest, '/', 4);
      '/' !in parts[0] && '/' !in parts[2] && rest == parts[0] + "/" + parts[1] + "/" + parts[2]
  {
    var parts := SplitN(rest, '/', 4);
    assert parts == [parts[0], parts[1], parts[2]];
    Join3(parts[0], parts[1], parts[2], '/');
  }

  /** ... and nothing else, besides the pattern string itself. */
  lemma TransactionPatternOnly(p: string)
    requires PathMatches(TransactionPattern, p) && p != TransactionPattern
    ensures HasPrefix(p, AccountsPrefix)
    ensures var x, y := Segments(p)[0], Segments(p)[2];
      x != "" && '/' !in x && y != "" && '/' !in y && p == AccountsPrefix + x + "/" + Segment + "/" + y
  {
    var rest := p[|AccountsPrefix|..];
    assert p == AccountsPrefix + rest;
    var parts := Segments(p);
    assert |parts| == 3 && parts[0] != "" && parts[1] == Segment && parts[2] != "";
    ThreePieces(rest);
    assert p == AccountsPrefix + (parts[0] + "/" + Segment + "/" + parts[2]);
    Regroup3(AccountsPrefix, parts[0], Segment, parts[2]);
  }

  /** The number of pieces a matching path has: one, two or three, one per pattern. */
  lemma MatchedPieces(pattern: string, p: string)
    requires IsPlaceholderPattern(pattern) && PathMatches(pattern, p)
    ensures HasPrefix(p, AccountsPrefix)
    ensures |Segments(p)| == if pattern == AccountPattern then 1 else if pattern == TransactionsPattern then 2 else 3
  {
    if p == AccountPattern {
      LiteralAccountPattern();
    } else if p == TransactionsPattern {
      LiteralTransactionsPattern();
    } else if p == TransactionPattern {
      LiteralTransactionPattern();
    }
  }

  /**
    No request path matches two different patterns: the literal patterns match
    only themselves, and the placeholder patterns need different piece counts
    (which a literal placeholder pattern has as well).
   */
  lemma PatternsExclusive(a: string, b: string, p: string)
    requires a != b && PathMatches(a, p)
    requires IsPlaceholderPattern(a) || !HasPrefix(a, AccountsPrefix)
    requires IsPlaceholderPattern(b) || !HasPrefix(b, AccountsPrefix)
    ensures !PathMatches(b, p)
  {
    if PathMatches(b, p) {
      if IsPlaceholderPattern(a) && IsPlaceholderPattern(b) {
        MatchedPieces(a, p);
        MatchedPieces(b, p);
      } else if IsPlaceholderPattern(a) {
        MatchedPieces(a, p);
      } else {
        MatchedPieces(b, p);
      }
    }
  }

  /** What the dispatch loop decides. */
  datatype Decision = Serve(endpoint: Endpoint) | NoMethod | NoPath

  predicate Serves(r: Route, verb: string, path: string) {
    PathMatches(r.pattern, path) && r.verb == verb
  }

  /** newRouter's decision: the first route serving the request, else 405 once a pattern matched, else 404. */
  function Resolve(routes: seq<Route>, verb: string, path: string): (d: Decision)
    ensures routes == [] ==> d == NoPath
    decreases |routes|
  {
    if routes == [] then NoPath
    else if Serves(routes[0], verb, path) then Serve(routes[0].endpoint)
    else
      var rest := Resolve(routes[1..], verb, path);
      if rest.NoPath? && PathMatches(routes[0].pattern, path) then NoMethod else rest
  }

  /**
    The route serving a request is the first, in table order, whose pattern matches
    the path and whose method is the request's; the answer is 405 exactly when some
    pattern matched but no route served, and 404 exactly when no pattern matched.
   */
  lemma {:induction false} ResolveMeaning(routes: seq<Route>, verb: string, path: string)
    ensures var d := Resolve(routes, verb, path);
      && (d.NoPath? <==> forall i | 0 <= i < |routes| :: !PathMatches(routes[i].pattern, path))
      && (d.NoMethod? <==>
            (exists i | 0 <= i < |routes| :: PathMatches(routes[i].pattern, path))
            && forall i | 0 <= i < |routes| :: !Serves(routes[i], verb, path))
      && (d.Serve? ==> exists i | 0 <= i < |routes| ::
            Serves(routes[i], verb, path) && routes[i].endpoint == d.endpoint
            && forall j | 0 <= j < i :: !Serves(routes[j], verb, path))
    decreases |routes|
  {
    if routes != [] {
      if Serves(routes[0], verb, path) {
        assert Serves(routes[0], verb, path) && routes[0].endpoint == Resolve(routes, verb, path).endpoint;
      } else {
        var tail := routes[1..];
        ResolveMeaning(tail, verb, path);
        assert forall i | 1 <= i < |routes| :: routes[i] == tail[i - 1];
        var rest := Resolve(tail, verb, path);
        if rest.Serve? {
          var k :| 0 <= k < |tail| && Serves(tail[k], verb, path) && tail[k].endpoint == rest.endpoint
            && forall j | 0 <= j < k :: !Serves(tail[j], verb, path);
          assert Serves(routes[k + 1], verb, path) && forall j | 0 <= j < k + 1 :: !Serves(routes[j], verb, path);
        } else if PathMatches(routes[0].pattern, path) {
          assert PathMatches(routes[0].pattern, path);
        } else if rest.NoMethod? {
          var k :| 0 <= k < |tail| && PathMatches(tail[k].pattern, path);
          assert PathMatches(routes[k + 1].pattern, path);
        }
      }
    }
  }

  /** A route serving the request with none serving it before decides the request. */
  lemma {:induction false} ResolveFirst(routes: seq<Route>, i: nat, verb: string, path: string)
    requires i < |routes| && Serves(routes[i], verb, path)
    requires forall j | 0 <= j < i :: !Serves(routes[j], verb, path)
    ensures Resolve(routes, verb, path) == Serve(routes[i].endpoint)
    decreases i
  {
    if i > 0 {
      assert routes[1..][i - 1] == routes[i];
      assert forall j | 0 <= j < i - 1 :: routes[1..][j] == routes[j + 1];
      ResolveFirst(routes[1..], i - 1, verb, path);
    }
  }

  /** The loop's decision from the routes after the first `i`, given whether a pattern already matched. */
  function Continue(pathMatched: bool, d: Decision): Decision {
    if pathMatched && d.NoPath? then NoMethod else d
  }

  /** One step of dispatch over a non-empty table. */
  lemma ResolveStep(routes: seq<Route>, verb: string, path: string, pathMatched: bool)
    requires routes != [] && !Serves(routes[0], verb, path)
    ensures Continue(pathMatched, Resolve(routes, verb, path)) ==
      Continue(pathMatched || PathMatches(routes[0].pattern, path), Resolve(routes[1..], verb, path))
  {
  }

  /** The loop of newRouter's handler, returning its decision instead of serving it. */
  method Dispatch(routes: seq<Route>, verb: string, path: string) returns (d: Decision)
    ensures d == Resolve(routes, verb, path)
  {
    var pathMatched := false;
    var i := 0;
    while i < |routes|
      invariant 0 <= i <= |routes|
      invariant Resolve(routes, verb, path) == Continue(pathMatched, Resolve(routes[i..], verb, path))
    {
      var ro := routes[i];
      if !PathMatches(ro.pattern, path) {
        ResolveStep(routes[i..], verb, path, pathMatched);
        assert routes[i..][1..] == routes[i + 1..];
        i := i + 1;
        continue;
      }
      pathMatched := true;
      if ro.verb == verb {
        return Serve(ro.endpoint);
      }
      ResolveStep(routes[i..], verb, path, pathMatched);
      assert routes[i..][1..] == routes[i + 1..];
      i := i + 1;
    }
    if pathMatched {
      return NoMethod;
    }
    return NoPath;
  }

  /** Two adjacent routes whose patterns do not both match the path can trade places. */
  lemma SwapAdjacent(routes: seq<Route>, i: nat, verb: string, path: string)
    requires i + 1 < |routes|
    requires !(PathMatches(routes[i].pattern, path) && PathMatches(routes[i + 1].pattern, path))
    ensures Resolve(routes[..i] + [routes[i + 1], routes[i]] + routes[i + 2..], verb, path) == Resolve(routes, verb, path)
  {
    var swapped := routes[..i] + [routes[i + 1], routes[i]] + routes[i + 2..];
    var tail := routes[i..];
    var swappedTail := [routes[i + 1], routes[i]] + routes[i + 2..];
    assert tail == [routes[i], routes[i + 1]] + routes[i + 2..];
    assert tail[1..][1..] == routes[i + 2..];
    assert swappedTail[1..][1..] == routes[i + 2..];
    assert Resolve(swappedTail, verb, path) == Resolve(tail, verb, path);
    assert routes == routes[..i] + tail;
    assert swapped == routes[..i] + swappedTail;
    ResolveSamePrefix(routes[..i], tail, swappedTail, verb, path);
  }

  /** Dispatch through a common prefix depends on the rest only through its decision. */
  lemma {:induction false} ResolveSamePrefix(prefix: seq<Route>, xs: seq<Route>, ys: seq<Route>, verb: string, path: string)
    requires Resolve(xs, verb, path) == Resolve(ys, verb, path)
    ensures Resolve(prefix + xs, verb, path) == Resolve(prefix + ys, verb, path)
    decreases |prefix|
  {
    if prefix == [] {
      assert prefix + xs == xs && prefix + ys == ys;
    } else {
      assert (prefix + xs)[0] == prefix[0] && (prefix + ys)[0] == prefix[0];
      assert (prefix + xs)[1..] == prefix[1..] + xs;
      assert (prefix + ys)[1..] == prefix[1..] + ys;
      ResolveSamePrefix(prefix[1..], xs, ys, verb, path);
    }
  }

  /** The table both entry points register, more specific transaction paths first. */
  const Routes: seq<Route> := [
    Route(MethodGet, HealthPattern, Health),
    Route(MethodGet, AccountsPattern, ListAccounts),
    Route(MethodPost, AccountsPattern, CreateAccount),
    Route(MethodPut, AccountPattern, UpdateAccount),
    Route(MethodDelete, AccountPattern, DeleteAccount),
    Route(MethodGet, TransactionPattern, ListTransactions),
    Route(MethodPut, TransactionPattern, UpdateTransaction),
    Route(MethodDelete, TransactionPattern, DeleteTransaction),
    Route(MethodGet, TransactionsPattern, ListTransactions),
    Route(MethodPost, TransactionsPattern, CreateTransaction)
  ]

  /** Every pattern of the table is a placeholder pattern or lies outside `/accounts/`. */
  lemma TablePatternsKinds(i: nat)
    requires i < |Routes|
    ensures IsPlaceholderPattern(Routes[i].pattern) || !HasPrefix(Routes[i].pattern, AccountsPrefix)
  {
  }

  /** Two routes of the table with different patterns never both match one path. */
  lemma TableExclusive(i: nat, j: nat, path: string)
    requires i < |Routes| && j < |Routes| && Routes[i].pattern != Routes[j].pattern
    ensures !(PathMatches(Routes[i].pattern, path) && PathMatches(Routes[j].pattern, path))
  {
    TablePatternsKinds(i);
    TablePatternsKinds(j);
    if PathMatches(Routes[i].pattern, path) {
      PatternsExclusive(Routes[i].pattern, Routes[j].pattern, path);
    }
  }

  /** So swapping two adjacent table entries with different patterns changes no decision. */
  lemma TableSwapKeepsDispatch(i: nat, verb: string, path: string)
    requires i + 1 < |Routes| && Routes[i].pattern != Routes[i + 1].pattern
    ensures Resolve(Routes[..i] + [Routes[i + 1], Routes[i]] + Routes[i + 2..], verb, path) == Resolve(Routes, verb, path)
  {
    TableExclusive(i, i + 1, path);
    SwapAdjacent(Routes, i, verb, path);
  }

  /** The patterns of the table, route by route. */
  lemma TablePatterns()
    ensures Routes[0].pattern == HealthPattern
    ensures Routes[1].pattern == AccountsPattern && Routes[2].pattern == AccountsPattern
    ensures Routes[3].pattern == AccountPattern && Routes[4].pattern == AccountPattern
    ensures Routes[5].pattern == TransactionPattern && Routes[6].pattern == TransactionPattern
    ensures Routes[7].pattern == TransactionPattern
    ensures Routes[8].pattern == TransactionsPattern && Routes[9].pattern == TransactionsPattern
  {
  }

  /** The five patterns have five lengths, so they differ. */
  lemma PatternLengths()
    ensures |HealthPattern| == 1 && |AccountsPattern| == 9 && |AccountPattern| == 13
    ensures |TransactionsPattern| == 26 && |TransactionPattern| == 32
  {
  }

  /**
    Within the table, a path matching the pattern of route k is served by the
    first route of k's block that takes the verb: routes before the block have
    other patterns, and routes of the block before i take other verbs.
   */
  lemma BlockServes(verb: string, path: string, k: nat, i: nat)
    requires k <= i < |Routes| && PathMatches(Routes[k].pattern, path)
    requires Routes[i].pattern == Routes[k].pattern && Routes[i].verb == verb
    requires forall j | 0 <= j < k :: Routes[j].pattern != Routes[k].pattern
    requires forall j | k <= j < i :: Routes[j].verb != verb
    ensures Resolve(Routes, verb, path) == Serve(Routes[i].endpoint)
  {
    forall j | 0 <= j < i ensures !Serves(Routes[j], verb, path) {
      if j < k {
        TableExclusive(j, k, path);
      }
    }
    ResolveFirst(Routes, i, verb, path);
  }

  /** A path matching the pattern of route k, with a verb no route of that pattern takes, is answered 405. */
  lemma BlockRefuses(verb: string, path: string, k: nat)
    requires k < |Routes| && PathMatches(Routes[k].pattern, path)
    requires forall j | 0 <= j < |Routes| && Routes[j].pattern == Routes[k].pattern :: Routes[j].verb != verb
    ensures Resolve(Routes, verb, path) == NoMethod
  {
    ResolveMeaning(Routes, verb, path);
    forall j | 0 <= j < |Routes| ensures !Serves(Routes[j], verb, path) {
      if Routes[j].pattern != Routes[k].pattern {
        TableExclusive(j, k, path);
      }
    }
  }

  /** `/`: GET is the health check, every other method is refused with 405. */
  lemma HealthRoutes(verb: string)
    ensures verb == MethodGet ==> Resolve(Routes, verb, HealthPattern) == Serve(Health)
    ensures verb != MethodGet ==> Resolve(Routes, verb, HealthPattern) == NoMethod
  {
    TablePatterns();
    PatternLengths();
    if verb == MethodGet {
      BlockServes(verb, HealthPattern, 0, 0);
    } else {
      BlockRefuses(verb, HealthPattern, 0);
    }
  }

  /** `/accounts`: GET lists, POST creates, every other method is refused with 405. */
  lemma AccountsRoutes(verb: string)
    ensures verb == MethodGet ==> Resolve(Routes, verb, AccountsPattern) == Serve(ListAccounts)
    ensures verb == MethodPost ==> Resolve(Routes, verb, AccountsPattern) == Serve(CreateAccount)
    ensures verb != MethodGet && verb != MethodPost ==> Resolve(Routes, verb, AccountsPattern) == NoMethod
  {
    TablePatterns();
    PatternLengths();
    if verb == MethodGet {
      BlockServes(verb, AccountsPattern, 1, 1);
    } else if verb == MethodPost {
      BlockServes(verb, AccountsPattern, 1, 2);
    } else {
      BlockRefuses(verb, AccountsPattern, 1);
    }
  }

  /** A path matching `/accounts/:id`: PUT updates, DELETE deletes, every other method is refused with 405. */
  lemma AccountRoutes(verb: string, path: string)
    requires PathMatches(AccountPattern, path)
    ensures verb == MethodPut ==> Resolve(Routes, verb, path) == Serve(UpdateAccount)
    ensures verb == MethodDelete ==> Resolve(Routes, verb, path) == Serve(DeleteAccount)
    ensures verb != MethodPut && verb != MethodDelete ==> Resolve(Routes, verb, path) == NoMethod
  {
    TablePatterns();
    PatternLengths();
    if verb == MethodPut {
      BlockServes(verb, path, 3, 3);
    } else if verb == MethodDelete {
      BlockServes(verb, path, 3, 4);
    } else {
      BlockRefuses(verb, path, 3);
    }
  }

  /**
    A path matching `/accounts/:id/transactions/:txId`: GET reaches the listing
    handler (which then answers with the one transaction), PUT updates, DELETE
    deletes, every other method is refused with 405.
   */
  lemma TransactionRoutes(verb: string, path: string)
    requires PathMatches(TransactionPattern, path)
    ensures verb == MethodGet ==> Resolve(Routes, verb, path) == Serve(ListTransactions)
    ensures verb == MethodPut ==> Resolve(Routes, verb, path) == Serve(UpdateTransaction)
    ensures verb == MethodDelete ==> Resolve(Routes, verb, path) == Serve(DeleteTransaction)
    ensures verb != MethodGet && verb != MethodPut && verb != MethodDelete ==> Resolve(Routes, verb, path) == NoMethod
  {
    TablePatterns();
    PatternLengths();
    if verb == MethodGet {
      BlockServes(verb, path, 5, 5);
    } else if verb == MethodPut {
      BlockServes(verb, path, 5, 6);
    } else if verb == MethodDelete {
      BlockServes(verb, path, 5, 7);
    } else {
      BlockRefuses(verb, path, 5);
    }
  }

  /** A path matching `/accounts/:id/transactions`: GET lists, POST creates, every other method is refused with 405. */
  lemma TransactionsRoutes(verb: string, path: string)
    requires PathMatches(TransactionsPattern, path)
    ensures verb == MethodGet ==> Resolve(Routes, verb, path) == Serve(ListTransactions)
    ensures verb == MethodPost ==> Resolve(Routes, verb, path) == Serve(CreateTransaction)
    ensures verb != MethodGet && verb != MethodPost ==> Resolve(Routes, verb, path) == NoMethod
  {
    TablePatterns();
    PatternLengths();
    if verb == MethodGet {
      BlockServes(verb, path, 8, 8);
    } else if verb == MethodPost {
      BlockServes(verb, path, 8, 9);
    } else {
      BlockRefuses(verb, path, 8);
    }
  }
}
