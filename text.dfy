/**
  The part of Go's `strings` package the request layer uses: HasPrefix, TrimPrefix,
  Contains and SplitN, over strings as sequences of characters.
 */
module Text {
  import opened Wrappers

  /** strings.HasPrefix */
  predicate HasPrefix(s: string, prefix: string) {
    |prefix| <= |s| && s[..|prefix|] == prefix
  }

  /** Every string starts with itself. */
  lemma PrefixOfConcat(a: string, b: string)
    ensures HasPrefix(a + b, a)
  {
    assert (a + b)[..|a|] == a;
  }

  /** strings.TrimPrefix: `s` without a leading `prefix`, or `s` itself when it has none. */
  function TrimPrefix(s: string, prefix: string): (r: string)
    ensures HasPrefix(s, prefix) ==> prefix + r == s
    ensures !HasPrefix(s, prefix) ==> r == s
  {
    if HasPrefix(s, prefix) then s[|prefix|..] else s
  }

  /** strings.Contains: `sub` occurs somewhere in `s`. */
  predicate Contains(s: string, sub: string)
    decreases |s|
  {
    HasPrefix(s, sub) || (|s| > 0 && Contains(s[1..], sub))
  }

  lemma {:induction false} ContainsInfix(a: string, b: string, c: string)
    ensures Contains(a + b + c, b)
    decreases |a|
  {
    if |a| == 0 {
      assert a + b + c == b + c;
      assert (b + c)[..|b|] == b;
    } else {
      assert (a + b + c)[1..] == a[1..] + b + c;
      ContainsInfix(a[1..], b, c);
    }
  }

  /** Searching for a one-character string is searching for the character. */
  lemma {:induction false} ContainsChar(s: string, c: char)
    ensures Contains(s, [c]) <==> c in s
    decreases |s|
  {
    if |s| > 0 {
      assert s == [s[0]] + s[1..];
      ContainsChar(s[1..], c);
    }
  }

  /** The position of the first `c` in `s`, if any. */
  function IndexOf(s: string, c: char): (r: Option<nat>)
    ensures r.None? <==> c !in s
    ensures r.Some? ==> r.value < |s| && s[r.value] == c && c !in s[..r.value]
  {
    if |s| == 0 then None
    else if s[0] == c then Some(0)
    else
      match IndexOf(s[1..], c)
      case None => None
      case Some(i) =>
        assert s[..i + 1] == [s[0]] + s[1..][..i];
        Some(i + 1)
  }

  /** strings.Join with a one-character separator. */
  function Join(parts: seq<string>, sep: char): string
    requires |parts| >= 1
  {
    if |parts| == 1 then parts[0] else parts[0] + [sep] + Join(parts[1..], sep)
  }

  /**
    strings.SplitN(s, sep, n) for n >= 1: at most n pieces, split at the first n - 1
    separators, the last piece holding the unsplit rest. The contract determines the
    pieces: joining them gives back `s`, no piece but the last holds a separator, and
    the last holds none when fewer than n pieces came out.
   */
  function SplitN(s: string, sep: char, n: nat): (parts: seq<string>)
    requires n >= 1
    ensures 1 <= |parts| <= n
    ensures Join(parts, sep) == s
    ensures forall i | 0 <= i < |parts| - 1 :: sep !in parts[i]
    ensures |parts| < n ==> sep !in parts[|parts| - 1]
    decreases n
  {
    if n == 1 then [s]
    else
      match IndexOf(s, sep)
      case None => [s]
      case Some(i) =>
        var rest := SplitN(s[i + 1..], sep, n - 1);
        assert s == s[..i] + [sep] + s[i + 1..];
        ConsPieces(s[..i], rest, sep, n);
        [s[..i]] + rest
  }

  /** A separator-free first piece in front of the pieces of the rest keeps SplitN's contract. */
  lemma ConsPieces(first: string, rest: seq<string>, sep: char, n: nat)
    requires n >= 2 && 1 <= |rest| <= n - 1 && sep !in first
    requires forall i | 0 <= i < |rest| - 1 :: sep !in rest[i]
    requires |rest| < n - 1 ==> sep !in rest[|rest| - 1]
    ensures var parts := [first] + rest;
      && 1 <= |parts| <= n
      && Join(parts, sep) == first + [sep] + Join(rest, sep)
      && (forall i | 0 <= i < |parts| - 1 :: sep !in parts[i])
      && (|parts| < n ==> sep !in parts[|parts| - 1])
  {
    var parts := [first] + rest;
    JoinCons(first, rest, sep);
    forall i | 0 <= i < |parts| - 1 ensures sep !in parts[i] {
      if i > 0 {
        assert parts[i] == rest[i - 1];
      }
    }
    assert parts[|parts| - 1] == rest[|rest| - 1];
  }

  lemma SplitWithoutSeparator(s: string, sep: char, n: nat)
    requires n >= 1 && sep !in s
    ensures SplitN(s, sep, n) == [s]
  {
  }

  lemma {:induction false} FirstSeparator(a: string, b: string, sep: char)
    requires sep !in a
    ensures IndexOf(a + [sep] + b, sep) == Some(|a|)
    decreases |a|
  {
    if |a| > 0 {
      assert (a + [sep] + b)[1..] == a[1..] + [sep] + b;
      assert a[0] in a;
      FirstSeparator(a[1..], b, sep);
    }
  }

  /** Splitting at a first separator that follows a separator-free `a`. */
  lemma SplitAtFirst(a: string, b: string, sep: char, n: nat)
    requires n >= 2 && sep !in a
    ensures SplitN(a + [sep] + b, sep, n) == [a] + SplitN(b, sep, n - 1)
  {
    var s := a + [sep] + b;
    FirstSeparator(a, b, sep);
    assert s[..|a|] == a;
    assert s[|a| + 1..] == b;
  }

  lemma JoinCons(first: string, rest: seq<string>, sep: char)
    requires |rest| >= 1
    ensures Join([first] + rest, sep) == first + [sep] + Join(rest, sep)
    ensures ([first] + rest)[1..] == rest
  {
    assert ([first] + rest)[1..] == rest;
  }

  lemma Join2(a: string, b: string, sep: char)
    ensures Join([a, b], sep) == a + [sep] + b
  {
    assert [a, b][1..] == [b];
  }

  lemma Join3(a: string, b: string, c: string, sep: char)
    ensures Join([a, b, c], sep) == a + [sep] + b + [sep] + c
  {
    assert [a, b, c][1..] == [b, c];
    Join2(b, c, sep);
  }

  /** Regrouping a path built from pieces, without looking inside the pieces. */
  lemma Regroup(a: string, b: string, c: string)
    ensures a + b + "/" + c == a + (b + "/" + c)
  {
  }

  lemma Regroup3(a: string, b: string, c: string, d: string)
    ensures a + b + "/" + c + "/" + d == a + (b + "/" + c + "/" + d)
  {
  }

  lemma RegroupTrailing(a: string, b: string, c: string)
    ensures a + b + "/" + c + "/" == a + (b + "/" + c + "/")
  {
  }

  lemma Regroup4(a: string, b: string, c: string, d: string, e: string)
    ensures a + b + "/" + c + "/" + d + "/" + e == a + (b + "/" + c + "/" + (d + "/" + e))
  {
  }

  /** Two separator-free pieces, then the rest: how SplitN with n = 3 cuts them. */
  lemma SplitTwoThenRest(a: string, b: string, tail: string, sep: char)
    requires sep !in a && sep !in b
    ensures SplitN(a + [sep] + b + [sep] + tail, sep, 3) == [a, b, tail]
  {
    var rest := b + [sep] + tail;
    assert a + [sep] + b + [sep] + tail == a + [sep] + rest;
    SplitAtFirst(a, rest, sep, 3);
    SplitAtFirst(b, tail, sep, 2);
    assert SplitN(tail, sep, 1) == [tail];
    assert [a] + ([b] + [tail]) == [a, b, tail];
  }

  /** Two separator-free pieces: SplitN with n >= 2 gives them back. */
  lemma SplitPair(a: string, b: string, sep: char, n: nat)
    requires n >= 2 && sep !in a && sep !in b
    ensures SplitN(a + [sep] + b, sep, n) == [a, b]
  {
    SplitAtFirst(a, b, sep, n);
    SplitWithoutSeparator(b, sep, n - 1);
    assert [a] + [b] == [a, b];
  }

  /** What the pieces of a split say about the string: its head, and the whole when there are three. */
  lemma JoinedPieces(parts: seq<string>, s: string, sep: char)
    requires 2 <= |parts| <= 3 && Join(parts, sep) == s
    ensures HasPrefix(s, parts[0] + [sep] + parts[1])
    ensures |parts| == 2 ==> s == parts[0] + [sep] + parts[1]
    ensures |parts| == 3 ==> s == parts[0] + [sep] + parts[1] + [sep] + parts[2]
  {
    var head := parts[0] + [sep] + parts[1];
    if |parts| == 2 {
      assert parts == [parts[0], parts[1]];
      Join2(parts[0], parts[1], sep);
      assert s == head + [];
      PrefixOfConcat(head, []);
    } else {
      assert parts == [parts[0], parts[1], parts[2]];
      Join3(parts[0], parts[1], parts[2], sep);
      assert s == head + ([sep] + parts[2]);
      PrefixOfConcat(head, [sep] + parts[2]);
    }
  }
}
