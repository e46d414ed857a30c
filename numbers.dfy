/**
  strconv.Atoi on a 64-bit platform: an optional '+' or '-' followed by at least one
  decimal digit, whose value must fit in an int64; anything else is an error.
 */
module Numbers {
  import opened Wrappers

  const Int64Min: int := -0x8000_0000_0000_0000
  const Int64Max: int := 0x7FFF_FFFF_FFFF_FFFF
  const TwoTo64: int := 0x1_0000_0000_0000_0000

  /** A 64-bit signed integer operation's result: the true value wrapped into the int64 range. */
  function Wrap64(x: int): (r: int)
    ensures Int64Min <= r <= Int64Max
    ensures (x - r) % TwoTo64 == 0
    ensures Int64Min <= x <= Int64Max ==> r == x
  {
    (x - Int64Min) % TwoTo64 + Int64Min
  }

  predicate IsDigit(c: char) {
    '0' <= c <= '9'
  }

  predicate AllDigits(s: string) {
    forall i | 0 <= i < |s| :: IsDigit(s[i])
  }

  /** The value of a string of decimal digits, most significant first. */
  function DigitsValue(s: string): nat
    requires AllDigits(s)
  {
    if |s| == 0 then 0 else DigitsValue(s[..|s| - 1]) * 10 + (s[|s| - 1] as int - '0' as int)
  }

  /** strconv.Atoi: the integer `s` denotes, or None for a syntax or range error. */
  function Atoi(s: string): (r: Option<int>)
    ensures r.Some? ==> Int64Min <= r.value <= Int64Max
    ensures r.Some? ==> |s| > 0 && (IsDigit(s[0]) || s[0] == '+' || s[0] == '-')
  {
    if |s| == 0 then None
    else
      var digits := if s[0] == '-' || s[0] == '+' then s[1..] else s;
      if |digits| == 0 || !AllDigits(digits) then None
      else
        var v: int := if s[0] == '-' then -(DigitsValue(digits) as int) else DigitsValue(digits);
        if Int64Min <= v <= Int64Max then Some(v) else None
  }

  /** The decimal text of a natural number, without sign or leading zeros (strconv.Itoa). */
  function DecimalText(n: nat): (s: string)
    ensures |s| >= 1 && AllDigits(s)
  {
    if n < 10 then [('0' as int + n) as char]
    else DecimalText(n / 10) + [('0' as int + n % 10) as char]
  }

  lemma {:induction false} DecimalTextValue(n: nat)
    ensures DigitsValue(DecimalText(n)) == n
  {
    if n >= 10 {
      var s := DecimalText(n);
      assert s[..|s| - 1] == DecimalText(n / 10);
      DecimalTextValue(n / 10);
    }
  }

  /** Atoi reads back the decimal text of every int64, with or without a sign. */
  lemma AtoiDecimal(n: nat)
    requires n <= Int64Max
    ensures Atoi(DecimalText(n)) == Some(n)
    ensures Atoi("+" + DecimalText(n)) == Some(n)
    ensures Atoi("-" + DecimalText(n)) == Some(-(n as int))
  {
    DecimalTextValue(n);
    assert ("+" + DecimalText(n))[1..] == DecimalText(n);
    assert ("-" + DecimalText(n))[1..] == DecimalText(n);
  }
}
