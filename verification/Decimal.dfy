/** Decimal printing and parsing of integers. */
module Decimal {
  import opened Option

  const MIN_INT64: int := -0x8000_0000_0000_0000
  const MAX_INT64: int := 0x7FFF_FFFF_FFFF_FFFF

  predicate InInt64(n: int) { MIN_INT64 <= n <= MAX_INT64 }

  predicate IsDigit(c: char) { '0' <= c <= '9' }

  function Digit(n: nat): (c: char)
    requires n < 10
    ensures IsDigit(c) && c as int == '0' as int + n
  {
    ('0' as int + n) as char
  }

  function NatText(n: nat): (s: string)
    ensures s != [] && forall k :: 0 <= k < |s| ==> IsDigit(s[k])
  {
    if n < 10 then [Digit(n)] else NatText(n / 10) + [Digit(n % 10)]
  }

  /** What the `%d` verb prints. */
  function Itoa(n: int): (s: string)
    ensures s != []
  {
    if n < 0 then
      var magnitude: nat := -n;
      "-" + NatText(magnitude)
    else
      var magnitude: nat := n;
      NatText(magnitude)
  }

  function NatValue(s: string): (n: nat)
    requires forall k :: 0 <= k < |s| ==> IsDigit(s[k])
  {
    if s == [] then 0
    else
      assert IsDigit(s[|s| - 1]);
      NatValue(s[..|s| - 1]) * 10 + (s[|s| - 1] as int - '0' as int)
  }

  predicate AllDigits(s: string) { s != [] && forall k :: 0 <= k < |s| ==> IsDigit(s[k]) }

  /** A 64-bit decimal with an optional sign, nothing else. */
  function Atoi(s: string): Option<int> {
    var signed := s != [] && (s[0] == '-' || s[0] == '+');
    var digits := if signed then s[1..] else s;
    if !AllDigits(digits) then None
    else
      var magnitude: int := NatValue(digits);
      var n: int := if signed && s[0] == '-' then 0 - magnitude else magnitude;
      if InInt64(n) then Some(n) else None
  }

  lemma {:induction false} NatRoundTrip(n: nat)
    ensures NatValue(NatText(n)) == n
  {
    if n >= 10 {
      NatRoundTrip(n / 10);
      var s := NatText(n);
      assert s[..|s| - 1] == NatText(n / 10);
    }
  }

  /** Parsing undoes printing on every 64-bit integer, and on no other. */
  lemma AtoiOfItoa(n: int)
    ensures Atoi(Itoa(n)) == if InInt64(n) then Some(n) else None
  {
    NatRoundTrip(if n < 0 then -n else n);
    if n < 0 {
      assert Itoa(n)[1..] == NatText(-n);
    } else {
      assert IsDigit(Itoa(n)[0]);
    }
  }

  /** A plus sign is accepted, and nothing but a leading sign and digits is. */
  lemma AtoiShape(s: string, n: nat)
    ensures Atoi("+" + Itoa(n)) == Atoi(Itoa(n))
    ensures Atoi(s).Some? ==> s != "" && IsDigit(s[|s| - 1])
    ensures Atoi(s).Some? ==> forall k :: 0 < k < |s| ==> IsDigit(s[k])
    ensures Atoi(s).Some? ==> IsDigit(s[0]) || s[0] == '-' || s[0] == '+'
  {
    assert ("+" + Itoa(n))[1..] == NatText(n);
    assert IsDigit(Itoa(n)[0]);
    if Atoi(s).Some? {
      assert forall k :: 0 < k < |s| ==> s[1..][k - 1] == s[k];
    }
  }
}
