/** Decimal rendering of counters and durations (`std::to_string` of an
    unsigned or non-negative integer) and its reading back. */
module Decimal {
  import opened Wrappers

  predicate IsDigit(c: char) {
    '0' <= c <= '9'
  }

  predicate AllDigits(s: string) {
    forall i :: 0 <= i < |s| ==> IsDigit(s[i])
  }

  function DigitValue(c: char): nat
    requires IsDigit(c)
  {
    c as int - '0' as int
  }

  function DigitChar(d: nat): (c: char)
    requires d < 10
    ensures IsDigit(c) && DigitValue(c) == d
  {
    (d + '0' as int) as char
  }

  /** `std::to_string(n)`: shortest decimal numeral, no sign, no leading zero. */
  function NatToString(n: nat): (s: string)
    ensures |s| >= 1 && AllDigits(s)
    ensures s[0] == '0' <==> n == 0
    decreases n
  {
    if n < 10 then [DigitChar(n)] else NatToString(n / 10) + [DigitChar(n % 10)]
  }

  /** The number a string of decimal digits denotes. */
  function DigitsValue(s: string): nat
    requires AllDigits(s)
    decreases |s|
  {
    if s == [] then 0 else DigitsValue(s[..|s| - 1]) * 10 + DigitValue(s[|s| - 1])
  }

  lemma {:induction false} DigitsValueOfNatToString(n: nat)
    ensures DigitsValue(NatToString(n)) == n
    decreases n
  {
    var s := NatToString(n);
    if n >= 10 {
      DigitsValueOfNatToString(n / 10);
      assert s[..|s| - 1] == NatToString(n / 10);
    }
  }

  lemma {:induction false} LeadingNonZeroIsPositive(s: string)
    requires |s| >= 1 && AllDigits(s) && s[0] != '0'
    ensures DigitsValue(s) > 0
    decreases |s|
  {
    if |s| > 1 {
      LeadingNonZeroIsPositive(s[..|s| - 1]);
    }
  }

  /** The other direction: a numeral without superfluous leading zero is
      what `NatToString` prints for its value. */
  lemma {:induction false} NatToStringOfDigitsValue(s: string)
    requires |s| >= 1 && AllDigits(s)
    requires s[0] == '0' ==> |s| == 1
    ensures NatToString(DigitsValue(s)) == s
    decreases |s|
  {
    var p, c := s[..|s| - 1], s[|s| - 1];
    var n := DigitsValue(s);
    assert DigitChar(DigitValue(c)) == c;
    if |s| == 1 {
      assert p == [];
    } else {
      LeadingNonZeroIsPositive(p);
      NatToStringOfDigitsValue(p);
      assert n / 10 == DigitsValue(p) && n % 10 == DigitValue(c);
      assert s == p + [c];
    }
  }

  /** Length of the run of digits at the start of `s`. */
  function DigitRunLength(s: string): (k: nat)
    ensures k <= |s| && AllDigits(s[..k])
    ensures k < |s| ==> !IsDigit(s[k])
    decreases |s|
  {
    if s == [] || !IsDigit(s[0]) then 0 else 1 + DigitRunLength(s[1..])
  }

  /** Reads a non-empty maximal run of digits and returns its value and the
      rest of the input. */
  function ReadNat(s: string): (r: Option<(nat, string)>)
    ensures r.Some? ==> |r.value.1| < |s| && s[|s| - |r.value.1|..] == r.value.1
  {
    var k := DigitRunLength(s);
    if k == 0 then None else Some((DigitsValue(s[..k]), s[k..]))
  }

  lemma {:induction false} DigitRunOfDigits(t: string, rest: string)
    requires AllDigits(t)
    requires rest == [] || !IsDigit(rest[0])
    ensures DigitRunLength(t + rest) == |t|
    decreases |t|
  {
    if t != [] {
      assert (t + rest)[1..] == t[1..] + rest;
      DigitRunOfDigits(t[1..], rest);
    }
  }

  lemma ReadNatOfNatToString(n: nat, rest: string)
    requires rest == [] || !IsDigit(rest[0])
    ensures ReadNat(NatToString(n) + rest) == Some((n, rest))
  {
    var t := NatToString(n);
    DigitRunOfDigits(t, rest);
    assert (t + rest)[..|t|] == t;
    assert (t + rest)[|t|..] == rest;
    DigitsValueOfNatToString(n);
  }
}
