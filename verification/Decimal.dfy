/** Bytes, decimal printing and runs of digits. */
module Decimal {
  type byte = x: int | 0 <= x < 256
  type Bytes = seq<byte>

  const NUL: byte := 0
  const SPACE: byte := 32
  const ZERO: byte := 48

  predicate IsDigit(b: byte) {
    ZERO <= b <= 57
  }

  predicate Digits(s: seq<byte>) {
    forall i | 0 <= i < |s| :: IsDigit(s[i])
  }

  predicate DigitFree(s: seq<byte>) {
    forall i | 0 <= i < |s| :: !IsDigit(s[i])
  }

  function Print(n: nat): seq<byte> {
    if n < 10 then [ZERO + n] else Print(n / 10) + [ZERO + n % 10]
  }

  function Value(s: seq<byte>): nat
    requires Digits(s)
    decreases |s|
  {
    if s == [] then 0 else Value(s[..|s| - 1]) * 10 + (s[|s| - 1] - ZERO)
  }

  /** The digits at the front of s. */
  function DigitRun(s: seq<byte>): (r: seq<byte>)
    ensures Digits(r) && r <= s
  {
    if s == [] || !IsDigit(s[0]) then [] else [s[0]] + DigitRun(s[1..])
  }

  /** The first maximal run of digits in s. */
  function FirstRun(s: seq<byte>): (r: seq<byte>)
    ensures Digits(r)
  {
    if s == [] then [] else if IsDigit(s[0]) then DigitRun(s) else FirstRun(s[1..])
  }

  lemma {:induction false} PrintRoundTrip(n: nat)
    ensures Print(n) != [] && Digits(Print(n)) && Value(Print(n)) == n
  {
    if n < 10 {
      assert Print(n)[..0] == [];
    } else {
      PrintRoundTrip(n / 10);
      assert Print(n)[..|Print(n)| - 1] == Print(n / 10);
    }
  }

  function Pow10(k: nat): nat {
    if k == 0 then 1 else 10 * Pow10(k - 1)
  }

  lemma {:induction false} PrintLength(n: nat, k: nat)
    requires k > 0 && n < Pow10(k)
    ensures |Print(n)| <= k
    decreases k
  {
    if n >= 10 {
      PrintLength(n / 10, k - 1);
    }
  }

  lemma {:induction false} RunOfDigits(d: seq<byte>)
    requires Digits(d)
    ensures DigitRun(d) == d
    decreases |d|
  {
    if d != [] {
      RunOfDigits(d[1..]);
    }
  }

  lemma {:induction false} RunStops(a: seq<byte>, b: seq<byte>)
    requires !Digits(a)
    ensures DigitRun(a + b) == DigitRun(a)
    decreases |a|
  {
    assert (a + b)[0] == a[0] && (a + b)[1..] == a[1..] + b;
    if IsDigit(a[0]) {
      assert a == [a[0]] + a[1..];
      RunStops(a[1..], b);
    }
  }

  /** A digit-free front is skipped; a front with a digit and a non-digit behind it decides alone. */
  lemma {:induction false} FirstRunOfConcat(a: seq<byte>, b: seq<byte>)
    requires a == [] || !IsDigit(a[|a| - 1])
    ensures FirstRun(a + b) == if DigitFree(a) then FirstRun(b) else FirstRun(a)
    ensures !DigitFree(a) ==> FirstRun(a) != []
    decreases |a|
  {
    if a == [] {
      assert a + b == b;
    } else {
      assert (a + b)[0] == a[0] && (a + b)[1..] == a[1..] + b;
      if IsDigit(a[0]) {
        RunStops(a, b);
      } else {
        assert a == [a[0]] + a[1..];
        FirstRunOfConcat(a[1..], b);
      }
    }
  }
}
