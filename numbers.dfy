/** Python's round() on real numbers and the decimal text of an int, as the
    advice message and the reported scores use them. */
module Numbers {

  /** round(x) with no digits: the nearest integer, a tie going to the even neighbour. */
  function RoundHalfEven(x: real): (n: int)
    ensures -0.5 <= n as real - x <= 0.5
    ensures (n as real - x == 0.5 || x - n as real == 0.5) ==> n % 2 == 0
  {
    var f := x.Floor;
    var frac := x - f as real;
    if frac < 0.5 then f
    else if frac > 0.5 then f + 1
    else if f % 2 == 0 then f
    else f + 1
  }

  /** The two properties in RoundHalfEven's contract single out its result. */
  lemma RoundHalfEvenUnique(x: real, m: int)
    requires -0.5 <= m as real - x <= 0.5
    requires (m as real - x == 0.5 || x - m as real == 0.5) ==> m % 2 == 0
    ensures m == RoundHalfEven(x)
  {
  }

  lemma RoundHalfEvenOfInt(k: int)
    ensures RoundHalfEven(k as real) == k
  {
    RoundHalfEvenUnique(k as real, k);
  }

  lemma RoundHalfEvenMonotone(x: real, y: real)
    requires x <= y
    ensures RoundHalfEven(x) <= RoundHalfEven(y)
  {
  }

  /** x * 10^d, by repeated multiplication with 10. */
  function Shift(x: real, d: nat): real
    decreases d
  {
    if d == 0 then x else Shift(10.0 * x, d - 1)
  }

  /** x / 10^d, by repeated division by 10. */
  function Unshift(x: real, d: nat): real
    decreases d
  {
    if d == 0 then x else Unshift(x / 10.0, d - 1)
  }

  lemma {:induction false} ShiftMonotone(x: real, y: real, d: nat)
    decreases d
    requires x <= y
    ensures Shift(x, d) <= Shift(y, d) && Unshift(x, d) <= Unshift(y, d)
  {
    if d > 0 {
      ShiftMonotone(10.0 * x, 10.0 * y, d - 1);
      ShiftMonotone(x / 10.0, y / 10.0, d - 1);
    }
  }

  lemma {:induction false} UnshiftShift(x: real, d: nat)
    decreases d
    ensures Unshift(Shift(x, d), d) == x
  {
    if d > 0 {
      UnshiftShift(10.0 * x, d - 1);
      UnshiftLinear(Shift(10.0 * x, d - 1), d - 1);
    }
  }

  lemma {:induction false} UnshiftLinear(x: real, d: nat)
    decreases d
    ensures Unshift(x / 10.0, d) == Unshift(x, d) / 10.0
  {
    if d > 0 {
      UnshiftLinear(x / 10.0, d - 1);
    }
  }

  /** Shifting a whole number left gives a whole number. */
  lemma {:induction false} ShiftInt(k: int, d: nat) returns (m: int)
    decreases d
    ensures Shift(k as real, d) == m as real
  {
    if d == 0 {
      m := k;
    } else {
      m := ShiftInt(10 * k, d - 1);
    }
  }

  /** round(x, d): x rounded half-even to d decimal places, that is, the value whose
      d-place shift is the integer nearest to the d-place shift of x. */
  function Round(x: real, d: nat): (r: real)
    ensures Shift(r, d) == RoundHalfEven(Shift(x, d)) as real
  {
    ShiftUnshift(RoundHalfEven(Shift(x, d)) as real, d);
    Unshift(RoundHalfEven(Shift(x, d)) as real, d)
  }

  lemma {:induction false} ShiftUnshift(x: real, d: nat)
    decreases d
    ensures Shift(Unshift(x, d), d) == x
  {
    if d > 0 {
      UnshiftLinear(x, d - 1);
      ShiftUnshift(x, d - 1);
    }
  }

  lemma RoundMonotone(x: real, y: real, d: nat)
    requires x <= y
    ensures Round(x, d) <= Round(y, d)
  {
    ShiftMonotone(x, y, d);
    RoundHalfEvenMonotone(Shift(x, d), Shift(y, d));
    ShiftMonotone(RoundHalfEven(Shift(x, d)) as real, RoundHalfEven(Shift(y, d)) as real, d);
  }

  /** A whole number needs no rounding. */
  lemma RoundOfInt(k: int, d: nat)
    ensures Round(k as real, d) == k as real
  {
    var m := ShiftInt(k, d);
    RoundHalfEvenOfInt(m);
    UnshiftShift(k as real, d);
  }

  /** Rounding keeps a value inside any interval whose ends need no rounding. */
  lemma RoundWithin(x: real, lo: int, hi: int, d: nat)
    requires lo as real <= x <= hi as real
    ensures lo as real <= Round(x, d) <= hi as real
  {
    RoundMonotone(lo as real, x, d);
    RoundMonotone(x, hi as real, d);
    RoundOfInt(lo, d);
    RoundOfInt(hi, d);
  }

  function DigitChar(d: nat): (c: char)
    requires d < 10
    ensures '0' <= c <= '9' && (c - '0') as nat == d
  {
    ('0' as int + d) as char
  }

  /** str(n) for a natural number. */
  function NatText(n: nat): (s: string)
    ensures |s| >= 1
    ensures forall i :: 0 <= i < |s| ==> '0' <= s[i] <= '9'
    ensures |s| > 1 ==> s[0] != '0'
  {
    if n < 10 then [DigitChar(n)] else NatText(n / 10) + [DigitChar(n % 10)]
  }

  /** str(n) for an int: a minus sign before the digits of a negative number. */
  function IntText(n: int): (s: string)
    ensures |s| >= 1 && (s[0] == '-' <==> n < 0)
    ensures forall i :: (if n < 0 then 1 else 0) <= i < |s| ==> '0' <= s[i] <= '9'
  {
    if n < 0 then "-" + NatText(-n) else NatText(n)
  }

  /** The number a string of decimal digits denotes. */
  function DigitsValue(s: string): nat
    requires forall i :: 0 <= i < |s| ==> '0' <= s[i] <= '9'
  {
    if s == [] then 0 else 10 * DigitsValue(s[..|s| - 1]) + (s[|s| - 1] - '0') as nat
  }

  /** Reading back the text of a natural number gives that number. */
  lemma {:induction false} NatTextValue(n: nat)
    ensures DigitsValue(NatText(n)) == n
  {
    if n >= 10 {
      NatTextValue(n / 10);
      var s := NatText(n);
      assert s[..|s| - 1] == NatText(n / 10);
    }
  }

  lemma NatTextInjective(m: nat, n: nat)
    requires NatText(m) == NatText(n)
    ensures m == n
  {
    NatTextValue(m);
    NatTextValue(n);
  }

  /** Distinct numbers have distinct texts, so the advice message names its figure unambiguously. */
  lemma IntTextInjective(m: int, n: int)
    requires IntText(m) == IntText(n)
    ensures m == n
  {
    var t := IntText(m);
    if m < 0 && n < 0 {
      var a, b := NatText(-m), NatText(-n);
      assert a == t[1..] == b;
      NatTextInjective(-m, -n);
    } else if m >= 0 && n >= 0 {
      NatTextInjective(m, n);
    }
  }
}
