/** Quotients on JavaScript numbers. A zero divisor does not fail: it yields an infinity or
    NaN, and every comparison with NaN is false. */
module Quotients {

  /** A JavaScript number: a finite value, one of the two infinities, or NaN. */
  datatype Number = Finite(value: real) | PlusInfinity | MinusInfinity | NotANumber

  /** The result of dividing by zero: the infinity of the dividend's sign, or NaN for 0 / 0. */
  function DivideByZero(a: real): (n: Number)
    ensures n.PlusInfinity? <==> a > 0.0
    ensures n.MinusInfinity? <==> a < 0.0
    ensures n.NotANumber? <==> a == 0.0
  {
    if a > 0.0 then PlusInfinity else if a < 0.0 then MinusInfinity else NotANumber
  }

  /** `a / b * 100` for integer `a` and `b`. */
  function PercentOf(a: int, b: int): (p: Number)
    ensures p.Finite? <==> b != 0
    ensures p.Finite? ==> p.value * b as real == a as real * 100.0
    ensures b == 0 ==> (p == PlusInfinity <==> a > 0)
    ensures b == 0 ==> (p == MinusInfinity <==> a < 0)
    ensures b == 0 ==> (p == NotANumber <==> a == 0)
  {
    if b != 0 then
      var q := a as real / b as real;
      assert q * b as real == a as real;
      Finite(q * 100.0)
    else DivideByZero(a as real)
  }

  /** `p >= t` on JavaScript numbers. */
  predicate AtLeast(p: Number, t: real)
    ensures p.NotANumber? || p.MinusInfinity? ==> !AtLeast(p, t)
    ensures p.Finite? ==> (AtLeast(p, t) <==> p.value >= t)
  {
    match p
    case Finite(v) => v >= t
    case PlusInfinity => true
    case MinusInfinity => false
    case NotANumber => false
  }

  /** `p <= t` on JavaScript numbers. */
  predicate AtMost(p: Number, t: real)
    ensures p.NotANumber? || p.PlusInfinity? ==> !AtMost(p, t)
    ensures p.Finite? ==> (AtMost(p, t) <==> p.value <= t)
  {
    match p
    case Finite(v) => v <= t
    case PlusInfinity => false
    case MinusInfinity => true
    case NotANumber => false
  }

  /** Over a positive divisor the percentage has the sign of the dividend. */
  lemma PercentSign(a: int, b: int)
    requires b > 0
    ensures PercentOf(a, b).Finite?
    ensures PercentOf(a, b).value < 0.0 <==> a < 0
    ensures PercentOf(a, b).value > 0.0 <==> a > 0
  {
    var v := PercentOf(a, b).value;
    if v < 0.0 {
      assert v * b as real < 0.0;
    } else if v > 0.0 {
      assert v * b as real > 0.0;
    } else {
      assert v * b as real == 0.0;
    }
  }

  /** With a positive divisor, the percentage reaches `t` exactly when the dividend reaches
      `t` hundredths of the divisor. */
  lemma AtLeastScaled(a: int, b: int, t: real)
    requires b > 0
    ensures AtLeast(PercentOf(a, b), t) <==> a as real * 100.0 >= t * b as real
  {
    var v := PercentOf(a, b).value;
    assert v * b as real == a as real * 100.0;
    if v >= t {
      assert v * b as real >= t * b as real by {
        assert (v - t) * b as real >= 0.0;
      }
    } else {
      assert v * b as real < t * b as real by {
        assert (t - v) * b as real > 0.0;
      }
    }
  }
}
