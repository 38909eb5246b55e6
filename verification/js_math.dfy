/** The JavaScript number operations the scripts rely on, over `real`.
    `Math.log` and `Math.pow` are not definable here: callers receive them as
    function-valued parameters constrained by `IsLn` and `IsPow`. */
module JsMath {
  import opened Wrappers

  /** `Math.abs(x)`. */
  function Abs(x: real): (r: real)
    ensures r >= 0.0
    ensures r == x || r == -x
  {
    if x < 0.0 then -x else x
  }

  /** `Math.min(a, b)`. */
  function Min(a: real, b: real): (r: real)
    ensures r <= a && r <= b
    ensures r == a || r == b
  {
    if a <= b then a else b
  }

  /** `Math.max(a, b)`. */
  function Max(a: real, b: real): (r: real)
    ensures r >= a && r >= b
    ensures r == a || r == b
  {
    if a >= b then a else b
  }

  /** `x || d` for a number `x` that may be `undefined`: both `undefined` and
      the falsy number 0 select the default. NaN, also falsy, is not modelled. */
  function OrElse(x: Option<real>, d: real): (r: real)
    ensures x.Some? && x.value != 0.0 ==> r == x.value
    ensures x.None? || x.value == 0.0 ==> r == d
  {
    if x.Some? && x.value != 0.0 then x.value else d
  }

  /** What the model assumes of `Math.log`: it vanishes at 1 and is strictly
      increasing on the positive reals. */
  ghost predicate IsLn(ln: real -> real) {
    && ln(1.0) == 0.0
    && forall x, y :: 0.0 < x < y ==> ln(x) < ln(y)
  }

  /** What the model assumes of `Math.pow`: a positive base gives a positive
      power, and for a positive exponent the power grows with the base. */
  ghost predicate IsPow(pow: (real, real) -> real) {
    && (forall b, e :: 0.0 < b ==> 0.0 < pow(b, e))
    && (forall b1, b2, e :: 0.0 < b1 <= b2 && 0.0 < e ==> pow(b1, e) <= pow(b2, e))
  }

  /** The logarithm axioms are consistent: `x - 1` satisfies them. */
  lemma LnAxiomsSatisfiable()
    ensures IsLn(x => x - 1.0)
  {
  }

  /** The power axioms are consistent: `b^e := b` on positive bases satisfies them. */
  lemma PowAxiomsSatisfiable()
    ensures IsPow((b, e) => if 0.0 < b then b else 1.0)
  {
  }

  /** On the positive reals `ln` is monotone in the non-strict sense too. */
  lemma LnMonotone(ln: real -> real, x: real, y: real)
    requires IsLn(ln)
    requires 0.0 < x <= y
    ensures ln(x) <= ln(y)
  {
    if x < y {
      assert ln(x) < ln(y);
    }
  }

  /** `ln` is positive above 1. */
  lemma LnPositiveAboveOne(ln: real -> real, x: real)
    requires IsLn(ln)
    requires 1.0 < x
    ensures 0.0 < ln(x)
  {
    assert ln(1.0) < ln(x);
  }
}
