/** The parts of Ruby's numbers that the vase script leans on, and the trigonometry
    it uses. */
module RubyMath {

  /** `sin` and `cos` from `Math`, and the degree-to-radian conversion `.radians`
      that the required RubyScad library adds to numbers (core Ruby has none),
      taken as given functions: the model never relies on their values. */
  datatype Trig = Trig(sin: real -> real, cos: real -> real, radians: real -> real)

  /** What every real sine satisfies; assumed only by the lemmas that say so. */
  ghost predicate SineBounded(trig: Trig)
  {
    forall x :: -1.0 <= trig.sin(x) <= 1.0
  }

  /** `SineBounded` at one argument. */
  lemma SineAt(trig: Trig, x: real)
    requires SineBounded(trig)
    ensures -1.0 <= trig.sin(x) <= 1.0
  {}

  /** Ruby's `Integer#/`, which rounds the quotient towards negative infinity
      (Dafny's `/` is Euclidean, which agrees only for a positive divisor).
      A zero divisor raises `ZeroDivisionError` in Ruby. */
  function FloorDiv(a: int, b: int): int
    requires b != 0
  {
    if b > 0 then a / b else (-a) / (-b)
  }

  /** `FloorDiv(a, b)` is the floor of the real quotient `a/b`: `q <= a/b < q + 1`,
      written without division. */
  lemma FloorDivIsFloor(a: int, b: int)
    requires b != 0
    ensures b > 0 ==> b * FloorDiv(a, b) <= a < b * FloorDiv(a, b) + b
    ensures b < 0 ==> b * FloorDiv(a, b) >= a > b * FloorDiv(a, b) + b
  {
    if b < 0 {
      var q := (-a) / (-b);
      assert (-b) * q <= -a < (-b) * q + (-b);
      assert b * q == -((-b) * q);
    }
  }

  /** `x < y` moves `b * x` at least one `b` away from `b * y`. */
  lemma MulStrict(b: int, x: int, y: int)
    requires x < y
    ensures b > 0 ==> b * x + b <= b * y
    ensures b < 0 ==> b * x + b >= b * y
  {
    var d := y - x;
    assert b * y == b * x + b * d;
    if b > 0 {
      assert b * d >= b;
    } else if b < 0 {
      assert b * d <= b;
    }
  }

  /** The floor characterisation pins the quotient down: any `q` with
      `q <= a/b < q + 1` is `FloorDiv(a, b)`. */
  lemma FloorDivUnique(a: int, b: int, q: int)
    requires b != 0
    requires b > 0 ==> b * q <= a < b * q + b
    requires b < 0 ==> b * q >= a > b * q + b
    ensures q == FloorDiv(a, b)
  {
    var f := FloorDiv(a, b);
    FloorDivIsFloor(a, b);
    if q < f {
      MulStrict(b, q, f);
    } else if q > f {
      MulStrict(b, f, q);
    }
  }

  /** A Ruby number: an `Integer` or a `Float` (taken as an exact real). */
  datatype Num = Int(i: int) | Float(f: real)

  /** The value of a number, `to_f` without rounding. */
  function AsReal(n: Num): real
  {
    match n
    case Int(i) => i as real
    case Float(f) => f
  }

  /** `a + b`: an `Integer` when both are, a `Float` otherwise. */
  function Add(a: Num, b: Num): (r: Num)
    ensures r.Int? <==> a.Int? && b.Int?
    ensures AsReal(r) == AsReal(a) + AsReal(b)
  {
    if a.Int? && b.Int? then Int(a.i + b.i) else Float(AsReal(a) + AsReal(b))
  }

  /** `a - b`, with the same rule for the result's class. */
  function Sub(a: Num, b: Num): (r: Num)
    ensures r.Int? <==> a.Int? && b.Int?
    ensures AsReal(r) == AsReal(a) - AsReal(b)
  {
    if a.Int? && b.Int? then Int(a.i - b.i) else Float(AsReal(a) - AsReal(b))
  }

  /** `a * b`, with the same rule for the result's class. */
  function Mul(a: Num, b: Num): (r: Num)
    ensures r.Int? <==> a.Int? && b.Int?
    ensures AsReal(r) == AsReal(a) * AsReal(b)
  {
    if a.Int? && b.Int? then Int(a.i * b.i) else Float(AsReal(a) * AsReal(b))
  }
}
