/** Three-dimensional vectors and the Euclidean norm, given only by its defining square. */
module VectorNorm {
  import opened Products
  import opened Scalars

  datatype Vec = Vec(x: real, y: real, z: real)

  const ZERO := Vec(0.0, 0.0, 0.0)

  function Add(a: Vec, b: Vec): Vec { Vec(a.x + b.x, a.y + b.y, a.z + b.z) }
  function Sub(a: Vec, b: Vec): Vec { Vec(a.x - b.x, a.y - b.y, a.z - b.z) }
  function Scale(a: Vec, k: real): Vec { Vec(a.x * k, a.y * k, a.z * k) }
  function Dot(a: Vec, b: Vec): real { a.x * b.x + a.y * b.y + a.z * b.z }

  type Norm = Vec -> real

  /** The non-negative root of the sum of squares. */
  ghost predicate Euclidean(norm: Norm) {
    forall v :: norm(v) >= 0.0 && Square(norm(v)) == Dot(v, v)
  }

  lemma LargerSquare(a: real, b: real)
    requires a > b >= 0.0
    ensures a * a > b * b
  {
    StrictProduct(a - b, a + b);
    assert (a - b) * (a + b) == a * a - b * b;
  }

  lemma RootsAgree(a: real, b: real)
    requires a >= 0.0 && b >= 0.0 && a * a <= b * b
    ensures a <= b
  {
    if a > b { LargerSquare(a, b); }
  }

  lemma NormSquare(norm: Norm, v: Vec)
    requires Euclidean(norm)
    ensures norm(v) >= 0.0 && Square(norm(v)) == Dot(v, v)
  {
  }

  lemma NonNegativeNorm(norm: Norm, v: Vec)
    requires Euclidean(norm)
    ensures norm(v) >= 0.0
  {
  }

  lemma ScaledNorm(norm: Norm, v: Vec, k: real)
    requires Euclidean(norm)
    ensures norm(Scale(v, k)) == Abs(k) * norm(v)
  {
    var a, b := norm(Scale(v, k)), Abs(k) * norm(v);
    assert Dot(Scale(v, k), Scale(v, k)) == k * k * Dot(v, v);
    assert b * b == k * k * (norm(v) * norm(v));
    RootsAgree(a, b);
    RootsAgree(b, a);
  }

  lemma NormOfZero(norm: Norm)
    requires Euclidean(norm)
    ensures norm(ZERO) == 0.0
  {
    hide Euclidean;
    NormSquare(norm, ZERO);
    hide Square;
    if norm(ZERO) != 0.0 { NonZeroSquare(norm(ZERO)); }
  }

  lemma PositiveSquare(p: real)
    requires p > 0.0
    ensures Square(p) > 0.0 && Square(-p) == Square(p)
  {
    StrictProduct(p, p);
    SquareOfNegation(p);
    hide Product;
  }

  lemma SquareOfNegation(p: real)
    ensures Square(-p) == Square(p)
  {
  }

  lemma NonZeroSquare(p: real)
    requires p != 0.0
    ensures Square(p) > 0.0
  {
    hide Square;
    PositiveSquare(if p > 0.0 then p else -p);
    assert p < 0.0 ==> -(-p) == p;
  }

  lemma SquareIsNonNegative(p: real)
    ensures Square(p) >= 0.0
  {
  }

  lemma ZeroNorm(norm: Norm, v: Vec)
    requires Euclidean(norm) && norm(v) == 0.0
    ensures v == ZERO
  {
    hide Euclidean;
    NormSquare(norm, v);
    SquareIsNonNegative(v.x);
    SquareIsNonNegative(v.y);
    SquareIsNonNegative(v.z);
    assert Square(v.x) + Square(v.y) + Square(v.z) == Dot(v, v) == 0.0;
    if v.x != 0.0 { NonZeroSquare(v.x); }
    if v.y != 0.0 { NonZeroSquare(v.y); }
    if v.z != 0.0 { NonZeroSquare(v.z); }
    hide Square;
  }

  /** The Cauchy-Schwarz inequality. */
  lemma DotBound(norm: Norm, v: Vec, w: Vec)
    requires Euclidean(norm)
    ensures Dot(v, w) <= norm(v) * norm(w)
  {
    hide Euclidean;
    hide Square;
    NonNegativeNorm(norm, v);
    NonNegativeNorm(norm, w);
    if norm(v) == 0.0 {
      ZeroNorm(norm, v);
    } else if norm(w) == 0.0 {
      ZeroNorm(norm, w);
    } else {
      NormSquare(norm, v);
      NormSquare(norm, w);
      var d := Sub(Scale(v, norm(w)), Scale(w, norm(v)));
      NormSquare(norm, d);
      SquareIsNonNegative(norm(d));
      DotOfDifference(v, w, norm(v), norm(w));
      hide Dot;
      hide Scale;
      hide Sub;
      DotBoundByFactors(norm(v), norm(w), Dot(v, v), Dot(v, w), Dot(w, w));
    }
  }

  lemma DotBoundByFactors(a: real, b: real, vv: real, vw: real, ww: real)
    requires a > 0.0 && b > 0.0 && vv == Square(a) && ww == Square(b)
    requires b * b * vv - 2.0 * (a * b) * vw + a * a * ww >= 0.0
    ensures vw <= a * b
  {
    StrictProduct(a, b);
    var p := a * b;
    assert b * b * vv == p * p && a * a * ww == p * p;
    assert p * (p - vw) == p * p - p * vw;
    NonNegativeFactor(p, p - vw);
  }

  lemma DotOfDifference(v: Vec, w: Vec, a: real, b: real)
    ensures Dot(Sub(Scale(v, b), Scale(w, a)), Sub(Scale(v, b), Scale(w, a)))
         == b * b * Dot(v, v) - 2.0 * (a * b) * Dot(v, w) + a * a * Dot(w, w)
  {
  }

  lemma NonNegativeFactor(p: real, q: real)
    requires p > 0.0 && p * q >= 0.0
    ensures q >= 0.0
  {
  }

  lemma Triangle(norm: Norm, v: Vec, w: Vec)
    requires Euclidean(norm)
    ensures norm(Add(v, w)) <= norm(v) + norm(w)
  {
    hide Euclidean;
    NormSquare(norm, v);
    NormSquare(norm, w);
    NormSquare(norm, Add(v, w));
    DotBound(norm, v, w);
    var a, b := norm(v), norm(w);
    assert Dot(Add(v, w), Add(v, w)) == Dot(v, v) + 2.0 * Dot(v, w) + Dot(w, w);
    assert (a + b) * (a + b) == a * a + 2.0 * (a * b) + b * b;
    RootsAgree(norm(Add(v, w)), a + b);
  }

  // ---- Clipping and moving toward -----------------------------------------------------

  function ClipNorm(norm: Norm, v: Vec, most: real): Vec {
    if norm(v) <= most || norm(v) == 0.0 then v else Scale(v, most / norm(v))
  }

  function MoveToward(norm: Norm, current: Vec, target: Vec, most: real): Vec {
    Add(current, ClipNorm(norm, Sub(target, current), most))
  }

  /** Fraction of the way covered by one bounded move. */
  function Share(norm: Norm, current: Vec, target: Vec, most: real): real {
    var n := norm(Sub(target, current));
    if n <= most || n == 0.0 then 1.0 else most / n
  }

  /** A clipped vector keeps its direction and has the smaller of its own length and the limit. */
  lemma ClippedNorm(norm: Norm, v: Vec, most: real)
    requires Euclidean(norm) && most >= 0.0
    ensures norm(ClipNorm(norm, v, most)) == if norm(v) <= most then norm(v) else most
    ensures exists k :: 0.0 <= k <= 1.0 && ClipNorm(norm, v, most) == Scale(v, k)
  {
    hide Euclidean;
    NonNegativeNorm(norm, v);
    var n := norm(v);
    if n <= most {
      assert ClipNorm(norm, v, most) == Scale(v, 1.0);
    } else {
      var k := most / n;
      Fraction(most, n);
      ScaledNorm(norm, v, k);
      assert ClipNorm(norm, v, most) == Scale(v, k);
    }
  }

  lemma Fraction(part: real, whole: real)
    requires 0.0 <= part <= whole && whole > 0.0
    ensures 0.0 <= part / whole <= 1.0
    ensures part / whole * whole == part
  {
  }

  lemma ShareBounds(norm: Norm, current: Vec, target: Vec, most: real)
    requires Euclidean(norm) && most >= 0.0
    ensures 0.0 <= Share(norm, current, target, most) <= 1.0
    ensures var t := Share(norm, current, target, most);
      && MoveToward(norm, current, target, most) == Add(Scale(current, 1.0 - t), Scale(target, t))
      && Sub(target, MoveToward(norm, current, target, most)) == Scale(Sub(target, current), 1.0 - t)
      && Sub(MoveToward(norm, current, target, most), current) == ClipNorm(norm, Sub(target, current), most)
  {
    hide Euclidean;
    hide Dot;
    var n, t := norm(Sub(target, current)), Share(norm, current, target, most);
    if n > most { Fraction(most, n); }
    assert ClipNorm(norm, Sub(target, current), most) == Scale(Sub(target, current), t);
    Interpolates(current.x, target.x, t);
    Interpolates(current.y, target.y, t);
    Interpolates(current.z, target.z, t);
  }

  lemma Interpolates(from: real, to: real, t: real)
    ensures from + (to - from) * t == from * (1.0 - t) + to * t
    ensures to - (from + (to - from) * t) == (to - from) * (1.0 - t)
  {
  }

  /** A move changes the vector by at most its limit and shortens the distance to the target by
      exactly that limit, or arrives. */
  lemma MoveCloses(norm: Norm, current: Vec, target: Vec, most: real)
    requires Euclidean(norm) && most >= 0.0
    ensures var next, gap := MoveToward(norm, current, target, most), norm(Sub(target, current));
      && norm(Sub(next, current)) <= most
      && norm(Sub(target, next)) == (if gap <= most then 0.0 else gap - most)
  {
    hide Euclidean;
    NonNegativeNorm(norm, Sub(target, current));
    var t, gap := Share(norm, current, target, most), norm(Sub(target, current));
    ShareBounds(norm, current, target, most);
    ClippedNorm(norm, Sub(target, current), most);
    ScaledNorm(norm, Sub(target, current), 1.0 - t);
    if gap > most { Fraction(most, gap); }
  }

  /** A ball is convex: moving between two vectors inside it stays inside. */
  lemma MoveStaysInBall(norm: Norm, current: Vec, target: Vec, most: real, radius: real)
    requires Euclidean(norm) && most >= 0.0 && norm(current) <= radius && norm(target) <= radius
    ensures norm(MoveToward(norm, current, target, most)) <= radius
  {
    hide Euclidean;
    var t := Share(norm, current, target, most);
    ShareBounds(norm, current, target, most);
    hide Share;
    hide MoveToward;
    hide Dot;
    ScaledAtMost(norm, current, 1.0 - t, radius);
    ScaledAtMost(norm, target, t, radius);
    PartsAddUp(t, radius);
    hide Scale;
    hide Add;
    hide ClipNorm;
    Triangle(norm, Scale(current, 1.0 - t), Scale(target, t));
    hide Euclidean;
  }

  function Part(k: real, radius: real): real { k * radius }

  lemma PartsAddUp(k: real, radius: real)
    ensures Part(1.0 - k, radius) + Part(k, radius) == radius
  {
  }

  lemma PartIsMonotone(k: real, x: real, y: real)
    requires k >= 0.0 && x <= y
    ensures Part(k, x) <= Part(k, y)
  {
  }

  lemma ScaledAtMost(norm: Norm, v: Vec, k: real, radius: real)
    requires Euclidean(norm) && 0.0 <= k <= 1.0 && norm(v) <= radius
    ensures norm(Scale(v, k)) <= Part(k, radius)
  {
    ScaledNorm(norm, v, k);
    hide Euclidean;
    PartIsMonotone(k, norm(v), radius);
  }
}
