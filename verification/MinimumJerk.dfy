/** The minimum-jerk blend shared by the planner's lift and the rotation script, with the
    script's duration rule and sampling loop. */
module MinimumJerk {
  import opened JointMath
  import opened Products
  import opened Scalars

  const PEAK_RATE: real := 1.875

  /** The polynomial inside the clip. */
  function Quintic(x: real): real { x * x * x * (10.0 - 15.0 * x + 6.0 * x * x) }

  function Blend(fraction: real): real { Quintic(Clamp(fraction, 0.0, 1.0)) }

  // ---- The quintic around its centre --------------------------------------------------

  ghost function Cube(x: real): real { x * x * x }

  ghost function Fifth(x: real): real { x * x * x * x * x }

  lemma Centered(u: real)
    ensures Quintic(0.5 + u) == 0.5 + 1.875 * u - 5.0 * Cube(u) + 6.0 * Fifth(u)
  {
  }

  /** The mean slopes of the cube and of the fifth power over an interval with centre c and
      half-width e, in the squares a of c and b of e. */
  ghost function CubeSlope(a: real, b: real): real { 3.0 * a + b }

  ghost function FifthSlope(a: real, b: real): real { 5.0 * (a * a) + 10.0 * (a * b) + b * b }

  lemma CubeDifference(c: real, e: real)
    ensures Cube(c + e) - Cube(c - e) == 2.0 * Product(e, CubeSlope(Square(c), Square(e)))
  {
  }

  lemma FifthDifference(c: real, e: real)
    ensures Fifth(c + e) - Fifth(c - e) == 2.0 * Product(e, FifthSlope(Square(c), Square(e)))
  {
  }

  /** The mean of the blend's rate over the same interval. */
  ghost function MeanRate(a: real, b: real): real {
    1.875 - 5.0 * CubeSlope(a, b) + 6.0 * FifthSlope(a, b)
  }

  lemma SegmentDifference(c: real, e: real)
    ensures Quintic(0.5 + (c + e)) - Quintic(0.5 + (c - e)) == 2.0 * Product(e, MeanRate(Square(c), Square(e)))
  {
    hide Quintic;
    hide Product;
    hide Square;
    hide Cube;
    hide Fifth;
    hide CubeSlope;
    hide FifthSlope;
    Centered(c + e);
    Centered(c - e);
    CubeDifference(c, e);
    FifthDifference(c, e);
    Distribute(e, CubeSlope(Square(c), Square(e)), FifthSlope(Square(c), Square(e)), MeanRate(Square(c), Square(e)));
  }

  lemma Distribute(e: real, cube: real, fifth: real, mean: real)
    requires mean == 1.875 - 5.0 * cube + 6.0 * fifth
    ensures Product(e, mean) == 1.875 * e - 5.0 * Product(e, cube) + 6.0 * Product(e, fifth)
  {
  }

  lemma SquaresInInterval(c: real, e: real)
    requires e >= 0.0 && -0.5 <= c - e && c + e <= 0.5
    ensures Square(c) >= 0.0 && Square(e) >= 0.0 && Square(c) + Square(e) <= 0.25
    ensures e > 0.0 ==> Square(e) > 0.0
  {
    ProductSign(e, e);
    if e > 0.0 { StrictProduct(e, e); }
    if c >= 0.0 { ProductSign(c, c); } else { StrictProduct(-c, -c); assert Product(-c, -c) == Square(c); }
    ProductSign(0.5 - e - c, 0.5 - e + c);
    ProductBelow(e, e, 0.5);
    ProductByConstant(e);
    SquareGap(c, e);
  }

  lemma SquareGap(c: real, e: real)
    ensures Product(0.5 - e - c, 0.5 - e + c) == 0.25 - e + Square(e) - Square(c)
  {
  }

  lemma MeanRateBounds(a: real, b: real)
    requires a >= 0.0 && b >= 0.0 && a + b <= 0.25
    ensures 0.0 <= MeanRate(a, b) <= PEAK_RATE
    ensures b > 0.0 ==> 0.0 < MeanRate(a, b)
  {
    MeanRateInProducts(a, b);
    SquareInSquares(a, b);
    ProductByConstant(a);
    ProductByConstant(b);
    hide Product;
    hide MeanRate;
    ProductSign(a, b);
    ProductSign(b, b);
    if b > 0.0 { StrictProduct(b, b); }
    ProductSign(a, 0.25 - a - b);
    ProductBelow(a, b, 0.25);
    ProductBelow(b, b, 0.25);
  }

  lemma MeanRateInProducts(a: real, b: real)
    ensures MeanRate(a, b) == 1.875 - 15.0 * a - 5.0 * b + 30.0 * Product(a, a) + 60.0 * Product(a, b) + 6.0 * Product(b, b)
    ensures Product(a, 0.25 - a - b) == 0.25 * a - Product(a, a) - Product(a, b)
  {
  }

  lemma SquareInSquares(a: real, b: real)
    ensures 0.0 <= 0.0625 - a / 2.0 - b / 6.0 + Product(a, a) + 2.0 * Product(a, b) / 3.0 + Product(b, b) / 9.0
  {
    var third := b / 3.0;
    var r := 0.25 - a - third;
    assert a * third == a * b / 3.0 && third * third == b * b / 9.0;
    assert r * r == 0.0625 - a / 2.0 - third / 2.0 + a * a + 2.0 * (a * third) + third * third;
    assert r * r >= 0.0;
  }

  lemma ProductBelow(x: real, y: real, bound: real)
    requires x >= 0.0 && y <= bound
    ensures Product(x, y) <= Product(x, bound)
    ensures x > 0.0 && y < bound ==> Product(x, y) < Product(x, bound)
  {
  }

  lemma ProductByConstant(x: real)
    ensures Product(x, 0.25) == 0.25 * x && Product(x, 0.5) == 0.5 * x && Product(x, 1.0) == x
    ensures Product(x, PEAK_RATE) == PEAK_RATE * x
  {
  }

  /** The sign of a product with a positive factor is the sign of the other factor. */
  lemma SignOfFactor(x: real, d: real)
    requires d > 0.0 && x * d >= 0.0
    ensures x >= 0.0
  {
  }

  // ---- Monotone between its end points, and Lipschitz with the peak-rate factor --------

  lemma QuinticDifference(c: real, e: real)
    requires e >= 0.0 && -0.5 <= c - e && c + e <= 0.5
    ensures 0.0 <= Quintic(0.5 + (c + e)) - Quintic(0.5 + (c - e)) <= PEAK_RATE * (2.0 * e)
    ensures e > 0.0 ==> 0.0 < Quintic(0.5 + (c + e)) - Quintic(0.5 + (c - e))
  {
    hide Quintic;
    hide MeanRate;
    hide Square;
    hide Product;
    SegmentDifference(c, e);
    SquaresInInterval(c, e);
    MeanRateBounds(Square(c), Square(e));
    var mean := MeanRate(Square(c), Square(e));
    ProductSign(e, mean);
    ProductBelow(e, mean, PEAK_RATE);
    ProductByConstant(e);
    if e > 0.0 { StrictProduct(e, mean); }
  }

  lemma BlendDifference(x: real, y: real)
    requires 0.0 <= x <= y <= 1.0
    ensures 0.0 <= Blend(y) - Blend(x) <= PEAK_RATE * (y - x)
    ensures x < y ==> Blend(x) < Blend(y)
  {
    hide Quintic;
    var c, e := (x + y) / 2.0 - 0.5, (y - x) / 2.0;
    QuinticDifference(c, e);
    assert 0.5 + (c + e) == y && 0.5 + (c - e) == x;
  }

  /** The blend fixes both ends of [0, 1], stays inside it, is strictly increasing on it and
      mirrors about its centre. */
  lemma BlendShape(x: real)
    ensures Blend(0.0) == 0.0 && Blend(1.0) == 1.0
    ensures 0.0 <= Blend(x) <= 1.0
    ensures 0.0 <= x <= 1.0 ==> Blend(1.0 - x) == 1.0 - Blend(x)
  {
    QuinticEnds();
    var v := Clamp(x, 0.0, 1.0);
    hide Quintic;
    BlendDifference(0.0, v);
    BlendDifference(v, 1.0);
    if 0.0 <= x <= 1.0 {
      QuinticMirror(x - 0.5);
    }
  }

  /** The blend leaves zero, and so by mirror symmetry reaches one, with neither rate nor acceleration. */
  lemma BlendStartsFlat(x: real)
    requires 0.0 <= x <= 1.0
    ensures Blend(x) <= 10.0 * Cube(x)
    ensures Blend(x) >= 10.0 * Cube(x) - 15.0 * Product(Cube(x), x)
  {
    assert Blend(x) == 10.0 * Cube(x) - 15.0 * Product(Cube(x), x) + 6.0 * Product(Cube(x), Square(x));
    assert 15.0 * Product(Cube(x), x) - 6.0 * Product(Cube(x), Square(x)) == Product(Cube(x), 15.0 * x - 6.0 * Square(x));
    CubeSign(x);
    UnitSquare(x);
    hide Blend;
    hide Product;
    hide Cube;
    ProductSign(Cube(x), Square(x));
    ProductSign(Cube(x), 15.0 * x - 6.0 * Square(x));
  }

  lemma CubeSign(x: real)
    requires x >= 0.0
    ensures Cube(x) >= 0.0
  {
    ProductSign(x, x);
    ProductSign(Product(x, x), x);
    assert Cube(x) == Product(Product(x, x), x);
  }

  lemma UnitSquare(x: real)
    requires 0.0 <= x <= 1.0
    ensures 0.0 <= Square(x) <= x
  {
    ProductSign(x, x);
    ProductSign(x, 1.0 - x);
    assert Product(x, 1.0 - x) == x - Square(x);
  }

  lemma QuinticEnds()
    ensures Quintic(0.0) == 0.0 && Quintic(1.0) == 1.0
  {
  }

  lemma QuinticMirror(u: real)
    ensures Quintic(0.5 - u) + Quintic(0.5 + u) == 1.0
  {
  }

  /** On all reals, clip included. */
  lemma BlendIsLipschitz(x: real, y: real)
    requires x <= y
    ensures 0.0 <= Blend(y) - Blend(x) <= PEAK_RATE * (y - x)
  {
    hide Quintic;
    BlendDifference(Clamp(x, 0.0, 1.0), Clamp(y, 0.0, 1.0));
  }

  /** Consecutive multiples of an n-th. */
  lemma Fractions(k: real, n: real)
    requires n > 0.0
    ensures (k + 1.0) / n - k / n == 1.0 / n && n / n == 1.0 && 0.0 / n == 0.0
    ensures k / n <= (k + 1.0) / n
    ensures PEAK_RATE * (1.0 / n) == PEAK_RATE / n
  {
  }

  lemma ReachesFrom(y: real, n: nat, k: nat) returns (j: nat)
    requires n > 0 && k <= n && Blend(k as real / n as real) <= y <= 1.0
    ensures j <= n && 0.0 <= y - Blend(j as real / n as real) <= PEAK_RATE / n as real
    decreases n - k
  {
    hide Blend;
    Fractions(k as real, n as real);
    BlendShape(1.0);
    if k == n {
      j := k;
    } else {
      BlendIsLipschitz(k as real / n as real, (k + 1) as real / n as real);
      if Blend((k + 1) as real / n as real) > y {
        j := k;
      } else {
        j := ReachesFrom(y, n, k + 1);
      }
    }
  }

  /** The blend reaches all of [0, 1]: sampled at n equal steps it comes within 15/(8 n) below any
      value, for every n. */
  lemma BlendReachesEverywhere(y: real, n: nat) returns (j: nat)
    requires n > 0 && 0.0 <= y <= 1.0
    ensures j <= n && 0.0 <= y - Blend(j as real / n as real) <= PEAK_RATE / n as real
  {
    hide Blend;
    Fractions(0.0, n as real);
    BlendShape(0.0);
    j := ReachesFrom(y, n, 0);
  }

  /** No factor below 15/8 would do: near the middle the blend is steeper than it. */
  lemma PeakRateIsLeast(factor: real) returns (h: real)
    requires 0.0 <= factor < PEAK_RATE
    ensures 0.0 < h <= 0.5 && Blend(0.5 + h) - Blend(0.5) > factor * h
  {
    hide Quintic;
    hide Cube;
    hide Fifth;
    var gap := PEAK_RATE - factor;
    h := gap / 5.0;
    Centered(h);
    Centered(0.0);
    PowersAtZero();
    CubeBelow(h);
    assert Product(h, gap) == PEAK_RATE * h - factor * h;
    assert Product(h, gap) == 5.0 * Square(h);
  }

  lemma PowersAtZero()
    ensures Cube(0.0) == 0.0 && Fifth(0.0) == 0.0
  {
  }

  lemma CubeBelow(h: real)
    requires 0.0 < h <= 0.375
    ensures Cube(h) < Square(h) && Fifth(h) > 0.0
  {
    PowersInProducts(h);
    ProductByConstant(Square(h));
    hide Product;
    hide Cube;
    hide Fifth;
    StrictProduct(h, h);
    ProductBelow(Square(h), h, 1.0);
    StrictProduct(Square(h), h);
    StrictProduct(Square(h), Product(Square(h), h));
  }

  lemma PowersInProducts(h: real)
    ensures Cube(h) == Product(Square(h), h)
    ensures Fifth(h) == Product(Square(h), Product(Square(h), h))
  {
  }

  // ---- The rotation script ------------------------------------------------------------

  function Duration(minimum: real, angle: real, maxRate: real): real
    requires maxRate > 0.0
  {
    Max(minimum, PEAK_RATE * angle / maxRate)
  }

  /** The rotation angle commanded `elapsed` seconds into the move. */
  function CommandedAngle(angle: real, duration: real, elapsed: real): real
    requires duration > 0.0
  {
    Blend(Min(1.0, elapsed / duration)) * angle
  }

  /** Between any two instants the commanded angle never turns faster than the limit. */
  lemma RotationRateBounded(minimum: real, angle: real, maxRate: real, earlier: real, later: real)
    requires minimum > 0.0 && angle >= 0.0 && maxRate > 0.0 && 0.0 <= earlier <= later
    ensures var d := Duration(minimum, angle, maxRate);
      0.0 <= CommandedAngle(angle, d, later) - CommandedAngle(angle, d, earlier) <= maxRate * (later - earlier)
  {
    hide Blend;
    var d := Duration(minimum, angle, maxRate);
    FractionDifference(earlier, later, d);
    var x, y := Min(1.0, earlier / d), Min(1.0, later / d);
    BlendIsLipschitz(x, y);
    ScaledRate(Blend(y) - Blend(x), angle, PEAK_RATE * (y - x));
    DurationCoversPeak(minimum, angle, maxRate);
    RateFromFraction(y - x, angle, d, maxRate, later - earlier);
  }

  lemma FractionDifference(earlier: real, later: real, d: real)
    requires d > 0.0 && earlier <= later
    ensures Min(1.0, earlier / d) <= Min(1.0, later / d)
    ensures (Min(1.0, later / d) - Min(1.0, earlier / d)) * d <= later - earlier
  {
    var p, q := earlier / d, later / d;
    assert p * d == earlier && q * d == later;
    assert (q - p) * d >= 0.0;
    SignOfFactor(q - p, d);
    var gap := Min(1.0, q) - Min(1.0, p);
    assert gap <= q - p;
    assert (q - p - gap) * d >= 0.0;
  }

  lemma ScaledRate(blend: real, angle: real, bound: real)
    requires 0.0 <= blend <= bound && angle >= 0.0
    ensures 0.0 <= blend * angle <= bound * angle
  {
  }

  lemma DurationCoversPeak(minimum: real, angle: real, maxRate: real)
    requires minimum > 0.0 && maxRate > 0.0
    ensures PEAK_RATE * angle <= maxRate * Duration(minimum, angle, maxRate)
  {
  }

  lemma RateFromFraction(gap: real, angle: real, d: real, maxRate: real, elapsed: real)
    requires gap >= 0.0 && PEAK_RATE * angle <= maxRate * d && gap * d <= elapsed && maxRate > 0.0
    ensures PEAK_RATE * gap * angle <= maxRate * elapsed
  {
  }

  /** The duration is no longer than it has to be: a shorter one above the minimum would at some time turn
      faster than the limit. */
  lemma NoShorterDuration(minimum: real, angle: real, maxRate: real, d: real) returns (earlier: real, later: real)
    requires minimum > 0.0 && angle > 0.0 && maxRate > 0.0 && minimum <= d < Duration(minimum, angle, maxRate)
    ensures 0.0 <= earlier < later <= d
    ensures CommandedAngle(angle, d, later) - CommandedAngle(angle, d, earlier) > maxRate * (later - earlier)
  {
    hide Blend;
    var factor := maxRate * d / angle;
    FactorBelowPeak(minimum, angle, maxRate, d);
    var h := PeakRateIsLeast(factor);
    earlier, later := Product(0.5, d), Product(0.5 + h, d);
    FractionOf(0.5, d);
    FractionOf(0.5 + h, d);
    StrictProduct(h, d);
    AtSpeed(Blend(0.5 + h) - Blend(0.5), factor, h, angle, maxRate, d);
    assert later - earlier == Product(h, d);
    hide Product;
  }

  lemma FactorBelowPeak(minimum: real, angle: real, maxRate: real, d: real)
    requires minimum > 0.0 && angle > 0.0 && maxRate > 0.0 && minimum <= d < Duration(minimum, angle, maxRate)
    ensures 0.0 <= maxRate * d / angle < PEAK_RATE
    ensures maxRate * d / angle * angle == maxRate * d
  {
    var span := PEAK_RATE * angle / maxRate;
    assert span * maxRate == PEAK_RATE * angle;
    StrictProduct(span - d, maxRate);
    assert Product(span - d, maxRate) == span * maxRate - maxRate * d;
    var factor := maxRate * d / angle;
    assert factor * angle == maxRate * d;
    if factor >= PEAK_RATE { ProductSign(factor - PEAK_RATE, angle); assert false; }
    StrictProduct(maxRate, d);
    if factor < 0.0 { StrictProduct(-factor, angle); assert false; }
  }

  lemma FractionOf(part: real, d: real)
    requires 0.0 <= part <= 1.0 && d > 0.0
    ensures Product(part, d) / d == part && 0.0 <= Product(part, d) <= d
  {
    ProductSign(part, d);
    ProductSign(1.0 - part, d);
    assert Product(1.0 - part, d) == d - Product(part, d);
  }

  lemma AtSpeed(rise: real, factor: real, h: real, angle: real, maxRate: real, d: real)
    requires rise > factor * h && angle > 0.0 && factor * angle == maxRate * d
    ensures rise * angle > maxRate * Product(h, d)
  {
    StrictProduct(rise - factor * h, angle);
    assert Product(rise - factor * h, angle) == rise * angle - factor * h * angle;
    assert factor * h * angle == h * (factor * angle) == h * (maxRate * d) == maxRate * (h * d);
  }

  function Total(periods: seq<real>): real {
    if periods == [] then 0.0 else Total(periods[..|periods| - 1]) + periods[|periods| - 1]
  }

  /** The k-th command turns forward from the previous one by at most the limit times its period. */
  predicate TurnsWithin(commands: seq<real>, periods: seq<real>, maxRate: real, k: nat)
    requires k < |commands| && k < |periods|
  {
    0.0 <= commands[k] - (if k == 0 then 0.0 else commands[k - 1]) <= maxRate * periods[k]
  }

  /** The streaming loop: one control period is read and one orientation written per pass, then the
      exact target closes the motion. `periods` are the durations the controller reports; the motion
      is cut short when they run out before the planned duration. */
  method StreamRotation(minimum: real, angle: real, maxRate: real, periods: seq<real>)
    returns (commands: seq<real>, completed: bool)
    requires minimum > 0.0 && angle >= 0.0 && maxRate > 0.0
    requires forall k :: 0 <= k < |periods| ==> periods[k] >= 0.0
    ensures |commands| <= |periods| + 1 && (!completed ==> |commands| == |periods|)
    ensures forall k :: 0 <= k < |commands| - (if completed then 1 else 0) ==>
      TurnsWithin(commands, periods, maxRate, k)
    ensures completed <==> Total(periods) >= Duration(minimum, angle, maxRate)
    ensures completed ==> |commands| >= 2 && commands[|commands| - 1] == angle == commands[|commands| - 2]
  {
    hide Blend;
    var duration := Duration(minimum, angle, maxRate);
    commands := [];
    var elapsed := 0.0;
    BlendShape(0.0);
    assert CommandedAngle(angle, duration, 0.0) == 0.0;
    assert periods[..0] == [];
    while elapsed < duration && |commands| < |periods|
      invariant |commands| <= |periods|
      invariant elapsed == Total(periods[..|commands|]) >= 0.0
      invariant elapsed >= duration ==> |commands| > 0
      invariant (if commands == [] then 0.0 else commands[|commands| - 1]) == CommandedAngle(angle, duration, elapsed)
      invariant forall k :: 0 <= k < |commands| ==> TurnsWithin(commands, periods, maxRate, k)
      decreases |periods| - |commands|
    {
      var n := |commands|;
      RotationRateBounded(minimum, angle, maxRate, elapsed, elapsed + periods[n]);
      assert periods[..n + 1][..n] == periods[..n];
      elapsed := elapsed + periods[n];
      var alpha := Min(1.0, elapsed / duration);
      ghost var before := commands;
      commands := commands + [Blend(alpha) * angle];
      assert forall k :: 0 <= k < n ==> TurnsWithin(before, periods, maxRate, k) ==> TurnsWithin(commands, periods, maxRate, k);
      assert TurnsWithin(commands, periods, maxRate, n);
    }
    completed := elapsed >= duration;
    TotalGrows(periods, |commands|);
    if completed {
      AtFullFraction(angle, duration, elapsed);
      assert forall k :: 0 <= k < |commands| ==>
        TurnsWithin(commands, periods, maxRate, k) ==> TurnsWithin(commands + [angle], periods, maxRate, k);
      commands := commands + [angle];
    } else {
      assert periods[..|commands|] == periods;
    }
  }

  lemma AtFullFraction(angle: real, duration: real, elapsed: real)
    requires 0.0 < duration <= elapsed
    ensures CommandedAngle(angle, duration, elapsed) == angle
  {
    hide Blend;
    BlendShape(1.0);
    FullFraction(elapsed, duration);
  }

  lemma FullFraction(elapsed: real, duration: real)
    requires 0.0 < duration <= elapsed
    ensures elapsed / duration >= 1.0
  {
    var fraction := elapsed / duration;
    assert (fraction - 1.0) * duration == elapsed - duration;
    SignOfFactor(fraction - 1.0, duration);
  }

  lemma {:induction false} TotalGrows(periods: seq<real>, n: nat)
    requires n <= |periods| && forall k :: 0 <= k < |periods| ==> periods[k] >= 0.0
    ensures Total(periods[..n]) <= Total(periods)
  {
    if n < |periods| {
      var shorter := periods[..|periods| - 1];
      TotalGrows(shorter, n);
      assert shorter[..n] == periods[..n];
    } else {
      assert periods[..n] == periods;
    }
  }
}
