/** Seven-joint vectors over the reals and the componentwise clip that the planner,
    the inverse-kinematics loop and the baseline limiter are all written with. */
module JointMath {
  import opened Scalars

  const DOF: nat := 7

  type Joints = q: seq<real> | |q| == DOF witness seq(DOF, i => 0.0)

  /** One scalar moved toward a goal by at most `step`. */
  function Slew(start: real, goal: real, step: real): real {
    start + Clamp(goal - start, -step, step)
  }

  function Plus(a: Joints, b: Joints): Joints { seq(DOF, i requires 0 <= i < DOF => a[i] + b[i]) }

  function Minus(a: Joints, b: Joints): Joints { seq(DOF, i requires 0 <= i < DOF => a[i] - b[i]) }

  function Times(k: real, a: Joints): Joints { seq(DOF, i requires 0 <= i < DOF => k * a[i]) }

  function Zero(): Joints { seq(DOF, i => 0.0) }

  /** Every joint at `x`. */
  function Even(x: real): Joints { seq(DOF, i => x) }

  /** Every joint of `start` moved toward `goal` by at most `step`. */
  function SlewEach(start: Joints, goal: Joints, step: real): Joints {
    seq(DOF, i requires 0 <= i < DOF => Slew(start[i], goal[i], step))
  }

  function ClampEach(q: Joints, lower: Joints, upper: Joints): Joints {
    seq(DOF, i requires 0 <= i < DOF => Clamp(q[i], lower[i], upper[i]))
  }

  predicate InBox(q: Joints, lower: Joints, upper: Joints) {
    forall i :: 0 <= i < DOF ==> lower[i] <= q[i] <= upper[i]
  }

  /** The largest joint difference is at most `limit`. */
  predicate Within(a: Joints, b: Joints, limit: real) {
    forall i :: 0 <= i < DOF ==> Abs(a[i] - b[i]) <= limit
  }

  /** Every joint of `q` lies between the same joint of `a` and of `b`. */
  predicate Between(q: Joints, a: Joints, b: Joints) {
    forall i :: 0 <= i < DOF ==> a[i] <= q[i] <= b[i] || b[i] <= q[i] <= a[i]
  }

  function MaxAbs(q: seq<real>): (m: real)
    ensures m >= 0.0
    ensures forall i :: 0 <= i < |q| ==> Abs(q[i]) <= m
    ensures q != [] ==> exists i :: 0 <= i < |q| && Abs(q[i]) == m
  {
    if q == [] then 0.0
    else
      var rest := MaxAbs(q[1..]);
      assert forall i :: 1 <= i < |q| ==> q[i] == q[1..][i - 1];
      assert |q| > 1 ==> exists j :: 0 <= j < |q[1..]| && Abs(q[1..][j]) == rest && Abs(q[j + 1]) == rest;
      Max(Abs(q[0]), rest)
  }

  lemma SameJoints(p: Joints, q: Joints)
    requires forall i :: 0 <= i < DOF ==> p[i] == q[i]
    ensures p == q
  {
  }

  lemma SlewLandsBetween(start: Joints, goal: Joints, step: real)
    requires step >= 0.0
    ensures Between(SlewEach(start, goal, step), start, goal)
    ensures Within(SlewEach(start, goal, step), start, step)
  {
  }

  lemma WithinSelf(q: Joints, limit: real)
    requires limit >= 0.0
    ensures Within(q, q, limit)
  {
    assert Abs(0.0) == 0.0;
  }

  lemma BetweenStaysInBox(q: Joints, a: Joints, b: Joints, lower: Joints, upper: Joints)
    requires Between(q, a, b) && InBox(a, lower, upper) && InBox(b, lower, upper)
    ensures InBox(q, lower, upper)
  {
  }

  lemma BetweenStaysWithin(q: Joints, a: Joints, b: Joints, centre: Joints, limit: real)
    requires Between(q, a, b) && Within(a, centre, limit) && Within(b, centre, limit)
    ensures Within(q, centre, limit)
  {
  }

  /** A point on the segment from `a` to `b`. */
  function Along(a: Joints, b: Joints, fraction: real): Joints {
    Plus(a, Times(fraction, Minus(b, a)))
  }

  lemma AlongIsBetween(a: Joints, b: Joints, fraction: real)
    requires 0.0 <= fraction <= 1.0
    ensures Between(Along(a, b, fraction), a, b)
  {
    forall i | 0 <= i < DOF
      ensures a[i] <= Along(a, b, fraction)[i] <= b[i] || b[i] <= Along(a, b, fraction)[i] <= a[i]
    {
      AlongAt(a, b, fraction, i);
    }
  }

  lemma AlongAt(a: Joints, b: Joints, fraction: real, i: nat)
    requires 0.0 <= fraction <= 1.0 && i < DOF
    ensures a[i] <= Along(a, b, fraction)[i] <= b[i] || b[i] <= Along(a, b, fraction)[i] <= a[i]
  {
    var scaled := Times(fraction, Minus(b, a))[i];
    var gap := b[i] - a[i];
    assert scaled == fraction * gap;
    ScaledBetween(fraction, gap);
    assert Along(a, b, fraction)[i] == a[i] + scaled;
  }

  lemma TimesWithin(k: real, a: Joints, bound: real, i: nat)
    requires k >= 0.0 && i < DOF && Abs(a[i]) <= bound
    ensures Abs(Times(k, a)[i]) <= k * bound
  {
  }

  lemma ScaledBetween(k: real, x: real)
    requires 0.0 <= k <= 1.0
    ensures x >= 0.0 ==> 0.0 <= k * x <= x
    ensures x <= 0.0 ==> x <= k * x <= 0.0
  {
  }
}
