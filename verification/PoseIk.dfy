/** The bounded inverse-kinematics loop that turns a palm translation into a joint target.

    Forward kinematics, the Jacobian and the damped solve stay abstract: a `Problem` answers,
    for any joint vector, whether the residual is within tolerance, undefined, or which raw
    correction the damped solve proposes. */
module PoseIk {
  import opened JointMath
  import opened Scalars

  const STEP_CAP: real := 0.08
  const REFINED_PASSES: nat := 32
  const PLAIN_PASSES: nat := 24

  datatype Probe =
    | Undefined                     // singular orientation difference or failed linear solve
    | Converged
    | Correction(delta: Joints)

  datatype Problem = Problem(probe: Joints -> Probe)

  datatype Outcome =
    | Solved(q: Joints)
    | BadSeed                       // the seed or the limits violate the margin
    | Singular                      // an error that is not a RuntimeError
    | NotConverged                  // the RuntimeError that callers recover from

  predicate SeedAccepted(seed: Joints, lower: Joints, upper: Joints) {
    && (forall i :: 0 <= i < DOF ==> lower[i] < upper[i])
    && InBox(seed, lower, upper)
  }

  /** A raw correction shrunk so that no joint moves more than the cap. */
  function Capped(delta: Joints): Joints {
    if MaxAbs(delta) > STEP_CAP then Times(STEP_CAP / MaxAbs(delta), delta) else delta
  }

  function Advance(q: Joints, delta: Joints, lower: Joints, upper: Joints): Joints {
    ClampEach(Plus(q, Capped(delta)), lower, upper)
  }

  /** The outcome of the loop from `q` with `passes` passes left. */
  function SolveFrom(p: Problem, lower: Joints, upper: Joints, q: Joints, passes: nat): Outcome
    decreases passes
  {
    if passes == 0 then (if p.probe(q).Undefined? then Singular else NotConverged)
    else match p.probe(q)
      case Undefined => Singular
      case Converged => Solved(q)
      case Correction(delta) => SolveFrom(p, lower, upper, Advance(q, delta, lower, upper), passes - 1)
  }

  function Solve(p: Problem, lower: Joints, upper: Joints, seed: Joints, passes: nat): Outcome {
    if SeedAccepted(seed, lower, upper) then SolveFrom(p, lower, upper, seed, passes) else BadSeed
  }

  lemma AdvanceStaysInBox(q: Joints, delta: Joints, lower: Joints, upper: Joints)
    requires forall i :: 0 <= i < DOF ==> lower[i] < upper[i]
    ensures InBox(Advance(q, delta, lower, upper), lower, upper)
  {
  }

  method CapStep(delta: Joints) returns (step: Joints)
    ensures step == Capped(delta)
  {
    step := delta;
    var maximum := MaxAbs(delta);
    if maximum > STEP_CAP {
      step := Times(STEP_CAP / maximum, delta);
    }
  }

  method PosePreservingJointTarget(p: Problem, lower: Joints, upper: Joints, seed: Joints, refine: bool)
    returns (r: Outcome)
    ensures r == Solve(p, lower, upper, seed, if refine then REFINED_PASSES else PLAIN_PASSES)
    ensures r.Solved? ==> InBox(r.q, lower, upper) && p.probe(r.q).Converged?
  {
    hide InBox;
    hide ClampEach;
    hide Plus;
    hide Capped;
    if !SeedAccepted(seed, lower, upper) {
      return BadSeed;
    }
    var passes := if refine then REFINED_PASSES else PLAIN_PASSES;
    var q := seed;
    var pass := 0;
    while pass < passes
      invariant 0 <= pass <= passes
      invariant InBox(q, lower, upper)
      invariant SolveFrom(p, lower, upper, q, passes - pass) == SolveFrom(p, lower, upper, seed, passes)
    {
      match p.probe(q) {
        case Undefined => return Singular;
        case Converged => return Solved(q);
        case Correction(delta) =>
          AdvanceStaysInBox(q, delta, lower, upper);
          var step := CapStep(delta);
          q := ClampEach(Plus(q, step), lower, upper);
      }
      pass := pass + 1;
    }
    r := if p.probe(q).Undefined? then Singular else NotConverged;
  }

  // ---- What the loop guarantees -------------------------------------------------------

  /** `path` is the sequence of joint vectors visited from `seed`, every one but the last
      probed as needing a correction. */
  ghost predicate Visits(p: Problem, lower: Joints, upper: Joints, seed: Joints, path: seq<Joints>) {
    && path != [] && path[0] == seed
    && forall k :: 0 <= k < |path| - 1 ==>
         p.probe(path[k]).Correction? && path[k + 1] == Advance(path[k], p.probe(path[k]).delta, lower, upper)
  }

  lemma ShrunkMoves(delta: Joints, m: real, i: nat)
    requires i < DOF && Abs(delta[i]) <= m && m > STEP_CAP
    ensures Abs(Times(STEP_CAP / m, delta)[i]) <= STEP_CAP
  {
    var k := STEP_CAP / m;
    assert k > 0.0 && k * m == STEP_CAP;
    TimesWithin(k, delta, m, i);
  }

  /** A correction inside the cap is taken as it is; a larger one is shrunk in proportion until its
      largest joint moves by exactly the cap. */
  lemma CappedKeepsDirection(delta: Joints)
    ensures MaxAbs(delta) <= STEP_CAP ==> Capped(delta) == delta
    ensures MaxAbs(delta) > STEP_CAP ==>
      exists k :: 0.0 < k < 1.0 && k * MaxAbs(delta) == STEP_CAP && Capped(delta) == Times(k, delta)
  {
    if MaxAbs(delta) > STEP_CAP {
      var k := STEP_CAP / MaxAbs(delta);
      ShareOfCap(MaxAbs(delta));
      assert Capped(delta) == Times(k, delta);
    }
  }

  lemma ShareOfCap(m: real)
    requires m > STEP_CAP
    ensures 0.0 < STEP_CAP / m < 1.0 && STEP_CAP / m * m == STEP_CAP
  {
  }

  lemma CappedMoves(delta: Joints, i: nat)
    requires i < DOF
    ensures Abs(Capped(delta)[i]) <= STEP_CAP
  {
    if MaxAbs(delta) > STEP_CAP {
      ShrunkMoves(delta, MaxAbs(delta), i);
    }
  }

  lemma AdvanceMoves(q: Joints, delta: Joints, lower: Joints, upper: Joints)
    requires InBox(q, lower, upper)
    ensures InBox(Advance(q, delta, lower, upper), lower, upper)
    ensures Within(Advance(q, delta, lower, upper), q, STEP_CAP)
  {
    forall i | 0 <= i < DOF ensures Abs(Capped(delta)[i]) <= STEP_CAP {
      CappedMoves(delta, i);
    }
  }

  /** Each pass takes every joint as near to its corrected value as the margin allows. */
  lemma AdvanceIsNearest(q: Joints, delta: Joints, lower: Joints, upper: Joints, i: nat, at: real)
    requires i < DOF && lower[i] <= at <= upper[i]
    ensures var next := Advance(q, delta, lower, upper)[i];
      lower[i] <= next <= upper[i] && Abs(q[i] + Capped(delta)[i] - next) <= Abs(q[i] + Capped(delta)[i] - at)
  {
    hide Capped;
    assert Plus(q, Capped(delta))[i] == q[i] + Capped(delta)[i];
  }

  /** Soundness: a solved target is inside the joint margin, meets the tolerances, and is within
      0.08 rad per joint and pass of the seed, the last pass excepted because it only checks. */
  lemma {:induction false} SolvedTarget(p: Problem, lower: Joints, upper: Joints, seed: Joints, passes: nat)
    requires InBox(seed, lower, upper)
    requires SolveFrom(p, lower, upper, seed, passes).Solved?
    ensures var q := SolveFrom(p, lower, upper, seed, passes).q;
      && InBox(q, lower, upper) && p.probe(q).Converged?
      && passes > 0 && Within(q, seed, (passes - 1) as real * STEP_CAP)
    decreases passes
  {
    if p.probe(seed).Correction? {
      var next := Advance(seed, p.probe(seed).delta, lower, upper);
      AdvanceMoves(seed, p.probe(seed).delta, lower, upper);
      SolvedTarget(p, lower, upper, next, passes - 1);
      assert (passes - 1) as real * STEP_CAP == (passes - 2) as real * STEP_CAP + STEP_CAP;
    } else {
      assert (passes - 1) as real * STEP_CAP >= 0.0;
    }
  }

  /** Completeness: the loop returns `q` exactly when `q` is the first iterate that meets the
      tolerances and fewer than `passes` corrections precede it. In particular an iterate that
      first converges after the last correction is refused. */
  lemma {:induction false} SolvedIffFirstConverged(p: Problem, lower: Joints, upper: Joints, seed: Joints, passes: nat, q: Joints)
    ensures SolveFrom(p, lower, upper, seed, passes) == Solved(q) <==>
      exists path :: Visits(p, lower, upper, seed, path) && |path| <= passes
                     && path[|path| - 1] == q && p.probe(q).Converged?
    decreases passes
  {
    hide Advance;
    if SolveFrom(p, lower, upper, seed, passes) == Solved(q) {
      var path := PathTo(p, lower, upper, seed, passes, q);
    }
    forall path | Visits(p, lower, upper, seed, path) && |path| <= passes
                  && path[|path| - 1] == q && p.probe(q).Converged?
      ensures SolveFrom(p, lower, upper, seed, passes) == Solved(q)
    {
      if |path| > 1 {
        var next := path[1];
        assert path[0 + 1] == Advance(seed, p.probe(seed).delta, lower, upper);
        assert Visits(p, lower, upper, next, path[1..]) by {
          forall k | 0 <= k < |path[1..]| - 1
            ensures p.probe(path[1..][k]).Correction?
            ensures path[1..][k + 1] == Advance(path[1..][k], p.probe(path[1..][k]).delta, lower, upper)
          {
            assert path[k + 1 + 1] == Advance(path[k + 1], p.probe(path[k + 1]).delta, lower, upper);
          }
        }
        SolvedIffFirstConverged(p, lower, upper, next, passes - 1, q);
      }
    }
  }

  lemma {:induction false} PathTo(p: Problem, lower: Joints, upper: Joints, seed: Joints, passes: nat, q: Joints)
    returns (path: seq<Joints>)
    requires SolveFrom(p, lower, upper, seed, passes) == Solved(q)
    ensures Visits(p, lower, upper, seed, path) && |path| <= passes
    ensures path[|path| - 1] == q && p.probe(q).Converged?
    decreases passes
  {
    hide Advance;
    if p.probe(seed).Converged? {
      path := [seed];
    } else {
      var next := Advance(seed, p.probe(seed).delta, lower, upper);
      var rest := PathTo(p, lower, upper, next, passes - 1, q);
      path := [seed] + rest;
    }
  }
}
