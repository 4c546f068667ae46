/** How the approach closes in on its goal: slews of the nominal path and of the live correction,
    composed and clipped again. */
module TabletopMotion {
  import opened JointMath
  import opened Products
  import opened Scalars
  import opened TabletopModel
  import opened TabletopSafety
  import opened TabletopTicks
  import opened TabletopInvariant

  // ---- One joint ----------------------------------------------------------------------

  /** A slew shortens the distance to its goal by exactly its step, or arrives. */
  lemma SlewDistance(start: real, goal: real, step: real)
    requires step > 0.0
    ensures Abs(goal - Slew(start, goal, step)) == Max(0.0, Abs(goal - start) - step)
    ensures Abs(Slew(start, goal, step) - start) + Abs(goal - Slew(start, goal, step)) == Abs(goal - start)
  {
  }

  /** Nominal, correction and target of one joint after one tick. */
  datatype Joint = Joint(nominal: real, correction: real)

  function JointTick(j: Joint, destination: real, desired: real, nominalStep: real, correctionStep: real, targetStep: real): Joint {
    var nominal := Slew(j.nominal, destination, nominalStep);
    var target := Slew(j.nominal + j.correction, nominal + Slew(j.correction, desired, correctionStep), targetStep);
    Joint(nominal, target - nominal)
  }

  /** Distance still to cover, nominal and correction together. */
  function Remaining(j: Joint, destination: real, desired: real): real {
    Abs(destination - j.nominal) + Abs(desired - j.correction)
  }

  /** Even when the outer clip is active and pulls the correction back, the nominal gains at least
      what the correction loses; and once the nominal has arrived the correction closes in by the
      smaller of its two step limits. */
  lemma JointTickProgress(j: Joint, destination: real, desired: real, nominalStep: real, correctionStep: real, targetStep: real)
    requires nominalStep > 0.0 && correctionStep > 0.0 && targetStep > 0.0
    ensures var j' := JointTick(j, destination, desired, nominalStep, correctionStep, targetStep);
      && Abs(destination - j'.nominal) == Max(0.0, Abs(destination - j.nominal) - nominalStep)
      && Remaining(j', destination, desired) <= Remaining(j, destination, desired)
      && (j.nominal == destination ==>
            Abs(desired - j'.correction) == Max(0.0, Abs(desired - j.correction) - Min(correctionStep, targetStep)))
  {
    SlewDistance(j.nominal, destination, nominalStep);
    SlewDistance(j.correction, desired, correctionStep);
  }

  // ---- The whole arm ------------------------------------------------------------------

  datatype Motion = Motion(nominal: Joints, correction: Joints, target: Joints)

  function MotionOf(c: Committed): Motion { Motion(c.nominal, c.correction, c.target) }

  function MotionTick(b: Bundle, m: Motion, goal: Joints): Motion
    requires b.Valid()
  {
    var nominal := SlewEach(m.nominal, b.ReferenceApproach(), b.cfg.approachStep);
    var correction := SlewEach(m.correction, Minus(goal, b.ReferenceGrasp()), b.cfg.maxCorrectionStep);
    var target := SlewEach(m.target, Plus(nominal, correction), b.cfg.maxTargetStep);
    Motion(nominal, Minus(target, nominal), target)
  }

  function MotionAfter(b: Bundle, m: Motion, goal: Joints, ticks: nat): Motion
    requires b.Valid()
  {
    if ticks == 0 then m else MotionTick(b, MotionAfter(b, m, goal, ticks - 1), goal)
  }

  function JointOf(m: Motion, i: nat): Joint
    requires i < DOF
  {
    Joint(m.nominal[i], m.correction[i])
  }

  lemma MotionTickAt(b: Bundle, m: Motion, goal: Joints, i: nat)
    requires b.Valid() && i < DOF && m.correction == Minus(m.target, m.nominal)
    ensures var m' := MotionTick(b, m, goal);
      && m'.correction == Minus(m'.target, m'.nominal)
      && JointOf(m', i) == JointTick(JointOf(m, i), b.ReferenceApproach()[i], goal[i] - b.ReferenceGrasp()[i],
                                     b.cfg.approachStep, b.cfg.maxCorrectionStep, b.cfg.maxTargetStep)
  {
  }

  function NominalGap(b: Bundle, m: Motion, i: nat): real
    requires b.Valid() && i < DOF
  {
    Abs(b.ReferenceApproach()[i] - m.nominal[i])
  }

  function CorrectionGap(b: Bundle, m: Motion, goal: Joints, i: nat): real
    requires b.Valid() && i < DOF
  {
    Abs(goal[i] - b.ReferenceGrasp()[i] - m.correction[i])
  }

  function CorrectionStep(b: Bundle): real { Min(b.cfg.maxCorrectionStep, b.cfg.maxTargetStep) }

  lemma MotionTickGaps(b: Bundle, m: Motion, goal: Joints, i: nat)
    requires b.Valid() && i < DOF && m.correction == Minus(m.target, m.nominal)
    ensures var m' := MotionTick(b, m, goal);
      && m'.correction == Minus(m'.target, m'.nominal)
      && NominalGap(b, m', i) == Max(0.0, NominalGap(b, m, i) - b.cfg.approachStep)
      && NominalGap(b, m', i) + CorrectionGap(b, m', goal, i) <= NominalGap(b, m, i) + CorrectionGap(b, m, goal, i)
      && CorrectionGap(b, m', goal, i) >= 0.0
      && (NominalGap(b, m, i) == 0.0 ==> CorrectionGap(b, m', goal, i) == Max(0.0, CorrectionGap(b, m, goal, i) - CorrectionStep(b)))
  {
    hide Minus;
    hide MotionTick;
    hide JointTick;
    hide Slew;
    MotionTickAt(b, m, goal, i);
    JointTickProgress(JointOf(m, i), b.ReferenceApproach()[i], goal[i] - b.ReferenceGrasp()[i],
                      b.cfg.approachStep, b.cfg.maxCorrectionStep, b.cfg.maxTargetStep);
  }

  /** What is known of one joint's gaps `(n, c)` after ticks that could have covered `path` of the
      nominal gap `n0` and `reach` of the correction gap `c0`. */
  ghost predicate GapsWithin(n0: real, c0: real, n: real, c: real, path: real, reach: real) {
    && 0.0 <= n <= Max(0.0, n0 - path)
    && 0.0 <= c && n + c <= n0 + c0
    && (n0 == 0.0 ==> c <= Max(0.0, c0 - reach))
  }

  lemma GapsAfterTick(n0: real, c0: real, n: real, c: real, path: real, reach: real, n': real, c': real, approach: real, step: real)
    requires GapsWithin(n0, c0, n, c, path, reach) && path >= 0.0 && approach > 0.0
    requires n' == Max(0.0, n - approach) && 0.0 <= c' && n' + c' <= n + c && (n == 0.0 ==> c' == Max(0.0, c - step))
    ensures GapsWithin(n0, c0, n', c', path + approach, reach + step)
  {
  }

  /** What is known of joint `i` once ticks that could have covered `path` and `reach` led from `m`
      to `m'`. */
  ghost predicate Closing(b: Bundle, m: Motion, m': Motion, goal: Joints, i: nat, path: real, reach: real)
    requires b.Valid() && i < DOF
  {
    && m'.correction == Minus(m'.target, m'.nominal)
    && GapsWithin(NominalGap(b, m, i), CorrectionGap(b, m, goal, i), NominalGap(b, m', i), CorrectionGap(b, m', goal, i), path, reach)
  }

  lemma ClosingStarts(b: Bundle, m: Motion, goal: Joints, i: nat)
    requires b.Valid() && i < DOF && m.correction == Minus(m.target, m.nominal)
    ensures Closing(b, m, m, goal, i, 0.0, 0.0)
  {
  }

  lemma ClosingGoesOn(b: Bundle, m: Motion, before: Motion, goal: Joints, i: nat, path: real, reach: real)
    requires b.Valid() && i < DOF && Closing(b, m, before, goal, i, path, reach) && path >= 0.0
    ensures Closing(b, m, MotionTick(b, before, goal), goal, i, path + b.cfg.approachStep, reach + CorrectionStep(b))
  {
    var after := MotionTick(b, before, goal);
    hide MotionTick;
    hide Minus;
    hide NominalGap;
    hide CorrectionGap;
    hide CorrectionStep;
    hide GapsWithin;
    MotionTickGaps(b, before, goal, i);
    GapsAfterTick(NominalGap(b, m, i), CorrectionGap(b, m, goal, i), NominalGap(b, before, i), CorrectionGap(b, before, goal, i),
                  path, reach, NominalGap(b, after, i), CorrectionGap(b, after, goal, i), b.cfg.approachStep, CorrectionStep(b));
  }

  lemma StepIsPositive(b: Bundle)
    requires b.Valid()
    ensures CorrectionStep(b) > 0.0
  {
  }

  lemma {:induction false} MotionAfterGaps(b: Bundle, m: Motion, goal: Joints, ticks: nat, i: nat)
    requires b.Valid() && i < DOF && m.correction == Minus(m.target, m.nominal)
    ensures Closing(b, m, MotionAfter(b, m, goal, ticks), goal, i, Repeated(ticks, b.cfg.approachStep), Repeated(ticks, CorrectionStep(b)))
  {
    hide Closing;
    hide MotionTick;
    hide Repeated;
    hide CorrectionStep;
    StepIsPositive(b);
    RepeatedOnce(ticks, b.cfg.approachStep);
    RepeatedOnce(ticks, CorrectionStep(b));
    if ticks == 0 {
      ClosingStarts(b, m, goal, i);
    } else {
      MotionAfterGaps(b, m, goal, ticks - 1, i);
      ClosingGoesOn(b, m, MotionAfter(b, m, goal, ticks - 1), goal, i,
                    Repeated(ticks - 1, b.cfg.approachStep), Repeated(ticks - 1, CorrectionStep(b)));
    }
  }

  /** `ticks` times `step`. */
  function Repeated(ticks: nat, step: real): real { ticks as real * step }

  lemma RepeatedOnce(ticks: nat, step: real)
    requires step > 0.0
    ensures Repeated(ticks, step) >= 0.0
    ensures if ticks == 0 then Repeated(ticks, step) == 0.0 else
              Repeated(ticks - 1, step) >= 0.0 && Repeated(ticks, step) == Repeated(ticks - 1, step) + step
  {
  }

  lemma {:induction false} MotionComposes(b: Bundle, m: Motion, goal: Joints, first: nat, second: nat)
    requires b.Valid()
    ensures MotionAfter(b, m, goal, first + second) == MotionAfter(b, MotionAfter(b, m, goal, first), goal, second)
  {
    hide MotionTick;
    if second > 0 { MotionComposes(b, m, goal, first, second - 1); }
  }

  /** `first` ticks cover the nominal path and `second` ticks what the correction then lacks. */
  ghost predicate EnoughTicks(b: Bundle, m: Motion, goal: Joints, first: nat, second: nat)
    requires b.Valid()
  {
    forall i :: 0 <= i < DOF ==> EnoughAt(b, m, goal, first, second, i)
  }

  lemma EnoughForGap(gap: real, step: real) returns (n: nat)
    requires gap >= 0.0 && step > 0.0
    ensures gap <= Repeated(n, step)
  {
    var share := gap / step;
    assert share * step == gap && share >= 0.0;
    n := share.Floor + 1;
    RepeatedAtLeast(n, share, step);
  }

  lemma RepeatedAtLeast(n: nat, share: real, step: real)
    requires n as real >= share && step > 0.0
    ensures Repeated(n, step) >= share * step
  {
    ProductSign(n as real - share, step);
    assert Product(n as real - share, step) == Repeated(n, step) - share * step;
  }

  lemma RepeatedGrows(n: nat, m: nat, step: real)
    requires n <= m && step > 0.0
    ensures Repeated(n, step) <= Repeated(m, step)
  {
    RepeatedAtLeast(m, n as real, step);
  }

  /** Such numbers always exist, whatever the gaps. */
  lemma EnoughTicksExist(b: Bundle, m: Motion, goal: Joints) returns (first: nat, second: nat)
    requires b.Valid()
    ensures EnoughTicks(b, m, goal, first, second)
  {
    first, second := EnoughForJoints(b, m, goal, DOF);
  }

  ghost predicate EnoughAt(b: Bundle, m: Motion, goal: Joints, first: nat, second: nat, i: nat)
    requires b.Valid() && i < DOF
  {
    && NominalGap(b, m, i) <= Repeated(first, b.cfg.approachStep)
    && NominalGap(b, m, i) + CorrectionGap(b, m, goal, i) <= Repeated(second, CorrectionStep(b))
  }

  lemma {:induction false} EnoughForJoints(b: Bundle, m: Motion, goal: Joints, n: nat) returns (first: nat, second: nat)
    requires b.Valid() && n <= DOF
    ensures forall i :: 0 <= i < n ==> EnoughAt(b, m, goal, first, second, i)
  {
    hide Repeated;
    first, second := 0, 0;
    if n > 0 {
      var f, s := EnoughForJoints(b, m, goal, n - 1);
      var f', s' := EnoughForOne(b, m, goal, n - 1);
      first, second := if f < f' then f' else f, if s < s' then s' else s;
      RepeatedGrows(f, first, b.cfg.approachStep);
      RepeatedGrows(f', first, b.cfg.approachStep);
      RepeatedGrows(s, second, CorrectionStep(b));
      RepeatedGrows(s', second, CorrectionStep(b));
      hide NominalGap;
      hide CorrectionGap;
      forall i | 0 <= i < n ensures EnoughAt(b, m, goal, first, second, i) {
        assert i < n - 1 ==> EnoughAt(b, m, goal, f, s, i);
      }
    }
  }

  lemma EnoughForOne(b: Bundle, m: Motion, goal: Joints, i: nat) returns (first: nat, second: nat)
    requires b.Valid() && i < DOF
    ensures EnoughAt(b, m, goal, first, second, i)
  {
    hide Repeated;
    first := EnoughForGap(NominalGap(b, m, i), b.cfg.approachStep);
    second := EnoughForGap(NominalGap(b, m, i) + CorrectionGap(b, m, goal, i), CorrectionStep(b));
  }

  /** With the goal held and nothing in the way, the target equals nominal plus correction at every
      tick and reaches the corrected approach pose exactly, within an explicit number of ticks,
      whether or not the outer step clip is active. */
  lemma MotionArrives(b: Bundle, m: Motion, goal: Joints, first: nat, second: nat)
    requires b.Valid() && m.correction == Minus(m.target, m.nominal) && EnoughTicks(b, m, goal, first, second)
    ensures var m' := MotionAfter(b, m, goal, first + second);
      && m'.nominal == b.ReferenceApproach()
      && m'.correction == Minus(goal, b.ReferenceGrasp())
      && m'.target == Plus(b.ReferenceApproach(), Minus(goal, b.ReferenceGrasp()))
  {
    var middle, m' := MotionAfter(b, m, goal, first), MotionAfter(b, m, goal, first + second);
    MotionComposes(b, m, goal, first, second);
    hide MotionAfter;
    hide MotionTick;
    hide NominalGap;
    hide CorrectionGap;
    hide Repeated;
    hide CorrectionStep;
    hide Minus;
    hide Plus;
    hide EnoughAt;
    hide GapsWithin;
    forall i | 0 <= i < DOF
      ensures m'.nominal[i] == b.ReferenceApproach()[i]
      ensures m'.correction[i] == Minus(goal, b.ReferenceGrasp())[i]
    {
      assert EnoughAt(b, m, goal, first, second, i);
      JointArrives(b, m, middle, m', goal, first, second, i);
    }
    MotionAfterGaps(b, m, goal, first + second, 0);
    SameJoints(m'.nominal, b.ReferenceApproach());
    SameJoints(m'.correction, Minus(goal, b.ReferenceGrasp()));
    TargetFromParts(m'.nominal, m'.target);
  }

  lemma TargetFromParts(nominal: Joints, target: Joints)
    ensures target == Plus(nominal, Minus(target, nominal))
  {
  }

  lemma JointArrives(b: Bundle, m: Motion, middle: Motion, m': Motion, goal: Joints, first: nat, second: nat, i: nat)
    requires b.Valid() && m.correction == Minus(m.target, m.nominal) && i < DOF
    requires EnoughAt(b, m, goal, first, second, i)
    requires middle == MotionAfter(b, m, goal, first) && m' == MotionAfter(b, middle, goal, second)
    ensures m'.nominal[i] == b.ReferenceApproach()[i] && m'.correction[i] == Minus(goal, b.ReferenceGrasp())[i]
  {
    assert Minus(goal, b.ReferenceGrasp())[i] == goal[i] - b.ReferenceGrasp()[i];
    RepeatedOnce(second, b.cfg.approachStep);
    MotionAfterGaps(b, m, goal, first, i);
    MotionAfterGaps(b, middle, goal, second, i);
    hide MotionAfter;
    hide Minus;
    hide Repeated;
    hide CorrectionStep;
  }

  // ---- The planner's own approach ticks -----------------------------------------------

  lemma HeldGoalIsFixed(b: Bundle, c: Committed)
    requires b.Valid()
    ensures FilteredGoal(b, c, c.goal) == c.goal
  {
  }

  /** An approach tick that tracks the goal it already has, held or solved afresh, whose gate stays
      closed before the deadline, and whose target the envelopes accept as drafted. */
  ghost predicate Unimpeded(b: Bundle, c: Committed, obs: Observation)
    requires b.Valid()
  {
    && CommittedOk(b, c) && Indexed(b, c) && c.phase == Approach && obs.centersFound
    && RawGoal(b, c, obs, LockedHeight(b, c, obs.observedHeight)) == Reached(c.goal)
    && !CaptureGate(b, c, obs, NextPreshape(b, c) >= b.cfg.catchIndex - 1).accepted
    && !HasPassed(b, obs, NextPreshape(b, c) >= b.cfg.catchIndex - 1)
    && c.sequence < b.LastStart()
    && var m := MotionTick(b, MotionOf(c), c.goal);
       SafeTarget(b, c.target, m.nominal, m.target, HandAt(b, OpenSample(b, c))).Safe?
  }

  function OpenSample(b: Bundle, c: Committed): int
    requires b.Valid()
    ensures InTemplate(b, OpenSample(b, c))
  {
    if 0 <= NextPreshape(b, c) < b.cfg.steps then NextPreshape(b, c) else 0
  }

  /** Such a tick moves the committed nominal, correction and target by exactly one motion tick and
      keeps the goal. */
  lemma UnimpededTick(b: Bundle, c: Committed, obs: Observation)
    requires b.Valid() && Unimpeded(b, c, obs)
    ensures NormalPlan(b, c, c.sequence + 1, obs).Planned?
    ensures var next := CommitOf(b, c, NormalPlan(b, c, c.sequence + 1, obs).p);
      MotionOf(next) == MotionTick(b, MotionOf(c), c.goal) && next.goal == c.goal && next.phase == Approach
  {
    HeldGoalIsFixed(b, c);
    DraftsInTemplate(b, c, c.sequence, obs);
    hide RawGoal;
    hide LockedHeight;
    hide HasPassed;
    hide FilteredGoal;
    hide CaptureGate;
    hide SlewEach;
    hide Minus;
    hide Plus;
    hide SafeTarget;
    hide GoalReserved;
    hide CommandEnveloped;
    hide PhaseEvidence;
    hide Rungs;
    hide FirstBackoff;
  }

  /** Consecutive commits of unimpeded approach ticks. */
  ghost predicate UnimpededChain(b: Bundle, cs: seq<Committed>, seen: seq<Observation>)
    requires b.Valid()
  {
    && |cs| == |seen| + 1
    && forall i :: 0 <= i < |seen| ==> UnimpededStep(b, cs[i], seen[i], cs[i + 1])
  }

  ghost predicate UnimpededStep(b: Bundle, c: Committed, obs: Observation, next: Committed)
    requires b.Valid()
  {
    && Unimpeded(b, c, obs)
    && NormalPlan(b, c, c.sequence + 1, obs).Planned?
    && next == CommitOf(b, c, NormalPlan(b, c, c.sequence + 1, obs).p)
  }

  lemma UnimpededStepMoves(b: Bundle, c: Committed, obs: Observation, next: Committed)
    requires b.Valid() && UnimpededStep(b, c, obs, next)
    ensures MotionOf(next) == MotionTick(b, MotionOf(c), c.goal) && next.goal == c.goal
  {
    UnimpededTick(b, c, obs);
    hide MotionTick;
    hide MotionOf;
    hide NormalPlan;
    hide CommitOf;
    hide Unimpeded;
  }

  lemma {:induction false} ChainIsMotion(b: Bundle, cs: seq<Committed>, seen: seq<Observation>, i: nat)
    requires b.Valid() && UnimpededChain(b, cs, seen) && i < |cs|
    ensures MotionOf(cs[i]) == MotionAfter(b, MotionOf(cs[0]), cs[0].goal, i) && cs[i].goal == cs[0].goal
  {
    hide MotionTick;
    hide MotionOf;
    hide UnimpededStep;
    if i > 0 {
      ChainIsMotion(b, cs, seen, i - 1);
      assert UnimpededStep(b, cs[i - 1], seen[i - 1], cs[i - 1 + 1]);
      UnimpededStepMoves(b, cs[i - 1], seen[i - 1], cs[i]);
    }
  }

  /** The planner's approach with an unchanged goal: after finitely many unimpeded ticks, as many as the
      nominal and correction gaps ask for, the committed target is the reference approach pose
      shifted by the goal's correction, exactly. */
  lemma ApproachArrives(b: Bundle, cs: seq<Committed>, seen: seq<Observation>, first: nat, second: nat)
    requires b.Valid() && UnimpededChain(b, cs, seen) && CommittedOk(b, cs[0])
    requires EnoughTicks(b, MotionOf(cs[0]), cs[0].goal, first, second) && |seen| == first + second
    ensures cs[|seen|].target == Plus(b.ReferenceApproach(), Minus(cs[0].goal, b.ReferenceGrasp()))
  {
    ChainIsMotion(b, cs, seen, first + second);
    hide CommandEnveloped;
    hide GoalReserved;
    MotionArrives(b, MotionOf(cs[0]), cs[0].goal, first, second);
    hide MotionAfter;
    hide EnoughTicks;
    hide UnimpededChain;
  }

  /** While the raw goal moves, the filter closes in on it without overshooting: each joint's error
      shrinks by the filtered fraction or by the correction step, whichever is smaller. */
  lemma FilterClosesIn(b: Bundle, c: Committed, raw: Joints, i: nat)
    requires b.Valid() && i < DOF
    ensures Abs(raw[i] - FilteredGoal(b, c, raw)[i]) ==
      Abs(raw[i] - c.goal[i]) - Min(b.cfg.filterAlpha * Abs(raw[i] - c.goal[i]), b.cfg.maxCorrectionStep)
    ensures Abs(FilteredGoal(b, c, raw)[i] - c.goal[i]) == Min(b.cfg.filterAlpha * Abs(raw[i] - c.goal[i]), b.cfg.maxCorrectionStep)
  {
    var alpha, gap := b.cfg.filterAlpha, raw[i] - c.goal[i];
    assert Times(alpha, Minus(raw, c.goal))[i] == alpha * gap;
    assert FilteredGoal(b, c, raw)[i] == Slew(c.goal[i], c.goal[i] + alpha * gap, b.cfg.maxCorrectionStep);
    hide FilteredGoal;
    hide Minus;
    hide Times;
    hide Slew;
    hide Abs;
    hide Min;
    FilterPart(alpha, gap, alpha * gap);
    FilterAt(c.goal[i], gap, alpha * gap, b.cfg.maxCorrectionStep);
  }

  lemma FilterPart(alpha: real, gap: real, part: real)
    requires 0.0 < alpha <= 1.0 && part == alpha * gap
    ensures (gap >= 0.0 ==> 0.0 <= part <= gap) && (gap <= 0.0 ==> gap <= part <= 0.0) && Abs(part) == alpha * Abs(gap)
  {
    ScaledBetween(alpha, gap);
    if gap < 0.0 { assert alpha * -gap == -part; }
  }

  lemma FilterAt(goal: real, gap: real, part: real, step: real)
    requires step > 0.0 && (gap >= 0.0 ==> 0.0 <= part <= gap) && (gap <= 0.0 ==> gap <= part <= 0.0)
    ensures Abs(goal + gap - Slew(goal, goal + part, step)) == Abs(gap) - Min(Abs(part), step)
    ensures Abs(Slew(goal, goal + part, step) - goal) == Min(Abs(part), step)
  {
  }
}
