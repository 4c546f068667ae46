/** What the calls of a run have to do with the state they lead to: which call staged each commit,
    and which feedback call left the remembered sample. */
module TabletopOrigins {
  import opened Wrappers
  import opened JointMath
  import opened Scalars
  import opened TabletopModel
  import opened TabletopSafety
  import opened TabletopTicks
  import opened TabletopInvariant
  import opened TabletopRuns
  import Ik = PoseIk

  lemma RunExtends(b: Bundle, calls: seq<Call>)
    requires b.Valid() && calls != []
    ensures Run(b, calls) == Next(b, Run(b, calls[..|calls| - 1]), calls[|calls| - 1])
  {
  }

  // ---- The call behind a commit -------------------------------------------------------

  /** The call that staged what is pending after `calls`. */
  ghost function StagedBy(b: Bundle, calls: seq<Call>): Option<Call>
    requires b.Valid()
  {
    if calls == [] || Run(b, calls).s.pending.None? then None
    else if Run(b, calls[..|calls| - 1]).s.pending.None? then Some(calls[|calls| - 1])
    else StagedBy(b, calls[..|calls| - 1])
  }

  /** The calls that staged the commits of the log, in order. */
  ghost function Origins(b: Bundle, calls: seq<Call>): seq<Option<Call>>
    requires b.Valid()
  {
    if calls == [] then [] else
    var before := calls[..|calls| - 1];
    Origins(b, before) + (if |Run(b, calls).log| > |Run(b, before).log| then [StagedBy(b, before)] else [])
  }

  /** The contact numbers of a committed approach are those of its observation. */
  predicate SeenIn(obs: Observation, evidence: Option<ContactEvidence>) {
    evidence.Some? && evidence.value == obs.contact.(preshapeReady := evidence.value.preshapeReady, geometrySafe := obs.gate.geometrySafe)
  }

  /** What the staging call vouches for beyond the envelopes: an occluded target clears the table with
      the open hand, a visual closing target of version 5 with the measured hand, and only a visual
      tick stages an approach, with the contact numbers it saw. */
  ghost predicate Vouches(b: Bundle, call: Call, template: int, phase: Phase, target: Joints, evidence: Option<ContactEvidence>)
    requires b.Valid()
  {
    && (call.NormalTick? || call.OccludedTick? || call.FrozenTick?)
    && (call.OccludedTick? ==> b.geometry.fingertip(target, b.hands[b.cfg.catchIndex - 1]) >= b.cfg.minFingertip)
    && (call.NormalTick? && b.cfg.mpcCapture && b.cfg.catchIndex <= template <= b.cfg.closureEnd ==>
          call.obs.measuredTips.Some? && call.obs.measuredTips.value(target) >= b.cfg.minFingertip)
    && (phase == Approach ==> call.NormalTick? && SeenIn(call.obs, evidence))
  }

  ghost predicate VouchesFor(b: Bundle, call: Option<Call>, p: Proposal)
    requires b.Valid()
  {
    call.Some? && Vouches(b, call.value, p.template, p.phase, p.target, p.evidence)
  }

  /** What the draft of a visual tick is checked against and carries along. */
  ghost predicate DraftSeen(b: Bundle, c: Committed, obs: Observation, d: Draft)
    requires b.Valid()
  {
    && (b.cfg.mpcCapture && b.cfg.catchIndex <= d.template <= b.cfg.closureEnd ==> d.check == ClosureCheck(MeasuredTips(obs.measuredTips)))
    && (d.phase == Approach ==> c.phase == Approach && SeenIn(obs, d.evidence))
  }

  lemma TrackedDraftSeen(b: Bundle, c: Committed, index: int, obs: Observation, goal: Joints, height: real)
    requires b.Valid() && CommittedOk(b, c)
    ensures c.phase == Approach && ApproachDraft(b, c, index, obs, goal, height).Drafted? ==>
      DraftSeen(b, c, obs, ApproachDraft(b, c, index, obs, goal, height).d)
    ensures c.phase == Closure && ClosureDraft(b, c, obs, goal, height).Drafted? ==>
      DraftSeen(b, c, obs, ClosureDraft(b, c, obs, goal, height).d)
  {
    hide ApproachTarget;
    hide CaptureGate;
    hide ClosureTarget;
    hide ClosureNominal;
    hide SlewEach;
    hide CommandEnveloped;
    hide GoalReserved;
    hide PhaseEvidence;
  }

  lemma PostClosureDraftSeen(b: Bundle, c: Committed, obs: Observation)
    requires b.Valid() && CommittedOk(b, c)
    ensures c.phase == Lift && LiftDraft(b, c).Drafted? ==> DraftSeen(b, c, obs, LiftDraft(b, c).d)
    ensures c.phase == Hold && HoldDraft(b, c).Drafted? ==> DraftSeen(b, c, obs, HoldDraft(b, c).d)
  {
    hide Along;
    hide LiftFraction;
    hide CommandEnveloped;
    hide GoalReserved;
  }

  lemma DraftForSeen(b: Bundle, c: Committed, index: int, obs: Observation)
    requires b.Valid() && CommittedOk(b, c) && Indexed(b, c) && DraftFor(b, c, index, obs).Drafted?
    ensures DraftSeen(b, c, obs, DraftFor(b, c, index, obs).d)
  {
    hide CommittedOk;
    hide ApproachDraft;
    hide ClosureDraft;
    hide LiftDraft;
    hide HoldDraft;
    hide RawGoal;
    hide FilteredGoal;
    hide DraftSeen;
    PostClosureDraftSeen(b, c, obs);
    var height := LockedHeight(b, c, obs.observedHeight);
    var raw := RawGoal(b, c, obs, height);
    if raw.Reached? {
      TrackedDraftSeen(b, c, index, obs, FilteredGoal(b, c, raw.q), height);
    }
  }

  lemma LadderVouches(b: Bundle, c: Committed, sequence: int, obs: Observation, d: Draft, e: Draft)
    requires b.Valid() && CommittedOk(b, c) && DraftSeen(b, c, obs, d) && Leaves(b, c, d, e)
    ensures Vouches(b, NormalTick(sequence, obs), e.template, e.phase, e.target, e.evidence)
  {
    SafeMeansEnveloped(b, d.check, c.target, e.nominal, e.target, HandAt(b, e.template));
    hide Validate;
    hide Enveloped;
    hide CommandEnveloped;
    hide GoalReserved;
    hide PhaseEvidence;
    hide LiftInMargin;
  }

  lemma NormalPlanVouches(b: Bundle, c: Committed, sequence: int, obs: Observation)
    requires b.Valid() && CommittedOk(b, c) && Indexed(b, c) && NormalPlan(b, c, sequence, obs).Planned?
    ensures VouchesFor(b, Some(NormalTick(sequence, obs)), NormalPlan(b, c, sequence, obs).p)
  {
    hide CommittedOk;
    hide DraftFor;
    hide Ladder;
    hide Leaves;
    hide Vouches;
    hide GraspLift;
    hide Minus;
    DraftsInTemplate(b, c, sequence - 1, obs);
    var d := DraftFor(b, c, sequence - 1, obs).d;
    DraftForSeen(b, c, sequence - 1, obs);
    LadderKeepsEnvelopes(b, c, d);
    var e := Ladder(b, c, d).d;
    LadderVouches(b, c, sequence, obs, d, e);
    StageKeepsDraft(b, c, sequence, e);
    hide Stage;
  }

  lemma StageKeepsDraft(b: Bundle, c: Committed, sequence: int, e: Draft)
    requires Stage(b, c, sequence, e).Planned?
    ensures var p := Stage(b, c, sequence, e).p;
      p.template == e.template && p.phase == e.phase && p.target == e.target && p.evidence == e.evidence
  {
    hide GraspLift;
    hide Minus;
  }

  lemma BlindPlansVouch(b: Bundle, c: Committed, sequence: int, reasonAllowed: bool)
    requires b.Valid() && CommittedOk(b, c) && Indexed(b, c)
    ensures OccludedPlan(b, c, sequence, reasonAllowed).Planned? ==>
      VouchesFor(b, Some(OccludedTick(sequence, reasonAllowed)), OccludedPlan(b, c, sequence, reasonAllowed).p)
    ensures FrozenPlan(b, c, sequence, reasonAllowed).Planned? ==>
      VouchesFor(b, Some(FrozenTick(sequence, reasonAllowed)), FrozenPlan(b, c, sequence, reasonAllowed).p)
  {
    hide CommittedOk;
    hide OccludedPlan;
    hide FrozenPlan;
    hide ProposalOk;
    BlindPlansCarryTheirSequence(b, c, sequence, reasonAllowed);
    if OccludedPlan(b, c, sequence, reasonAllowed).Planned? { OccludedPlanOk(b, c, sequence, reasonAllowed); }
  }

  /** A call that fills the empty slot vouches for what it staged; no call replaces what is pending. */
  lemma StagingVouches(b: Bundle, s: State, call: Call)
    requires b.Valid() && StateOk(b, s)
    ensures StateAfter(b, s, call).pending.Some? ==>
      if s.pending.Some? then StateAfter(b, s, call).pending == s.pending
      else VouchesFor(b, Some(call), StateAfter(b, s, call).pending.value)
  {
    hide StateOk;
    hide VouchesFor;
    hide CommittedOk;
    hide NormalPlan;
    hide OccludedPlan;
    hide FrozenPlan;
    hide ContactFires;
    hide GraspLift;
    hide UsableFeedback;
    hide CommitOf;
    StateIsIndexed(b, s);
    StateGivesCommitted(b, s);
    if call.NormalTick? {
      NormalPlanIndexed(b, s.c, call.sequence, call.obs);
      if NormalPlan(b, s.c, call.sequence, call.obs).Planned? { NormalPlanVouches(b, s.c, call.sequence, call.obs); }
    } else if call.OccludedTick? || call.FrozenTick? {
      OccludedPlanIndexed(b, s.c, call.sequence, call.reasonAllowed);
      FrozenPlanIndexed(b, s.c, call.sequence, call.reasonAllowed);
      BlindPlansVouch(b, s.c, call.sequence, call.reasonAllowed);
    }
  }

  lemma StateGivesCommitted(b: Bundle, s: State)
    requires b.Valid() && StateOk(b, s)
    ensures CommittedOk(b, s.c)
  {
  }

  ghost predicate EntryVouched(b: Bundle, call: Option<Call>, entry: Committed)
    requires b.Valid()
  {
    call.Some? && Vouches(b, call.value, entry.template, entry.phase, entry.target, entry.evidence)
  }

  ghost predicate AllVouched(b: Bundle, z: Session, staged: Option<Call>, origins: seq<Option<Call>>)
    requires b.Valid()
  {
    && |origins| == |z.log|
    && (forall i :: 0 <= i < |z.log| ==> EntryVouched(b, origins[i], z.log[i]))
    && (z.s.pending.Some? ==> VouchesFor(b, staged, z.s.pending.value))
    && (z.log != [] ==> z.s.c.evidence == z.log[|z.log| - 1].evidence)
    && (z.log != [] && !z.s.c.forceContact ==> z.s.c.phase == z.log[|z.log| - 1].phase)
  }

  lemma QuietCallVouched(b: Bundle, z: Session, staged: Option<Call>, origins: seq<Option<Call>>, call: Call, z': Session)
    requires b.Valid() && AllVouched(b, z, staged, origins) && z'.log == z.log && z'.s.c.evidence == z.s.c.evidence
    requires !z'.s.c.forceContact ==> !z.s.c.forceContact && z'.s.c.phase == z.s.c.phase
    requires z'.s.pending.Some? ==>
      if z.s.pending.Some? then z'.s.pending == z.s.pending else VouchesFor(b, Some(call), z'.s.pending.value)
    ensures AllVouched(b, z', if z'.s.pending.None? then None else if z.s.pending.None? then Some(call) else staged, origins)
  {
    hide VouchesFor;
    hide EntryVouched;
  }

  lemma CommitVouched(b: Bundle, z: Session, staged: Option<Call>, origins: seq<Option<Call>>, z': Session)
    requires b.Valid() && AllVouched(b, z, staged, origins) && z.s.pending.Some? && z'.s.pending.None?
    requires z'.s.c == CommitOf(b, z.s.c, z.s.pending.value) && z'.log == z.log + [z'.s.c]
    ensures AllVouched(b, z', None, origins + [staged])
  {
    hide Vouches;
  }

  /** Over every run, the call that staged a commit vouches for it: closing targets clear the table
      with the open hand when occluded and with the measured hand when seen, and an approach carries
      the contact numbers of its own observation. */
  lemma {:induction false} EveryCommitIsVouched(b: Bundle, calls: seq<Call>)
    requires b.Valid()
    ensures AllVouched(b, Run(b, calls), StagedBy(b, calls), Origins(b, calls))
  {
    if calls != [] {
      var before, call := calls[..|calls| - 1], calls[|calls| - 1];
      EveryCommitIsVouched(b, before);
      RunExtends(b, calls);
      var z, z' := Run(b, before), Run(b, calls);
      hide Run;
      hide AllVouched;
      hide VouchesFor;
      StagingVouches(b, z.s, call);
      NextLogs(b, z, call);
      hide Next;
      hide StateAfter;
      if z'.log == z.log {
        QuietCallVouched(b, z, StagedBy(b, before), Origins(b, before), call, z');
        assert Origins(b, before) + [] == Origins(b, before);
      } else {
        CommitVouched(b, z, StagedBy(b, before), Origins(b, before), z');
      }
      hide CommitOf;
    }
  }

  /** How a call extends the log. */
  lemma NextLogs(b: Bundle, z: Session, call: Call)
    requires b.Valid() && StateOk(b, z.s)
    ensures var z' := Next(b, z, call);
      && z'.s == StateAfter(b, z.s, call)
      && ((z'.log == z.log && z'.s.c.evidence == z.s.c.evidence
           && (!z'.s.c.forceContact ==> !z.s.c.forceContact && z'.s.c.phase == z.s.c.phase))
          || (z.s.pending.Some? && z'.s.pending.None? && z'.s.c == CommitOf(b, z.s.c, z.s.pending.value) && z'.log == z.log + [z'.s.c]))
  {
    StateIsIndexed(b, z.s);
    hide StateOk;
    if !call.Commit? {
      TickOnlyStages(b, z.s, call);
      hide Apply;
    }
    hide CommitOf;
  }

  // ---- The remembered feedback sample -------------------------------------------------

  /** Call `j` was a usable feedback sample for the sequence committed last, with nothing pending. */
  ghost predicate Sampled(b: Bundle, calls: seq<Call>, j: nat)
    requires b.Valid() && j < |calls|
  {
    calls[j].HandFeedback? && UsableFeedback(calls[j].feedback) && Binds(Run(b, calls[..j]).s, calls[j].sequence)
  }

  predicate Binds(s: State, sequence: int) { s.pending.None? && sequence == s.c.sequence }

  ghost predicate LastSample(b: Bundle, calls: seq<Call>, j: nat)
    requires b.Valid()
  {
    j < |calls| && calls[j].HandFeedback? && Sampled(b, calls, j) && forall i :: j < i < |calls| ==> !Sampled(b, calls, i)
  }

  /** The remembered forces and sequence are those of the last such call of the run. */
  ghost predicate RemembersSample(b: Bundle, calls: seq<Call>, c: Committed)
    requires b.Valid()
  {
    if c.feedbackForces.None? then forall i :: 0 <= i < |calls| ==> !Sampled(b, calls, i)
    else exists j: nat :: LastSample(b, calls, j) && c.feedbackSequence == calls[j].sequence && c.feedbackForces.value == calls[j].feedback.forces
  }

  /** Only such a call changes what is remembered. */
  lemma FeedbackFields(b: Bundle, s: State, call: Call)
    requires b.Valid() && StateOk(b, s)
    ensures var c' := StateAfter(b, s, call).c;
      if call.HandFeedback? && UsableFeedback(call.feedback) && Binds(s, call.sequence)
      then c'.feedbackSequence == call.sequence && c'.feedbackForces == Some(call.feedback.forces)
      else c'.feedbackSequence == s.c.feedbackSequence && c'.feedbackForces == s.c.feedbackForces
  {
    hide StateOk;
    hide NormalPlan;
    hide OccludedPlan;
    hide FrozenPlan;
    hide AfterFeedback;
    StateIsIndexed(b, s);
    if call.HandFeedback? { FeedbackIsRemembered(b, s.c, call.feedback); }
  }

  /** A feedback call for another sequence than the last committed one is refused; of the others, one that
      is not fresh, has not six forces and six errors, or reports an error changes nothing, and every
      other one is remembered. */
  lemma FeedbackIsTakenIff(b: Bundle, s: State, sequence: int, f: Feedback)
    requires b.Valid() && StateOk(b, s) && s.pending.None?
    ensures var call := HandFeedback(sequence, f); var c' := StateAfter(b, s, call).c;
      if sequence != s.c.sequence then c' == s.c && ReplyTo(b, s, call) == Raised(FeedbackUnbound)
      else if !f.isFresh || |f.forces| != 6 || |f.errors| != 6 || (exists axis :: 0 <= axis < 6 && f.errors[axis] != 0)
      then c' == s.c && ReplyTo(b, s, call) == Done
      else c'.feedbackSequence == sequence && c'.feedbackForces == Some(f.forces)
  {
    hide StateOk;
    hide ContactFires;
    hide GraspLift;
    StateIsIndexed(b, s);
  }

  lemma FeedbackIsRemembered(b: Bundle, c: Committed, f: Feedback)
    ensures var c' := AfterFeedback(b, c, f);
      if UsableFeedback(f) then c'.feedbackSequence == c.sequence && c'.feedbackForces == Some(f.forces) else c' == c
  {
    hide ContactFires;
    hide GraspLift;
  }

  lemma SampledBefore(b: Bundle, calls: seq<Call>, n: nat, j: nat)
    requires b.Valid() && j < n <= |calls|
    ensures Sampled(b, calls[..n], j) == Sampled(b, calls, j)
  {
    assert calls[..n][..j] == calls[..j];
  }

  lemma {:induction false} RemembersLastSample(b: Bundle, calls: seq<Call>)
    requires b.Valid()
    ensures RemembersSample(b, calls, Run(b, calls).s.c)
  {
    if calls != [] {
      var n := |calls| - 1;
      RemembersLastSample(b, calls[..n]);
      RunExtends(b, calls);
      var z := Run(b, calls[..n]);
      NextLogs(b, z, calls[n]);
      FeedbackFields(b, z.s, calls[n]);
      hide Run;
      hide Next;
      hide StateAfter;
      RememberOneMore(b, calls, z.s.c, Run(b, calls).s.c);
    }
  }

  lemma RememberOneMore(b: Bundle, calls: seq<Call>, c: Committed, c': Committed)
    requires b.Valid() && calls != [] && RemembersSample(b, calls[..|calls| - 1], c)
    requires if Sampled(b, calls, |calls| - 1)
             then calls[|calls| - 1].HandFeedback? && c'.feedbackSequence == calls[|calls| - 1].sequence && c'.feedbackForces == Some(calls[|calls| - 1].feedback.forces)
             else c'.feedbackSequence == c.feedbackSequence && c'.feedbackForces == c.feedbackForces
    ensures RemembersSample(b, calls, c')
  {
    hide Sampled;
    var n := |calls| - 1;
    forall i | 0 <= i < n ensures Sampled(b, calls[..n], i) == Sampled(b, calls, i) {
      SampledBefore(b, calls, n, i);
    }
    if Sampled(b, calls, n) {
      assert LastSample(b, calls, n);
    } else if c.feedbackForces.Some? {
      var j: nat :| LastSample(b, calls[..n], j) && c.feedbackSequence == calls[..n][j].sequence
                    && c.feedbackForces.value == calls[..n][j].feedback.forces;
      assert LastSample(b, calls, j);
    }
  }

  // ---- Contact ------------------------------------------------------------------------

  /** A force of at least 200 counts either way that has changed by at least 150. */
  predicate Rises(before: int, now: int) {
    (now >= 200 || now <= -200) && (now - before >= 150 || before - now >= 150)
  }

  /** Two of the four fingers rise to contact between two samples. */
  ghost predicate TwoFingersTouch(before: Hand, now: Hand) {
    exists i, k :: 0 <= i < k < 4 && Rises(before[i], now[i]) && Rises(before[k], now[k])
  }

  lemma ContactIsRise(before: Hand, now: Hand, axis: int)
    requires 0 <= axis < 6
    ensures AxisInContact(before, now, axis) <==> Rises(before[axis], now[axis])
  {
  }

  lemma TwoAxesAreTwoFingers(before: Hand, now: Hand)
    ensures ContactAxes(before, now, 4) >= CONTACT_AXES <==> TwoFingersTouch(before, now)
  {
    hide AxisInContact;
    hide Rises;
    forall axis | 0 <= axis < 4 ensures AxisInContact(before, now, axis) <==> Rises(before[axis], now[axis]) {
      ContactIsRise(before, now, axis);
    }
    assert ContactAxes(before, now, 4) == ContactAxes(before, now, 3) + (if AxisInContact(before, now, 3) then 1 else 0);
    assert ContactAxes(before, now, 3) == ContactAxes(before, now, 2) + (if AxisInContact(before, now, 2) then 1 else 0);
    assert ContactAxes(before, now, 2) == ContactAxes(before, now, 1) + (if AxisInContact(before, now, 1) then 1 else 0);
    assert ContactAxes(before, now, 1) == ContactAxes(before, now, 0) + (if AxisInContact(before, now, 0) then 1 else 0);
  }

  /** The open-hand approach one sample before the catch, with a fresh object near the hand. */
  predicate NearHand(b: Bundle, c: Committed) {
    && b.cfg.mpcCapture && b.cfg.collisionReplan
    && c.phase == Approach && c.template == b.cfg.catchIndex - 1 && c.closureStep == -1 && c.liveFitSeen
    && c.evidence.Some?
    && var e := c.evidence.value;
       && e.preshapeReady && e.geometrySafe && e.tip >= b.cfg.minFingertip
       && e.along * e.along + e.cross * e.cross <= CONTACT_PLANAR_SHELL * CONTACT_PLANAR_SHELL
       && Abs(e.z) <= CONTACT_Z_SHELL
       && 0.0 <= e.speed <= b.cfg.adaptiveSpeedMax + 0.000001
  }

  lemma FiresIffNearAndTouching(b: Bundle, c: Committed, f: Feedback)
    requires UsableFeedback(f)
    ensures ContactFires(b, c, f) <==>
      && !c.forceContact && c.feedbackForces.Some? && c.feedbackSequence == c.sequence - 1
      && NearHand(b, c) && TwoFingersTouch(c.feedbackForces.value, f.forces)
  {
    if c.feedbackForces.Some? { TwoAxesAreTwoFingers(c.feedbackForces.value, f.forces); }
    hide ContactAxes;
    hide TwoFingersTouch;
  }

  /** The earlier call of the run that the contact test compares with: the last usable sample, for the
      sequence before, from which two fingers rise. */
  ghost predicate TouchedSince(b: Bundle, calls: seq<Call>, sequence: int, f: Feedback)
    requires b.Valid() && UsableFeedback(f)
  {
    exists j: nat :: LastSample(b, calls, j) && calls[j].sequence == sequence - 1 && TwoFingersTouch(calls[j].feedback.forces, f.forces)
  }

  lemma FiresIffTouchedSince(b: Bundle, calls: seq<Call>, c: Committed, f: Feedback)
    requires b.Valid() && UsableFeedback(f) && RemembersSample(b, calls, c)
    ensures ContactFires(b, c, f) <==> !c.forceContact && NearHand(b, c) && TouchedSince(b, calls, c.sequence, f)
  {
    hide Sampled;
    hide NearHand;
    hide TwoFingersTouch;
    hide ContactFires;
    FiresIffNearAndTouching(b, c, f);
    forall j: nat, k: nat | LastSample(b, calls, j) && LastSample(b, calls, k) ensures j == k {
      assert !(j < k) && !(k < j);
    }
  }

  /** On every run, a feedback call turns the approach into a closure if and only if it is a usable
      sample for the last commit with nothing pending, an earlier call of the run was the last usable
      sample, for the sequence just before, two fingers rise to contact between those two calls, the
      planner is in the open-hand approach one sample before the catch with a fresh object near the
      hand, contact has not taken over before, and the lift from the committed target is solvable. */
  lemma ContactTakesOverIff(b: Bundle, calls: seq<Call>, sequence: int, f: Feedback)
    requires b.Valid()
    ensures var z := Run(b, calls);
      Next(b, z, HandFeedback(sequence, f)).contacts == z.contacts + 1 <==>
        && UsableFeedback(f) && Binds(z.s, sequence) && z.contacts == 0
        && TouchedSince(b, calls, sequence, f) && NearHand(b, z.s.c) && GraspLift(b, z.s.c.target).Solved?
  {
    var z := Run(b, calls);
    EveryRunKeepsHistory(b, calls);
    RemembersLastSample(b, calls);
    ContactsCount(b, z, sequence, f);
    hide Run;
    hide Next;
    hide NearHand;
    hide RemembersSample;
    hide StateOk;
    hide EntryOk;
    hide ContactFires;
    hide TouchedSince;
    if UsableFeedback(f) { FiresIffTouchedSince(b, calls, z.s.c, f); }
    hide UsableFeedback;
  }

  lemma ContactsCount(b: Bundle, z: Session, sequence: int, f: Feedback)
    requires b.Valid() && StateOk(b, z.s)
    ensures Next(b, z, HandFeedback(sequence, f)).contacts == z.contacts + 1 <==>
      !z.s.c.forceContact && UsableFeedback(f) && Binds(z.s, sequence) && ContactFires(b, z.s.c, f) && GraspLift(b, z.s.c.target).Solved?
  {
    hide StateOk;
    hide ContactFires;
    hide GraspLift;
    hide UsableFeedback;
  }

  /** Then the committed command is untouched and the arm target is the capture. */
  lemma ContactKeepsTarget(b: Bundle, z: Session, sequence: int, f: Feedback)
    requires b.Valid() && HistoryOk(b, z) && Next(b, z, HandFeedback(sequence, f)).contacts == z.contacts + 1
    ensures var after := Next(b, z, HandFeedback(sequence, f)).s.c;
      && after.phase == Closure && after.closureStep == z.s.c.closureStep == -1 && after.fullOccluded && after.currentVolume
      && after.capture == Some(z.s.c.target) && GraspLift(b, z.s.c.target) == Ik.Solved(after.lift.value)
      && after.target == z.s.c.target && after.nominal == z.s.c.nominal && after.template == z.s.c.template == b.cfg.catchIndex - 1
  {
    hide StateOk;
    hide EntryOk;
    hide GraspLift;
    hide UsableFeedback;
    hide ContactAxes;
  }

  /** The near-hand numbers that contact was granted on are those of the observation behind the last
      commit. */
  lemma ContactWasSeen(b: Bundle, calls: seq<Call>, sequence: int, f: Feedback)
    requires b.Valid() && Next(b, Run(b, calls), HandFeedback(sequence, f)).contacts == Run(b, calls).contacts + 1
    ensures var z, origins := Run(b, calls), Origins(b, calls);
      && |origins| == |z.log| > 0 && origins[|z.log| - 1].Some? && origins[|z.log| - 1].value.NormalTick?
      && SeenIn(origins[|z.log| - 1].value.obs, z.s.c.evidence)
  {
    var z := Run(b, calls);
    EveryRunKeepsHistory(b, calls);
    EveryCommitIsVouched(b, calls);
    ContactKeepsTarget(b, z, sequence, f);
    ContactTakesOverIff(b, calls, sequence, f);
    hide Run;
    hide Next;
    hide StateOk;
    hide EntryOk;
    hide TouchedSince;
    hide Origins;
    assert z.log != [];
    assert EntryVouched(b, Origins(b, calls)[|z.log| - 1], z.log[|z.log| - 1]);
  }
}
