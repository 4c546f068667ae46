# Tabletop interception and its companions, modelled in Dafny

This project models the control logic of a robot-arm and hand repository and proves what that logic
keeps over whole runs.

The main part is the transactional tabletop planner of `motion_planning/online_tabletop.py`: a 20 Hz
state machine with the phases approach, closure, lift and hold. Three planning calls (a visual tick, an
occluded closure tick, a frozen post-closure tick) compete for one pending slot; a commit installs the
pending proposal, a discard drops it, and a hand-feedback callback may turn an approach into a closure
between ticks. A target that an envelope rejects goes down a ladder: a correction backoff, holding the
arm, raising the palm, freezing the approach.

- `TabletopModel`, `TabletopSafety`, `TabletopTicks`: the data, the envelopes with the ladder, and what
  each call proposes, commits or changes, as functions of the committed state.
- `TabletopPlanner`: the planner class. Its methods reassign locals and fields the way the source does
  and are proved equal to those functions.
- `TabletopInvariant`, `TabletopRuns`, `TabletopErrors`, `TabletopTheorems`, `TabletopOcclusion`,
  `TabletopOrigins`, `TabletopMotion`, `TabletopCounterexample`: results about every state, every run and
  every chain of ticks.
- `TabletopDecisions`, `TabletopRecovery`, `TabletopFollowing`: what one tick decides, stated in what it
  observes and in what its checks say: when the hand closes and which goal is tracked, what a rejected
  target turns into, and where the arm is sent.
- `PoseIk`, `MinimumJerk`, over `Scalars`, `Products` and `JointMath`: the inverse-kinematics loop behind
  every goal and lift target, and the blend the lift and the rotation script share.

The other parts are smaller machines of the same repository: `EefRamp` (the live end-effector velocity
ramp and its dry-run twin, over `VectorNorm`), `GripperMailbox` (the one-slot queue between two threads),
`NoHandOpen` (open fallback and reacquisition), `ActionLimiting` (the baseline action limiter),
`CompactStream` (the line-buffered console filter) and `MissSummary` (the longest-missed-run scan).

## How the model reads the source

- The letters C, E, L, N stand for `template_catch_index`, `closure_end_index`, `lift_end_index` and
  `selected_steps`. `Bundle.Valid` asks only for part of what `sim2real/replay/config.py:149-421` checks
  (C >= 2, E > C, L > E, positive steps and rates, a preshape step of one to three) and for L < N, without
  which the planner's constructor could not index the recorded path. The upper bounds that the decoder
  puts on the settings are in `Bundle.Decoded`; no result assumes them, and the concrete run meets them.
- Arithmetic is over the reals. Kinematics (palm pose, fingertip clearance, orientation distance, the
  probe of the inverse-kinematics loop), rotation composition and the Euclidean norm are function
  parameters; the norm is constrained only by being the non-negative root of the sum of squares.
- Perception is an arbitrary `Observation`: every geometric comparison of the capture gate is a free
  boolean, every goal an arbitrary inverse-kinematics problem, so the results hold for all of them.
- A raised exception is a reply. A `RuntimeError`, from which the ladder recovers, is kept apart from the
  singular-rotation error, from which it does not.
- Threads are interleaved atomic steps. A lock that covers a whole method makes that method one step.

Where the code and its own comments disagree, the model follows the code:

- `motion_planning/online_tabletop.py:1558-1565` describes a current-volume closure as arm-frozen, but
  1594-1597 assigns the target again on every visual closure tick. `VisualTickMovesHeldArm` is a concrete
  run whose next tick moves the arm; `VisualVolumeTickHoldsArmIff` says exactly when a staged tick does
  not; the claim as written holds on occluded ticks (`OccludedClosureHoldsArm`).
- Asking again for a pending sequence (1267-1283) publishes the stored command without the flag of an
  occluded clearance lift (`StagingIsTransactional`, with a run in `RaisedFlagIsLost`).
- `step_command` (`examples/run_eef_policy_env.py:463-490`) changes the velocities before it can reject,
  and `ActionLimiter.apply` (`sim2real/baseline.py:166-179`) advances the arm before it examines the
  hand. `RejectionIsAtomicIff` and `RejectedHandIsAtomicIff` say exactly when a rejected call has changed
  nothing; `RejectedTickChangesVelocity` and `RejectedHandMovesArm` are calls that have.

## Model

| member | source | states |
|---|---|---|
| TabletopRuns.EveryRunKeepsHistory | motion_planning/online_tabletop.py:1260-2036 | over every interleaving of visual, occluded and frozen ticks, commits, discards and feedback: phase, template index and the step counters agree, every commit is enveloped against the target committed before it, no two successive commits use the orientation hold, the height stays locked, contact takes over at most once |
| TabletopRuns.EveryLiftLifts | motion_planning/online_tabletop.py:1978-1988 | on every run each committed lift or hold, whether its capture was seen, occluded or felt, has a lift target that meets the tolerances of lifting the palm from that very capture |
| TabletopInvariant.ApplyKeepsState | motion_planning/online_tabletop.py:1455-1642 | every call keeps the state invariant: approach has template = preshape <= C-1 with both counters -1, closure template = C + step < E or the contact sentinel, lift template = E+1+step with capture and lift targets set, and any pending proposal would commit to such a state |
| TabletopInvariant.InitialOk | motion_planning/online_tabletop.py:205-262 | a fresh planner satisfies that invariant |
| TabletopInvariant.NormalPlanOk | motion_planning/online_tabletop.py:1644-2036 | whatever a visual tick stages is enveloped against the committed target, follows the committed template index, and never leaves a later phase for the approach |
| TabletopInvariant.OccludedPlanOk | motion_planning/online_tabletop.py:2337-2552 | the same for an occluded closure tick, its clearance lift included, and its target also clears the table with the open hand |
| TabletopInvariant.FrozenPlanOk | motion_planning/online_tabletop.py:2581-2686 | the same for a frozen post-closure tick |
| TabletopInvariant.TrackedGoalReserved | motion_planning/online_tabletop.py:819-914 | every tracked goal is inside the joint margin and inside the reserved correction envelope around the grasp |
| TabletopInvariant.FilterStaysReserved | motion_planning/online_tabletop.py:552-561 | filtering toward a reserved goal from a reserved goal stays reserved |
| TabletopInvariant.GraspLiftInMargin | motion_planning/kinematics.py:153-209 | a solved grasp lift lies inside the joint margin and meets the tolerances of the lift it was solved for |
| TabletopInvariant.FeedbackKeepsCommitted | motion_planning/online_tabletop.py:2888-2974 | feedback keeps the committed-state invariant whether or not it turns the approach into a closure |
| TabletopErrors.NoInternalFault | motion_planning/online_tabletop.py:1574-1642 | on no run can a call raise the closure or lift out-of-bounds, no-capture-target, invalid-closure-step or inconsistent-closure error, nor, once anything is committed, an inverse-kinematics seed error |
| TabletopErrors.RemainingCountsClosureSamples | motion_planning/online_tabletop.py:586-645 | the completion horizon counts exactly the closing samples still to come, for every committed approach or closure |
| TabletopTheorems.TemplateOrder | motion_planning/online_tabletop.py:1500-1601 | on every run the committed hand indices are open-hand ones that never decrease, then C, C+1, ..., L each once and in order, then only N-1 |
| TabletopTheorems.DeadlineAndCompletion | motion_planning/online_tabletop.py:1497-1529 | with consecutive commits the first closing sample is at or before the last start, the lift ends at or before N-1, completion is never reported earlier, and after N commits it is reported if and only if the closure began before the deadline or L = N-1 |
| TabletopDecisions.VisualTickClosesIff | motion_planning/online_tabletop.py:1148-1170 | a staged visual tick leaves the approach for the closure if and only if the next open-hand sample is C-1, the hand clears the table, and the object is inside the measured open hand (version 5 with collision replanning, live fit), or in the corridor and either meets the hand in time or rests in reach of an arrived arm; full occlusion and a current-volume capture are committed on exactly the evidence for each; otherwise the open hand advances by one preshape step or the whole command is kept |
| TabletopDecisions.RunClosesIff | motion_planning/online_tabletop.py:1047-1170 | on every run a visual tick published in the approach with nothing pending, once committed, closes the hand if and only if it observed that |
| TabletopDecisions.DeadlineRefusedIff | motion_planning/online_tabletop.py:1497-1520 | a tracked approach is refused for the deadline if and only if it may not close and its index has reached the last start |
| TabletopDecisions.GoalIsTracked | motion_planning/online_tabletop.py:1403-1449 | a usable fit is always tracked; without one the nominal intercept is, until live motion has been seen, and after that the last goal is kept, except by a moving-capture closure |
| TabletopDecisions.HeightIsFirstSeen | motion_planning/online_tabletop.py:1362-1387 | the table height is that of the first committed observation, zero when a moving-capture version finds it out of the limit, and never changes again |
| TabletopDecisions.ScalesAreTriedInOrder | motion_planning/online_tabletop.py:819-914 | the full workspace scale is solved first, three quarters of it for a far intercept under collision replanning, then half, then for a near intercept none; a problem that does not converge or lands outside the reserve moves on, and when all do the intercept is refused |
| TabletopDecisions.NoGoalOutsideLimits | motion_planning/online_tabletop.py:819-858 | a height outside its limit, or a reserve that leaves nothing, refuses every intercept |
| TabletopSafety.SafeMeansEnveloped | motion_planning/online_tabletop.py:664-800 | the ordered checks accept exactly the targets inside the joint margin, target step, orientation, fingertip and palm envelopes, with the open or measured hand where the closure check asks for it |
| TabletopSafety.LadderKeepsEnvelopes | motion_planning/online_tabletop.py:1685-1977 | by whatever rung a draft leaves the ladder its nominal, target and hand are enveloped and pass the very check the tick asked for, with the measured hand inside the closure, unless an ungated approach was frozen; the orientation hold is used only inside the closure on an unmoved arm and not twice in a row |
| TabletopSafety.FirstBackoffIsFirst | motion_planning/online_tabletop.py:1704-1729 | the backoff stops at the largest kept correction that is not recoverably rejected |
| TabletopSafety.FreezeAlwaysPasses | motion_planning/online_tabletop.py:1904-1977 | freezing an approach whose committed command was enveloped always passes its own recheck |
| TabletopSafety.RunLadder | motion_planning/online_tabletop.py:1685-1977 | the retry loop and the nested recoveries compute the ladder |
| TabletopRecovery.ConflictsOf | motion_planning/online_tabletop.py:664-718 | the conflict a plain check reports is the first envelope that the target leaves, with the measured angle or clearance |
| TabletopRecovery.ClosureConflictsOf | motion_planning/online_tabletop.py:720-800 | a closure check reports what the plain check does, and where that accepts, the clearance of the open or measured hand |
| TabletopRecovery.AcceptedIsStaged | motion_planning/online_tabletop.py:1685-1703 | a visual tick whose drafted target is accepted stages it as drafted, the last closing sample with its capture and solved lift; one at a singular pose is refused |
| TabletopRecovery.BackoffIsStaged | motion_planning/online_tabletop.py:1704-1729 | a rejected target is retried with nine tenths, eight tenths, ... none of its correction, and the first retry that is not rejected is staged |
| TabletopRecovery.ClearanceRecovers | motion_planning/online_tabletop.py:1786-1903 | every version 5 visual closing sample C..E rejected for fingertip clearance with no usable retry stages the committed arm target if its check accepts that, else the target raised by the shortfall, if that is in (0, 20 mm], solves, and passes its recheck around the committed nominal, and is refused otherwise; at E the lift must also be solvable |
| TabletopRecovery.OrientationRecovers | motion_planning/online_tabletop.py:1738-1785 | a closure rejected for orientation with no usable retry holds the arm if the last commit was not such a hold and the check accepts it, and is refused otherwise |
| TabletopRecovery.ApproachRecovers | motion_planning/online_tabletop.py:1904-1977 | an approach rejected for orientation or clearance with no usable retry keeps the whole committed command and is never refused once something has been committed |
| TabletopRecovery.OthersAreRefused | motion_planning/online_tabletop.py:1904-1925 | every other rejection is raised as it is |
| TabletopOcclusion.OccludedDeclinesIff | motion_planning/online_tabletop.py:2337-2370 | an occluded tick declines if and only if the reason is not admitted, the bundle is not version 5, the phase is not closure, or a closure committed by vision has more than five samples to go |
| TabletopOcclusion.BlindTickCarries | motion_planning/online_tabletop.py:2298-2686 | after a full-occlusion capture on time a blind call is published, or refused because an envelope rejected the target or inverse kinematics found none; committed, it advances one template sample and stays on time |
| TabletopOcclusion.BlindChainReachesHold | motion_planning/online_tabletop.py:2298-2686 | published and committed blind calls alone walk from a full-occlusion capture or contact through every remaining sample, one sequence number each, reaching hold at L inside the template |
| TabletopTheorems.RunsAreOnTime | motion_planning/online_tabletop.py:1497-1529 | with consecutive commits every closure or lift has enough sequence numbers left for its remaining samples |
| TabletopOcclusion.CapturedRunsAreCarried | motion_planning/online_tabletop.py:2298-2686 | so after any such run with nothing pending the next blind call is published or refused for an envelope or an inverse-kinematics failure, and for nothing else |
| TabletopOcclusion.OccludedClosureHoldsArm | motion_planning/online_tabletop.py:2398-2399 | after a current-volume capture or contact, occluded closure ticks without a clearance lift keep the arm target exactly, and the lift starts from it |
| TabletopFollowing.OccludedTickRecovers | motion_planning/online_tabletop.py:2371-2506 | an admitted occluded tick aims, after a temporal capture, each joint's nominal at the next recorded sample and its target at that nominal corrected for the last goal, both by the tracking slew, and after any other capture at what is committed; the aim is staged when the closure check with the open hand accepts it, raised by the shortfall up to 20 mm when only clearance is missing, and refused otherwise |
| TabletopFollowing.AimIsUnique | motion_planning/online_tabletop.py:2371-2399 | there is exactly one such aim: the distances determine it |
| TabletopFollowing.BlindChainFollows | motion_planning/online_tabletop.py:2371-2399 | after a temporal capture blind closing ticks that are never raised follow the recorded closure sample by sample up to E, each joint by the tracking slew or all the way, with the goal unchanged |
| TabletopFollowing.BlindChainKeepsUp | motion_planning/online_tabletop.py:2371-2399 | the lag of each joint behind the recording changes with every sample by at most the recording's pace minus the slew, down to nothing, and its correction never moves away from the goal's |
| TabletopFollowing.BlindChainCaptures | motion_planning/online_tabletop.py:2371-2399 | at E each joint of the capture misses the goal last tracked by at most the lag that is left plus the correction that was lacking |
| TabletopFollowing.VisualTickFollows | motion_planning/online_tabletop.py:1463-1597 | a visual approach or closure tick drafts, joint by joint, a goal filtered toward the one just solved; a nominal toward the reference approach, then toward the next recorded sample (the recorded grasp before version 5), or kept after a current-volume capture; and a target toward that nominal corrected for the goal, each by its own limit |
| TabletopFollowing.LiftDraftFollows | motion_planning/online_tabletop.py:1602-1640 | a visual lift tick drafts the point of both segments at the minimum-jerk share of its lift step, a hold tick the lift target |
| TabletopOcclusion.VisualVolumeTickHoldsArmIff | motion_planning/online_tabletop.py:1558-1977 | a staged visual tick of a current-volume closure keeps the committed arm target if and only if: accepted as drafted, the tracked goal asks for the committed correction; backed off, the scaled drafted correction is the committed one; held, always; raised, the committed target already meets the raise |
| TabletopCounterexample.VisualTickMovesHeldArm | motion_planning/online_tabletop.py:1558-1597 | after a concrete run of two committed visual ticks that ends in a current-volume capture, the next visual tick publishes an arm target moved in every joint; the settings are inside the decoder's ranges and the observations come from one velocity |
| TabletopCounterexample.RaisedFlagIsLost | motion_planning/online_tabletop.py:1267-1283 | after the same run an occluded tick is published as a clearance lift and its repeat without that flag |
| TabletopOrigins.ContactTakesOverIff | motion_planning/online_tabletop.py:2862-2974 | on every run a feedback call turns the approach into a closure if and only if it is usable for the last commit with nothing pending, the last usable feedback call before it was for the sequence just before, two fingers rise to contact between those two calls, the planner is in the open-hand approach at template C-1 with a fresh object near the hand, contact has not taken over before, and the lift is solvable |
| TabletopOrigins.RemembersLastSample | motion_planning/online_tabletop.py:2889-2893 | the remembered sequence and forces are those of the last usable feedback call of the run |
| TabletopOrigins.FeedbackIsTakenIff | motion_planning/online_tabletop.py:2868-2893 | with nothing pending a feedback call for another sequence is refused, one that is not fresh, misshapen or reports an error changes nothing, and every other one is remembered |
| TabletopOrigins.ContactKeepsTarget | motion_planning/online_tabletop.py:2959-2974 | contact leaves the committed target, nominal and template as they are and makes that target the capture |
| TabletopOrigins.ContactWasSeen | motion_planning/online_tabletop.py:2900-2958 | the near-hand numbers contact is granted on are those of the observation behind the last commit |
| TabletopOcclusion.ContactIsCarried | motion_planning/online_tabletop.py:2970-2974 | after contact blind ticks alone can finish the grasp |
| TabletopOrigins.EveryCommitIsVouched | motion_planning/online_tabletop.py:720-800 | over every run each committed closing target of an occluded tick clears the table with the open hand, that of a visual tick with the measured hand, and a committed approach carries the contact numbers of its own observation |
| TabletopOcclusion.StagingIsTransactional | motion_planning/online_tabletop.py:1267-1283 | propose then discard restores the state, asking again for the pending sequence publishes the same command whatever is observed, except for the flag of an occluded clearance lift, a commit installs exactly the pending proposal |
| TabletopOcclusion.PublishedIsInstalled | motion_planning/online_tabletop.py:2688-2817 | what a tick publishes is what its commit installs: the proposal's target and the recorded hand of its template, with every other field of the proposal, and the feedback memory kept |
| TabletopOcclusion.PendingIsExclusive | motion_planning/online_tabletop.py:1267-1283 | while a proposal is pending only the commit or discard of its own sequence changes anything, a visual tick of that sequence repeats it, and every other call raises, blind ticks that are not admitted excepted |
| TabletopOcclusion.FrozenAgreesWithNormal | motion_planning/online_tabletop.py:2587-2624 | from the same lift or hold state the frozen tick is staged if and only if the unmodified target is accepted, and then the visual tick stages the identical proposal |
| TabletopOcclusion.LiftTargets | motion_planning/online_tabletop.py:1602-1640 | every lift target lies between capture and lift target inside the joint margin, and the last one is the lift target itself |
| TabletopOcclusion.LiftStartsAtCapture | motion_planning/online_tabletop.py:1592-1601 | a lift begins at its capture, which is the committed target that closed the hand |
| TabletopOcclusion.LiftTickMovesAShare | motion_planning/online_tabletop.py:1602-1615 | from a lift not yet modified, its first tick included, a frozen tick or a visual tick staged as drafted moves each joint of the committed target by at most 15/8 of an equal share of the lift, and its commit is again on the lift |
| TabletopMotion.JointTickProgress | motion_planning/online_tabletop.py:1228-1258 | one joint's tick never adds to nominal plus correction distance even when the outer clip acts, shortens the nominal distance by its full step, and once that is zero shortens the correction distance by the smaller of its two limits |
| TabletopMotion.MotionArrives | motion_planning/online_tabletop.py:802-817 | target = nominal + correction always, and after numbers of ticks that cover the gaps nominal, correction and target equal their destinations exactly |
| TabletopMotion.EnoughTicksExist | motion_planning/online_tabletop.py:802-817 | such numbers of ticks exist for every arm state and goal |
| TabletopMotion.UnimpededTick | motion_planning/online_tabletop.py:1463-1475 | an approach tick that tracks the goal it already has, held or solved again, and whose draft is accepted commits exactly one such motion step |
| TabletopMotion.ApproachArrives | motion_planning/online_tabletop.py:1455-1475 | a chain of such ticks brings the committed target to the reference approach plus the goal's correction |
| TabletopMotion.FilterClosesIn | motion_planning/online_tabletop.py:552-561 | the goal filter moves each joint toward its raw goal by the filtered fraction or the correction step, whichever is smaller, without overshoot |
| TabletopPlanner.Planner.ActionForSequence | motion_planning/online_tabletop.py:1260-2036 | the visual tick's reply and whole new state are those of the specification, the republished pending command included |
| TabletopPlanner.Planner.PlanTick | motion_planning/online_tabletop.py:1284-2036 | the tick's body with an empty slot computes the specified plan or fault |
| TabletopPlanner.Planner.AdaptiveGoalForIntercept | motion_planning/online_tabletop.py:819-914 | the candidate loop returns the first scale whose solution is inside the reserved envelope |
| TabletopPlanner.Planner.ActionForOccludedClosure | motion_planning/online_tabletop.py:2298-2552 | reply and whole new state of an occluded tick |
| TabletopPlanner.Planner.ActionForFrozenPostClosure | motion_planning/online_tabletop.py:2549-2686 | reply and whole new state of a frozen tick |
| TabletopPlanner.Planner.CommitReplayProposal | motion_planning/online_tabletop.py:2688-2817 | a matching commit installs the pending proposal and clears the slot, any other call leaves the state alone |
| TabletopPlanner.Planner.DiscardReplayProposal | motion_planning/online_tabletop.py:3013-3016 | a matching discard only clears the slot |
| TabletopPlanner.Planner.CommitFeedbackAfterDualAck | motion_planning/online_tabletop.py:2848-2974 | reply and whole new state of a feedback sample, which stays remembered even when the lift cannot be solved |
| PoseIk.SolvedTarget | motion_planning/kinematics.py:153-199 | a solved target is inside the joint margin, meets the tolerances and is at most 0.08 rad per correction pass from its seed |
| PoseIk.SolvedIffFirstConverged | motion_planning/kinematics.py:153-209 | the loop returns a joint vector if and only if it is the first converged iterate and is reached within the pass limit |
| PoseIk.AdvanceIsNearest | motion_planning/kinematics.py:196-199 | each pass takes every joint as near to its corrected value as the margin allows |
| PoseIk.CappedKeepsDirection | motion_planning/kinematics.py:196-198 | a correction inside the cap is taken whole, a larger one is shrunk in proportion until its largest joint moves by the cap |
| PoseIk.PosePreservingJointTarget | motion_planning/kinematics.py:125-209 | the loop over a mutable joint vector computes that solution for the 24 or 32 passes of its mode |
| MinimumJerk.BlendShape | motion_planning/online_tabletop.py:62-64 | the blend fixes 0 and 1, stays in [0, 1] and mirrors about the middle |
| MinimumJerk.BlendStartsFlat | motion_planning/online_tabletop.py:62-64 | the blend leaves zero between 10x^3-15x^4 and 10x^3, with neither rate nor acceleration |
| MinimumJerk.BlendDifference | motion_planning/online_tabletop.py:62-64 | strictly increasing on [0, 1] with differences at most 15/8 of the argument's |
| MinimumJerk.BlendIsLipschitz | examples/move_eef_rotation.py:121-123 | monotone with Lipschitz constant 15/8 on all reals |
| MinimumJerk.PeakRateIsLeast | examples/move_eef_rotation.py:15 | no smaller constant would do |
| MinimumJerk.BlendReachesEverywhere | examples/move_eef_rotation.py:121-123 | n equal samples of the blend come within 15/(8n) below every value of [0, 1] |
| MinimumJerk.RotationRateBounded | examples/move_eef_rotation.py:225-228 | with the script's duration rule the commanded angle never turns faster than the limit between any two instants |
| MinimumJerk.NoShorterDuration | examples/move_eef_rotation.py:225-228 | any shorter duration above the minimum would at some time turn faster than the limit |
| MinimumJerk.StreamRotation | examples/move_eef_rotation.py:264-273 | every sample of the loop turns forward by at most the limit times its period, and the motion completes if and only if the periods fill the duration, ending on the exact angle |
| VectorNorm.Triangle | examples/run_eef_policy_env.py:81-82 | the triangle inequality of the norm, from its defining square |
| VectorNorm.ClippedNorm | examples/run_eef_policy_env.py:85-89 | a clipped vector keeps its direction and has the smaller of its length and the limit |
| VectorNorm.MoveCloses | examples/run_eef_policy_env.py:96-98 | a bounded move changes the vector by at most the limit and shortens the distance by exactly that, or arrives |
| VectorNorm.MoveStaysInBall | examples/run_eef_policy_env.py:96-98 | moving between two vectors of a ball stays in the ball |
| EefRamp.WantedWithin | examples/run_eef_policy_env.py:441-448 | any policy action asks for at most the velocity limit |
| EefRamp.ActedIsRequested | examples/run_eef_policy_env.py:441-448 | a policy action asks the linear velocity for its translation and the angular one for its rotation at the policy rate, or for exactly the limit in its direction, and changes nothing else |
| EefRamp.StepFollowsVelocity | examples/run_eef_policy_env.py:474-494 | a step is rejected for the radius first, then for the turn, of the pose its new velocities lead to; an accepted pose has moved by the new linear velocity and turned by the new angular velocity |
| EefRamp.LiveStepKeeps | examples/run_eef_policy_env.py:462-494 | one tick keeps speeds and pose inside their limits and changes each velocity by at most acceleration times dt |
| EefRamp.EveryRunIsBounded | examples/run_eef_policy_env.py:441-494 | over every run, rejected ones included, speeds, radius and turn stay within limits |
| EefRamp.RestIsBounded | examples/run_eef_policy_env.py:419-428 | a run starts within those limits when the start orientation is at no distance from itself beyond the limit |
| EefRamp.RejectionIsAtomicIff | examples/run_eef_policy_env.py:463-490 | a rejected step moves no pose, and changes no velocity if and only if no time passed or both had arrived |
| EefRamp.RejectedTickChangesVelocity | examples/run_eef_policy_env.py:463-490 | a concrete run from rest whose first tick is rejected with the velocity changed |
| EefRamp.HoldingSlowsDown | examples/run_eef_policy_env.py:450-473 | while holding, each tick of at least a given length takes its full share off both speeds |
| EefRamp.HoldStops | examples/run_eef_policy_env.py:450-494 | holding stops the ramp exactly after a bounded number of ticks, and the stop test then says so |
| EefRamp.DryPredictsLive | examples/run_eef_policy_env.py:541-576 | on the same actions and time steps the dry run and the live step reject at the same first tick for the same reason, with equal velocities, and with equal states while they accept |
| EefRamp.RejectionIsFinal | examples/run_eef_policy_env.py:478-490 | events after a rejection change nothing |
| EefRamp.FrankaEefPolicyEnv.SetPolicyAction | examples/run_eef_policy_env.py:441-448 | stores the wanted velocities, both within limits, and returns the clipped deltas they come from |
| EefRamp.FrankaEefPolicyEnv.StepCommand | examples/run_eef_policy_env.py:462-494 | verdict and whole new state of a live step |
| EefRamp.DryRunner.IntegrateStep | examples/run_eef_policy_env.py:541-576 | verdict and whole new state of a dry step, running maxima included |
| EefRamp.DryRunner.SimulateRollout | examples/run_eef_policy_env.py:508-621 | the two loops follow the policy schedule, fill the duration exactly, end stopped or with the settle time used up, and a live run on the same events has the same verdict and, if accepted, the same state |
| GripperMailbox.ClippedInRange | examples/run_eef_policy_env.py:319-343 | a clipped width is the nearest one between closed and open, or the closed width when the opening limit is negative |
| GripperMailbox.ActionSpansRange | examples/run_eef_policy_env.py:335-337 | a normalized action runs linearly from the closed width at zero to the open width at one and is held there beyond |
| GripperMailbox.EveryRunIsOk | examples/run_eef_policy_env.py:342-378 | over every interleaving the queue holds at most one item, a put never finds it full, widths put are in range and a deadband apart, the worker takes items in put order and moves to exactly those |
| GripperMailbox.SkippedIffClose | examples/run_eef_policy_env.py:344-345 | a request is skipped if and only if it is within 0.002 of the width put last |
| GripperMailbox.TakesTheNewest | examples/run_eef_policy_env.py:363 | what the worker takes is the newest item put |
| GripperMailbox.WorkerProgress | examples/run_eef_policy_env.py:361-378 | while anything is left for the worker one of its steps is enabled and brings it nearer to the end |
| GripperMailbox.LastItemIsServed | examples/run_eef_policy_env.py:346-351 | when the producer is quiet and the worker idle but not stopped, the last move went to the last width put |
| GripperMailbox.SentinelIsServed | examples/run_eef_policy_env.py:353-369 | if the last item was the sentinel, the idle worker has stopped and took the sentinel last and only once |
| GripperMailbox.ShutdownTakesTwoSteps | examples/run_eef_policy_env.py:353-369 | a queued sentinel stops the worker after at most the move in hand |
| GripperMailbox.StoppedForGood | examples/run_eef_policy_env.py:364-369 | a stopped worker never moves again |
| GripperMailbox.AsyncGripperController.CommandWidth | examples/run_eef_policy_env.py:342-351 | the call is its three uninterrupted steps: skipped within the deadband of the last width put, otherwise the clipped width alone is in the queue and remembered |
| GripperMailbox.AsyncGripperController.Close | examples/run_eef_policy_env.py:353-359 | leaves exactly the sentinel in the queue |
| NoHandOpen.EntersIff | examples/realsense_mano_inspire.py:671-684 | the fallback is entered if and only if the hand is not trusted, the stream was active, and the last trusted frame is at least the full delay old |
| NoHandOpen.ReleasesIff | examples/realsense_mano_inspire.py:692-722 | under the fallback a trusted frame is answered with hand targets if and only if it completes a run of the required number of trusted frames, linked in time and in every selected target, all earlier ones of which were kept open |
| NoHandOpen.LeavesIff | examples/realsense_mano_inspire.py:638-649 | the fallback is left if and only if such a release is accepted; a rejected release or an untrusted frame restarts the count |
| NoHandOpen.CountIsStableRun | examples/realsense_mano_inspire.py:695-718 | the counter is the length of the longest such run ending at the latest frame |
| NoHandOpen.LastValidIsLast | examples/realsense_mano_inspire.py:691 | the remembered capture time is that of the last trusted frame |
| NoHandOpen.ChoiceOutsideFallback | examples/realsense_mano_inspire.py:671-693 | outside the fallback a frame is answered with the hand's targets if and only if it is trusted, with the open hand if and only if it enters the fallback, and with nothing otherwise |
| NoHandOpen.ChoiceInsideFallback | examples/realsense_mano_inspire.py:671-722 | inside it an untrusted frame keeps the hand open |
| NoHandOpen.RefusedIff | examples/realsense_mano_inspire.py:685-690 | a frame is refused if and only if its targets are needed and missing or not six, and then nothing changes |
| NoHandOpen.DisabledNeverFallsBack | examples/realsense_mano_inspire.py:664-669 | with the policy disabled the state never changes and the hand is followed if and only if it is detected at a depth in range or no depth is asked for |
| NoHandOpen.NoHandOpenController.ChooseSource | examples/realsense_mano_inspire.py:651-722 | reply and whole new state of one choice, errors included |
| NoHandOpen.NoHandOpenController.NoteManoSubmitResult | examples/realsense_mano_inspire.py:638-649 | whole new state after a submit result |
| NoHandOpen.NoHandOpenController.RunProtocol | examples/realsense_mano_inspire.py:1351-1380 | the control loop's calls over a recording give exactly the specified choices and final state |
| ActionLimiting.AppliedKeeps | sim2real/baseline.py:149-189 | for any action, rejected or not, both commands stay in their envelopes, move by at most one step, and no joint moves away from or beyond its request |
| ActionLimiting.AppliedIsNearest | sim2real/baseline.py:154-166 | every joint is taken as near to its request as one step and the envelope allow |
| ActionLimiting.HandIsNearest | sim2real/baseline.py:180-189 | every requested axis is taken as near to its target as the hand step allows, the others are left alone |
| ActionLimiting.ReplyReports | sim2real/baseline.py:149-196 | an action is refused for the first malformed part, and an accepted one reports the motion it made and no target for an axis of which none was asked |
| ActionLimiting.EveryStreamStaysEnveloped | sim2real/baseline.py:149-196 | the envelopes hold along any stream of actions |
| ActionLimiting.InitialIsEnveloped | sim2real/baseline.py:117-147 | commands that pass the constructor's checks start inside the envelopes |
| ActionLimiting.UnclippedIffDelivered | sim2real/baseline.py:154-196 | an accepted action is reported unclipped if and only if it is delivered as requested |
| ActionLimiting.RejectedHandIsAtomicIff | sim2real/baseline.py:166-179 | an action rejected for its hand leaves the commands alone if and only if every joint asks for nothing or pushes against the bound it stands at |
| ActionLimiting.RejectedHandMovesArm | sim2real/baseline.py:166-179 | a concrete first action whose hand target is refused after the arm has moved |
| ActionLimiting.DeltasTelescope | sim2real/baseline.py:165-166 | reported deltas plus the motion of hand-rejected actions add up to the whole arm motion |
| ActionLimiting.AcceptedDeltasTelescope | sim2real/baseline.py:165-196 | when every action is accepted the reported deltas alone add up to it |
| ActionLimiting.RepeatedRequestArrives | sim2real/baseline.py:180-189 | a repeated request closes the gap by one full step each time, never overshoots and stays |
| ActionLimiting.StreamRepeatsFinger | sim2real/baseline.py:180-189 | in a stream that keeps one axis's request, that axis follows it whatever the others ask |
| ActionLimiting.ActionLimiter.Create | sim2real/baseline.py:104-147 | a limiter is made if and only if every constructor check passes, with the given start commands |
| ActionLimiting.ActionLimiter.LimitHand | sim2real/baseline.py:180-189 | the in-place hand loop computes every axis's limited position and reports a clip if and only if some target is not delivered |
| ActionLimiting.ActionLimiter.Apply | sim2real/baseline.py:149-196 | reply and whole new state of one action |
| CompactStream.SplitLinesSplits | sim2real/console_output.py:141-148 | cutting a text gives complete lines and a rest without a break that join to the text |
| CompactStream.SplitIsUnique | sim2real/console_output.py:141-148 | there is no other way to cut it so |
| CompactStream.SplitConcat | sim2real/console_output.py:143-147 | cutting piece by piece, carrying the rest over, cuts the whole |
| CompactStream.ShownIsKeyLines | sim2real/console_output.py:133-139 | only key lines are shown, each painted once, in order |
| CompactStream.OutputDependsOnTextOnly | sim2real/console_output.py:133-161 | however a text is cut into writes and flushes, closing leaves the key lines of the whole text, in order, each once |
| CompactStream.PendingIsWithheld | sim2real/console_output.py:150-154 | nothing of an unfinished line is shown |
| CompactStream.CompactStream.Write | sim2real/console_output.py:141-148 | the loop filters out exactly the complete lines and keeps the rest |
| CompactStream.CompactStream.ClosePending | sim2real/console_output.py:156-161 | a rest is filtered as a line of its own and the buffer is emptied |
| MissSummary.Summarize | examples/analyze_inspire_mano_log.py:410-441 | the scan reports the maximal undetected run that is greatest by frames then span, earliest on ties, with its censoring flags, or none |
| MissSummary.WinnerIsUnique | examples/analyze_inspire_mano_log.py:430-432 | only one run fits that description |
| MissSummary.ReportTells | examples/analyze_inspire_mano_log.py:410-441 | a report names the first and last frame of its run, is censored at an end if and only if nothing was detected beyond it, and for times that never go back spans the longest time between two of its frames |
| MissSummary.NoLongerMiss | examples/analyze_inspire_mano_log.py:410-441 | no stretch of undetected frames is longer than the reported one, and none is reported only when every frame was detected |

## Left out

- Single-precision rounding: published arm targets are cast to 32-bit floats in the source and are exact reals here.
- Perception and prediction: point-cloud centers, the fit, the intercept geometry and the capture gate's distances are arbitrary inputs.
- Numeric forward kinematics, Jacobians and damped solves: function parameters of the inverse-kinematics loop and the envelopes.
- Non-finite numbers and array-shape checks of the planner's inputs; one malformed-observation reply stands for them.
- The branch for bundles before the adaptive versions, and the planner's printed lines and diagnostics, except the two diagnostics that control reads back.
- Admitted reason strings of blind ticks: one boolean.
- `sim2real.closed_loop`, the stream worker and the hand-path commissioning return are not part of this model; the stream's answer to a submit is an input.
- MinimumJerk.BlendReachesEverywhere: stated as reaching every value to within any accuracy, because the reals of the prover come without the completeness that an exact preimage would need.
- EefRamp.DryRunner.SimulateRollout: the gripper value and the summary's rotation vector are not reported.
- EefRamp.LiveStepKeeps: time steps are not negative, as the controller's periods are.
- GripperMailbox.EveryRunIsOk: homing, waiting times and failing moves are not modelled; a move counts as made when it is attempted.
- NoHandOpen.ReleasesIff: speaks of frames with six targets for every detection, which the control loop computes; the error replies for other frames are in `Choose`.
- ActionLimiting.ReplyReports: hand targets are real numbers; what the cast to 32-bit integers makes of one outside their range is not modelled.
- CompactStream: which lines are key lines and how they are colored are parameters.
- `BaselinePolicy`, the log analyzer's streaming accumulators, `preview_control_source` and the scripted policies would only add easy members.
