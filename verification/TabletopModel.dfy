/** Data of the tabletop interception planner: the sealed template bundle, the committed control
    state, a staged proposal, and the perception evidence a tick consumes. */
module TabletopModel {
  import opened Wrappers
  import opened JointMath
  import opened Scalars
  import Ik = PoseIk

  type Hand = h: seq<int> | |h| == 6 witness [0, 0, 0, 0, 0, 0]

  datatype Phase = Approach | Closure | Lift | Hold

  datatype Config = Config(
    catchIndex: nat,               // template_catch_index
    closureEnd: nat,               // closure_end_index
    liftEnd: nat,                  // lift_end_index
    steps: nat,                    // selected_steps
    preshapeStep: nat,
    movingCapture: bool,           // versions 4 and 5
    mpcCapture: bool,              // version 5
    collisionReplan: bool,
    approachStep: real,
    maxTargetStep: real,
    maxCorrectionStep: real,
    trackingStep: real,            // arm_tracking_speed_rad_s * control_dt_s
    filterAlpha: real,
    maxJointCorrection: real,
    correctionReserve: real,
    maxPositionXY: real,
    maxPositionZ: real,
    maxOrientation: real,
    minFingertip: real,
    adaptiveSpeedMax: real)

  /** Kinematics kept abstract. The orientation distance is undefined where the rotation vector
      is singular; the two problems are the inputs of the inverse-kinematics loop. */
  datatype Geometry = Geometry(
    orientation: (Joints, Joints) -> Option<real>,
    fingertip: (Joints, Hand) -> real,
    palm: Joints -> real,
    raisePalm: (Joints, real) -> Ik.Problem,
    graspLift: Joints -> Ik.Problem)

  datatype Bundle = Bundle(
    cfg: Config,
    home: Joints,
    recorded: seq<Joints>,
    hands: seq<Hand>,
    lower: Joints,                 // joint limits tightened by the margin
    upper: Joints,
    geometry: Geometry)
  {
    /** What the results assume of the configuration: the order of the indices and the signs of the
        rates. The decoder's bounds on their size are in `Decoded` and are not assumed. */
    predicate Valid() {
      && 2 <= cfg.catchIndex < cfg.closureEnd < cfg.liftEnd < cfg.steps
      && |recorded| == |hands| == cfg.steps
      && 1 <= cfg.preshapeStep <= 3
      && (cfg.mpcCapture ==> cfg.movingCapture && cfg.trackingStep > 0.0)
      && cfg.approachStep > 0.0 && cfg.maxTargetStep > 0.0 && cfg.maxCorrectionStep > 0.0
      && 0.0 < cfg.filterAlpha <= 1.0
      && cfg.maxOrientation > 0.0
    }

    /** The ranges in which the decoder accepts the remaining settings. */
    predicate Decoded() {
      && 0.01 <= cfg.approachStep <= 0.10 && 0.02 <= cfg.maxTargetStep <= 0.15 && 0.001 <= cfg.maxCorrectionStep <= 0.05
      && (cfg.mpcCapture ==> 0.00245 <= cfg.trackingStep <= 0.051)
      && 0.05 <= cfg.filterAlpha <= 1.0
      && 0.01 <= cfg.maxJointCorrection <= 0.75 && 0.005 <= cfg.correctionReserve <= 0.10
      && 0.005 <= cfg.maxPositionXY <= 0.25 && 0.0 <= cfg.maxPositionZ <= 0.04
      && 0.005 <= cfg.maxOrientation <= 0.20 && 0.005 <= cfg.minFingertip <= 0.08
      && 0.01 <= cfg.adaptiveSpeedMax <= 0.60
    }

    function ReferenceGrasp(): Joints requires Valid() {
      recorded[if cfg.mpcCapture then cfg.closureEnd else cfg.catchIndex]
    }

    function ReferenceApproach(): Joints requires Valid() {
      recorded[if cfg.mpcCapture then cfg.catchIndex - 1 else cfg.catchIndex]
    }

    function ReferenceLift(): Joints requires Valid() { recorded[cfg.liftEnd] }

    function LiftCount(): nat requires Valid() { cfg.liftEnd - cfg.closureEnd }

    function ClosureCount(): nat requires Valid() { cfg.closureEnd - cfg.catchIndex + 1 }

    /** The last runtime index at which the closure can still start. */
    function LastStart(): int requires Valid() { cfg.steps - ClosureCount() - LiftCount() }

    function ClosureSlew(): real { Min(cfg.maxTargetStep, cfg.trackingStep) }

    function CorrectionLimit(): real { cfg.maxJointCorrection - cfg.correctionReserve }
  }

  const ROUNDOFF: real := 0.000000001

  /** Read back from the diagnostics of an approach tick by the contact callback. */
  datatype ContactEvidence = ContactEvidence(
    along: real, cross: real, z: real, speed: real, tip: real,
    preshapeReady: bool, geometrySafe: bool)

  /** The fields that `commit_replay_proposal` and the contact callback write. */
  datatype Committed = Committed(
    index: int,
    template: int,
    phase: Phase,
    preshape: int,
    closureStep: int,
    liftStep: int,
    nominal: Joints,
    correction: Joints,
    target: Joints,
    goal: Joints,
    capture: Option<Joints>,
    lift: Option<Joints>,
    height: Option<real>,
    liveFitSeen: bool,
    fullOccluded: bool,
    currentVolume: bool,
    forceContact: bool,
    sequence: int,
    complete: bool,
    orientationHold: bool,         // last diagnostics: closure_orientation_conflict_hold
    evidence: Option<ContactEvidence>,
    feedbackSequence: int,
    feedbackForces: Option<Hand>)

  datatype Proposal = Proposal(
    sequence: int,
    index: int,
    correction: Joints,
    target: Joints,
    goal: Joints,
    capture: Option<Joints>,
    lift: Option<Joints>,
    height: real,
    liveFitSeen: bool,
    fullOccluded: bool,
    currentVolume: bool,
    forceContact: bool,
    template: int,
    nominal: Joints,
    phase: Phase,
    preshape: int,
    closureStep: int,
    liftStep: int,
    orientationHold: bool,
    evidence: Option<ContactEvidence>)

  datatype State = State(c: Committed, pending: Option<Proposal>)

  function Initial(b: Bundle): Committed
    requires b.Valid()
  {
    Committed(-1, -1, Approach, -1, -1, -1, b.home, Zero(), b.home, b.ReferenceGrasp(),
              None, None, None, false, false, false, false, 0, false, false, None, 0, None)
  }

  /** Arbitrary geometric facts behind the capture gate. */
  datatype GateFacts = GateFacts(
    speedAlong: bool,              // speed along the travel axis is at least 5 mm/s
    alongTight: bool,              // temporal along-track error within its tolerance
    alongWindow: bool,             // current along-track error inside the time-to-contact window
    degradedFit: bool,             // residual, heading and speed fit for a degraded continuation
    stationary: bool,              // slow object close along the track
    inCorridor: bool,              // cross-track and height inside the capture corridor
    inVolume: bool,                // object inside the measured open-hand volume, speed in band
    armReady: bool,
    geometrySafe: bool,
    passed: bool)                  // object already past the corridor

  /** One observation of the object and the arm, as far as the planner's control flow reads it. */
  datatype Observation = Observation(
    wellFormed: bool,
    centersFound: bool,
    fitUsable: bool,
    observedHeight: real,
    interceptXY: real,
    nominalSolver: real -> Ik.Problem,   // inverse kinematics per workspace scale
    interceptSolver: real -> Ik.Problem,
    gate: GateFacts,
    contact: ContactEvidence,            // numbers only; its flags are recomputed
    measuredTips: Option<Joints -> real>) // clearance of the measured fingertips at a target

  datatype Feedback = Feedback(isFresh: bool, forces: seq<int>, errors: seq<int>)

  /** How a target fares against the envelopes. All but `Safe` and `SingularPose` are
      RuntimeErrors, which the planner recovers from. */
  datatype Verdict =
    | Safe
    | JointMargin
    | TargetStep
    | OrientationConflict(required: real)
    | ClearanceConflict(clearance: real)
    | PalmClearance
    | NoMeasuredTips
    | SingularPose

  datatype Fault =
    | SequenceOutsideTemplate
    | MalformedObservation
    | AnotherProposal
    | NoObjectCenter
    | ClosureStepInvalid
    | InterceptOutsideHeight
    | ReserveInvalid
    | InterceptUnreachable
    | CaptureDeadline
    | ObjectPassed
    | ClosureOutOfBounds
    | LiftOutOfBounds
    | NoCaptureTarget
    | ClosureInconsistent
    | Rejected(verdict: Verdict)
    | NoSolution(ik: Ik.Outcome)
    | CommitMismatch
    | DiscardMismatch
    | FeedbackUnbound

  /** A published command: hand template index, exact arm target, exact hand target, and the
      flag of an occluded clearance lift. */
  datatype Output = Output(template: int, target: Joints, hand: Hand, raised: bool)

  datatype Plan =
    | Planned(p: Proposal, raised: bool)
    | Declined
    | Refused(fault: Fault)

  datatype Reply = Published(output: Output) | NoReply | Raised(fault: Fault) | Done
}
