// The surface grinder cut sequencer
// (src/operation_controllers/surface_grinder_cut_controller.rs).
//
// A cut runs: travel to X-min, then Y-max, spin the spindle up for three
// seconds, then repeat strokes: cut to X-max, return to X-min, feed Y toward
// Y-min; once Y-min is reached return Y to Y-max and lower Z by one depth of
// cut, until Z is at the starting height minus the total depth.
module SurfaceGrinderCut {
  import opened Common
  import opened Messages
  import opened Config
  import opened EndstopChecker
  import opened Envelope
  import opened MotorControl
  import opened ControllerData
  import opened OperationController

  datatype CutState =
    | Idle
    | ToStartingPositionX
    | ToStartingPositionY
    | SpindleSpinUp
    | XCut
    | XReturn
    | YReturn
    | YOut
    | ZDown

  /** How long the spindle is given to spin up, in seconds. */
  const SpinUpSeconds: real := 3.0

  /** Everything the controller holds; the pure parts of the controller read it. */
  datatype CutSnapshot = CutSnapshot(
    data: OperationControllerData,
    cutParams: SurfaceGrinderCutParams,
    state: CutState,
    spindleStartedTime: real,
    startingHeight: real)

  /** The new snapshot and the messages sent to motor control by one operation. */
  datatype CutStep = CutStep(after: CutSnapshot, sent: seq<Message>)

  function Abs(x: real): real {
    if x < 0.0 then -x else x
  }

  /** Rust's `f64::min` (for numbers). */
  function MinReal(a: real, b: real): real {
    if a <= b then a else b
  }

  /** The last reported position of `axis`. */
  function Position(s: CutSnapshot, axis: Axis): real {
    GetAxisPosition(s.data.positionClient, axis)
  }

  /** The envelope limit of `axis` at `end`. */
  function Extent(s: CutSnapshot, axis: Axis, end: AxisEnd): real {
    GetExtent(s.data.workEnvelope, axis, end)
  }

  predicate HasMotorConfig(s: CutSnapshot, axis: Axis) {
    axis in s.data.configClient.config.motorConfigs
  }

  /** The Z height at which the cut is finished. */
  function TargetHeight(s: CutSnapshot): real {
    s.startingHeight - s.cutParams.totalDepth
  }

  /** `cutting_in_progress`. */
  predicate CuttingInProgress(s: CutSnapshot) {
    s.state != Idle
  }

  /**
   * `reached_extent`: the endstop at that end is known to be hit, or the last
   * reported position is at or beyond the envelope limit.
   */
  function ReachedExtent(s: CutSnapshot, axis: Axis, end: AxisEnd): bool {
    if IsEndstopHit(s.data.endstopStatusClient, EndstopIdentifier(axis, end)).UnwrapOr(false) then
      true
    else if end == Min then
      Position(s, axis) <= Extent(s, axis, end)
    else
      Position(s, axis) >= Extent(s, axis, end)
  }

  /** `close_enough`: the axis's position and `position` fall on the same motor step. */
  function CloseEnough(s: CutSnapshot, axis: Axis, position: real): bool
    requires HasMotorConfig(s, axis)
  {
    var axisConfig := s.data.configClient.config.motorConfigs[axis];
    InchesToSteps(axisConfig, position) == InchesToSteps(axisConfig, Position(s, axis))
  }

  /** `depth_remaining`: how far Z still is from the target height. */
  function DepthRemaining(s: CutSnapshot): real {
    Abs(TargetHeight(s) - Position(s, Z))
  }

  /** `distance_to_extent`: how far `axis` is from its limit at `end`. */
  function DistanceToExtent(s: CutSnapshot, axis: Axis, end: AxisEnd): real {
    Abs(Extent(s, axis, end) - Position(s, axis))
  }

  /** `get_next_state`. */
  function NextState(s: CutSnapshot): CutState
    requires HasMotorConfig(s, Z)
  {
    match s.state
    case Idle => Idle
    case ToStartingPositionX => ToStartingPositionY
    case ToStartingPositionY => SpindleSpinUp
    case SpindleSpinUp => XCut
    case XCut => XReturn
    case XReturn => if ReachedExtent(s, Y, Min) then YReturn else YOut
    case YOut => XCut
    case YReturn => if CloseEnough(s, Z, TargetHeight(s)) then Idle else ZDown
    case ZDown => XCut
  }

  /**
   * The one message `set_state(st)` sends: Stop for Idle (through the default
   * `stop`), otherwise the spindle command or a move at the stroke speed.
   */
  function Command(s: CutSnapshot, st: CutState): Message {
    var speed := Some(s.cutParams.strokeSpeed);
    match st
    case Idle => Stop
    case ToStartingPositionX => GoToPosition(X, Extent(s, X, Min), speed)
    case ToStartingPositionY => GoToPosition(Y, Extent(s, Y, Max), speed)
    case SpindleSpinUp => SpindleControl(true)
    case XCut => GoToPosition(X, Extent(s, X, Max), speed)
    case XReturn => GoToPosition(X, Extent(s, X, Min), speed)
    case YOut => MoveAxisRel(Y, -MinReal(s.cutParams.feedPerPass, DistanceToExtent(s, Y, Min)), speed)
    case YReturn => GoToPosition(Y, Extent(s, Y, Max), speed)
    case ZDown => MoveAxisRel(Z, -MinReal(s.cutParams.depthOfCut, DepthRemaining(s)), speed)
  }

  /**
   * `set_state(st)`: enter `st` and send its command; entering Idle also asks
   * for the manual-control controller, entering SpindleSpinUp restarts the timer.
   */
  function SetStateStep(s: CutSnapshot, st: CutState, now: real): CutStep {
    CutStep(
      s.(state := st,
         data := if st == Idle then ChangeController(s.data, NoOpParams) else s.data,
         spindleStartedTime := if st == SpindleSpinUp then now else s.spindleStartedTime),
      [Command(s, st)])
  }

  /** `advance_state`. */
  function AdvanceStep(s: CutSnapshot, now: real): CutStep
    requires HasMotorConfig(s, Z)
  {
    SetStateStep(s, NextState(s), now)
  }

  /** `start_cut`: store the parameters, take the current Z as the starting height, head for X-min. */
  function StartCutStep(s: CutSnapshot, params: SurfaceGrinderCutParams, now: real): CutStep {
    SetStateStep(s.(cutParams := params, startingHeight := Position(s, Z)), ToStartingPositionX, now)
  }

  /** `handle_message`. */
  function HandleMessageStep(s: CutSnapshot, msg: Message, now: real): CutStep
    requires HasMotorConfig(s, Z)
  {
    match msg
    case CurrentPosition(p) =>
      CutStep(s.(data := s.data.(positionClient := HandlePositionMessage(s.data.positionClient, p))), [])
    case EndstopHit(h) =>
      CutStep(s.(data := s.data.(endstopStatusClient := ProcessMessage(s.data.endstopStatusClient, h))), [])
    case MovementComplete(_) =>
      if CuttingInProgress(s) then AdvanceStep(s, now) else CutStep(s, [])
    case Stop =>
      CutStep(s.(data := ChangeController(s.data, NoOpParams)), [Messages.Stop])
    case _ =>
      CutStep(s, [])
  }

  /** `update`: leave SpindleSpinUp once the spindle has run for three seconds. */
  function UpdateStep(s: CutSnapshot, now: real): CutStep
    requires HasMotorConfig(s, Z)
  {
    if s.state == SpindleSpinUp && now - s.spindleStartedTime >= SpinUpSeconds then
      AdvanceStep(s, now)
    else
      CutStep(s, [])
  }

  // ---------------------------------------------------------------------------
  // Properties of the sequencer

  /** The transitions that do not depend on the machine's state. */
  lemma FixedTransitions(s: CutSnapshot)
    requires HasMotorConfig(s, Z)
    ensures s.state == Idle ==> NextState(s) == Idle
    ensures s.state == ToStartingPositionX ==> NextState(s) == ToStartingPositionY
    ensures s.state == ToStartingPositionY ==> NextState(s) == SpindleSpinUp
    ensures s.state == SpindleSpinUp ==> NextState(s) == XCut
    ensures s.state == XCut ==> NextState(s) == XReturn
    ensures s.state == YOut ==> NextState(s) == XCut
    ensures s.state == ZDown ==> NextState(s) == XCut
  {
  }

  /** After a return stroke, Y is returned exactly when Y-min has been reached; otherwise Y feeds out. */
  lemma XReturnGuard(s: CutSnapshot)
    requires HasMotorConfig(s, Z) && s.state == XReturn
    ensures NextState(s) in {YReturn, YOut}
    ensures NextState(s) == YReturn <==>
      IsEndstopHit(s.data.endstopStatusClient, EndstopIdentifier(Y, Min)) == Some(true) ||
      Position(s, Y) <= Extent(s, Y, Min)
  {
  }

  /** After Y returns, the cut ends exactly when Z is on the target height's step; otherwise Z goes down. */
  lemma YReturnGuard(s: CutSnapshot)
    requires HasMotorConfig(s, Z) && s.state == YReturn
    ensures NextState(s) in {Idle, ZDown}
    ensures var zConfig := s.data.configClient.config.motorConfigs[Z];
      NextState(s) == Idle <==>
      InchesToSteps(zConfig, Position(s, Z)) == InchesToSteps(zConfig, s.startingHeight - s.cutParams.totalDepth)
  {
  }

  /** A running cut only ends from YReturn; Idle never starts anything. */
  lemma CutEndsOnlyAfterYReturn(s: CutSnapshot)
    requires HasMotorConfig(s, Z)
    ensures NextState(s) == Idle <==> s.state == Idle || (s.state == YReturn && CloseEnough(s, Z, TargetHeight(s)))
  {
  }

  /** Every command is one of the four kinds motor control executes; every move runs at the stroke speed. */
  lemma CommandsUseStrokeSpeed(s: CutSnapshot, st: CutState)
    ensures Command(s, st).GoToPosition? || Command(s, st).MoveAxisRel? ||
            Command(s, st).SpindleControl? || Command(s, st).Stop?
    ensures Command(s, st).GoToPosition? || Command(s, st).MoveAxisRel? ==>
      Command(s, st).speed == Some(s.cutParams.strokeSpeed)
    ensures Command(s, st).Stop? <==> st == Idle
    ensures Command(s, st).SpindleControl? <==> st == SpindleSpinUp
  {
  }

  /**
   * The Y feed moves toward Y-min by at most the feed per pass and never past
   * Y-min: from above Y-min it lands at or above it.
   */
  lemma {:induction false} YFeedDoesNotOvershoot(s: CutSnapshot)
    requires s.cutParams.feedPerPass >= 0.0
    ensures var cmd := Command(s, YOut);
      cmd.MoveAxisRel? && cmd.axis == Y &&
      -s.cutParams.feedPerPass <= cmd.distance <= 0.0 &&
      -DistanceToExtent(s, Y, Min) <= cmd.distance &&
      (Position(s, Y) >= Extent(s, Y, Min) ==> Position(s, Y) + cmd.distance >= Extent(s, Y, Min))
  {
    var d := MinReal(s.cutParams.feedPerPass, DistanceToExtent(s, Y, Min));
    assert 0.0 <= d <= DistanceToExtent(s, Y, Min);
  }

  /**
   * The Z step moves down by at most the depth of cut and never below the
   * target height: from above the target it lands at or above it.
   */
  lemma {:induction false} ZStepDoesNotOvershoot(s: CutSnapshot)
    requires s.cutParams.depthOfCut >= 0.0
    ensures var cmd := Command(s, ZDown);
      cmd.MoveAxisRel? && cmd.axis == Z &&
      -s.cutParams.depthOfCut <= cmd.distance <= 0.0 &&
      -DepthRemaining(s) <= cmd.distance &&
      (Position(s, Z) >= TargetHeight(s) ==> Position(s, Z) + cmd.distance >= TargetHeight(s))
  {
    var d := MinReal(s.cutParams.depthOfCut, DepthRemaining(s));
    assert 0.0 <= d <= DepthRemaining(s);
  }

  /** Starting a cut records the Z height and parameters and sends exactly one move, X to X-min. */
  lemma StartCutHeadsForXMin(s: CutSnapshot, params: SurfaceGrinderCutParams, now: real)
    ensures var r := StartCutStep(s, params, now);
      r.after.state == ToStartingPositionX &&
      r.after.cutParams == params &&
      r.after.startingHeight == Position(s, Z) &&
      r.after.data == s.data &&
      r.sent == [GoToPosition(X, Extent(s, X, Min), Some(params.strokeSpeed))]
  {
  }

  /** A finished move advances the sequence only while a cut is running; otherwise nothing happens. */
  lemma MovementCompleteAdvancesOnlyWhileCutting(s: CutSnapshot, m: MovementCompleteMsg, now: real)
    requires HasMotorConfig(s, Z)
    ensures var r := HandleMessageStep(s, MovementComplete(m), now);
      (s.state == Idle ==> r == CutStep(s, [])) &&
      (s.state != Idle ==> r.after.state == NextState(s) && r.sent == [Command(s, NextState(s))])
  {
  }

  /** The spin-up ends on an update exactly when the spindle has been on for at least three seconds. */
  lemma SpinUpLastsThreeSeconds(s: CutSnapshot, now: real)
    requires HasMotorConfig(s, Z)
    ensures UpdateStep(s, now) != CutStep(s, []) <==>
      s.state == SpindleSpinUp && now - s.spindleStartedTime >= 3.0
    ensures UpdateStep(s, now) != CutStep(s, []) ==> UpdateStep(s, now).after.state == XCut
  {
    if s.state == SpindleSpinUp && now - s.spindleStartedTime >= 3.0 {
      assert UpdateStep(s, now).sent == [Command(s, XCut)];
    }
  }

  /** Entering the spin-up switches the spindle on and restarts the spin-up clock. */
  lemma SpinUpStartsTheSpindle(s: CutSnapshot, now: real)
    ensures SetStateStep(s, SpindleSpinUp, now).sent == [SpindleControl(true)]
    ensures SetStateStep(s, SpindleSpinUp, now).after.spindleStartedTime == now
  {
  }

  /**
   * The approach: from a fresh start, two finished moves and then an update at
   * least three seconds after the second bring the cutter to its first X
   * stroke, having sent X to X-min, Y to Y-max, the spindle on and X to X-max.
   */
  lemma ApproachSequence(s0: CutSnapshot, params: SurfaceGrinderCutParams, m1: MovementCompleteMsg,
                         m2: MovementCompleteMsg, t0: real, t1: real, t2: real, t3: real)
    requires HasMotorConfig(s0, Z)
    requires t3 - t2 >= SpinUpSeconds
    ensures var r0 := StartCutStep(s0, params, t0);
      var r1 := HandleMessageStep(r0.after, MovementComplete(m1), t1);
      var r2 := HandleMessageStep(r1.after, MovementComplete(m2), t2);
      var r3 := UpdateStep(r2.after, t3);
      var speed := Some(params.strokeSpeed);
      r3.after.state == XCut &&
      r0.sent + r1.sent + r2.sent + r3.sent ==
        [GoToPosition(X, Extent(s0, X, Min), speed),
         GoToPosition(Y, Extent(s0, Y, Max), speed),
         SpindleControl(true),
         GoToPosition(X, Extent(s0, X, Max), speed)]
  {
    var r0 := StartCutStep(s0, params, t0);
    var r1 := HandleMessageStep(r0.after, MovementComplete(m1), t1);
    assert r1.after.state == ToStartingPositionY;
    var r2 := HandleMessageStep(r1.after, MovementComplete(m2), t2);
    assert r2.after.state == SpindleSpinUp && r2.after.spindleStartedTime == t2;
  }

  // ---------------------------------------------------------------------------
  // The controller object

  /** Cut controller for a surface grinder. */
  class SurfaceGrinderCutController {
    var commonData: OperationControllerData
    var cutParams: SurfaceGrinderCutParams
    var state: CutState
    var spindleStartedTime: real
    var startingHeight: real

    function Snapshot(): CutSnapshot
      reads this
    {
      CutSnapshot(commonData, cutParams, state, spindleStartedTime, startingHeight)
    }

    /** The sender this controller's commands go to. */
    function Outbox(): Sender
      reads this
    {
      commonData.motorControlSender
    }

    /** `close_enough` unwraps the Z motor configuration. */
    ghost predicate Valid()
      reads this
    {
      HasMotorConfig(Snapshot(), Z)
    }

    /**
     * `SurfaceGrinderCutController::new` (which `make_controller` boxes): starts
     * Idle at height 0, then starts the cut at once.
     */
    constructor (commonData: OperationControllerData, cutParams: SurfaceGrinderCutParams, now: real)
      requires Z in commonData.configClient.config.motorConfigs
      modifies commonData.motorControlSender
      ensures Valid() && Outbox() == commonData.motorControlSender
      ensures var r := StartCutStep(CutSnapshot(commonData, cutParams, Idle, now, 0.0), cutParams, now);
        Snapshot() == r.after && Outbox().sent == old(commonData.motorControlSender.sent) + r.sent
    {
      this.commonData := commonData;
      this.cutParams := cutParams;
      state := Idle;
      spindleStartedTime := now;
      startingHeight := 0.0;
      new;
      StartCut(cutParams, now);
    }

    /** `start_cut`. */
    method StartCut(params: SurfaceGrinderCutParams, now: real)
      requires Valid()
      modifies this, Outbox()
      ensures Valid() && Outbox() == old(Outbox())
      ensures var r := StartCutStep(old(Snapshot()), params, now);
        Snapshot() == r.after && Outbox().sent == old(Outbox().sent) + r.sent
    {
      cutParams := params;
      startingHeight := GetAxisPosition(commonData.positionClient, Z);
      SetState(ToStartingPositionX, now);
    }

    /** The trait's default `stop`. */
    method Stop()
      modifies this, Outbox()
      ensures Outbox() == old(Outbox())
      ensures Snapshot() == old(Snapshot()).(data := ChangeController(old(commonData), NoOpParams))
      ensures Outbox().sent == old(Outbox().sent) + [Messages.Stop]
    {
      commonData := DefaultStop(commonData);
    }

    /** `set_spindle_on`: switch the spindle and restart the spin-up clock. */
    method SetSpindleOn(on: bool, now: real)
      modifies this, Outbox()
      ensures Outbox() == old(Outbox())
      ensures Snapshot() == old(Snapshot()).(spindleStartedTime := now)
      ensures Outbox().sent == old(Outbox().sent) + [SpindleControl(on)]
    {
      SendToMotorControl(commonData, SpindleControl(on));
      spindleStartedTime := now;
    }

    /** `move_axis_to_extent`, `move_to_position`: an absolute move at the stroke speed. */
    method MoveAxisToExtent(axis: Axis, end: AxisEnd)
      ensures Outbox().sent == old(Outbox().sent) +
        [GoToPosition(axis, GetExtent(commonData.workEnvelope, axis, end), Some(cutParams.strokeSpeed))]
      modifies Outbox()
    {
      var position := GetExtent(commonData.workEnvelope, axis, end);
      SendToMotorControl(commonData, GoToPosition(axis, position, Some(cutParams.strokeSpeed)));
    }

    /** `move_relative`: a relative move at the stroke speed. */
    method MoveRelative(axis: Axis, distance: real)
      modifies Outbox()
      ensures Outbox().sent == old(Outbox().sent) + [MoveAxisRel(axis, distance, Some(cutParams.strokeSpeed))]
    {
      SendToMotorControl(commonData, MoveAxisRel(axis, distance, Some(cutParams.strokeSpeed)));
    }

    /** `set_state`. */
    method SetState(st: CutState, now: real)
      modifies this, Outbox()
      ensures Outbox() == old(Outbox())
      ensures var r := SetStateStep(old(Snapshot()), st, now);
        Snapshot() == r.after && Outbox().sent == old(Outbox().sent) + r.sent
    {
      state := st;
      match st
      case Idle => Stop();
      case ToStartingPositionX => MoveAxisToExtent(X, Min);
      case ToStartingPositionY => MoveAxisToExtent(Y, Max);
      case SpindleSpinUp => SetSpindleOn(true, now);
      case XCut => MoveAxisToExtent(X, Max);
      case XReturn => MoveAxisToExtent(X, Min);
      case YOut =>
        MoveRelative(Y, -MinReal(cutParams.feedPerPass, DistanceToExtent(Snapshot(), Y, Min)));
      case YReturn => MoveAxisToExtent(Y, Max);
      case ZDown =>
        MoveRelative(Z, -MinReal(cutParams.depthOfCut, DepthRemaining(Snapshot())));
    }

    /** `advance_state`. */
    method AdvanceState(now: real)
      requires Valid()
      modifies this, Outbox()
      ensures Valid() && Outbox() == old(Outbox())
      ensures var r := AdvanceStep(old(Snapshot()), now);
        Snapshot() == r.after && Outbox().sent == old(Outbox().sent) + r.sent
    {
      SetState(NextState(Snapshot()), now);
    }

    /** `handle_movement_complete`. */
    method HandleMovementComplete(msg: MovementCompleteMsg, now: real)
      requires Valid()
      modifies this, Outbox()
      ensures Valid() && Outbox() == old(Outbox())
      ensures var r := HandleMessageStep(old(Snapshot()), MovementComplete(msg), now);
        Snapshot() == r.after && Outbox().sent == old(Outbox().sent) + r.sent
    {
      if state != Idle {
        AdvanceState(now);
      }
    }

    /** `handle_message`. */
    method HandleMessage(msg: Message, now: real)
      requires Valid()
      modifies this, Outbox()
      ensures Valid() && Outbox() == old(Outbox())
      ensures var r := HandleMessageStep(old(Snapshot()), msg, now);
        Snapshot() == r.after && Outbox().sent == old(Outbox().sent) + r.sent
    {
      match msg
      case CurrentPosition(p) =>
        commonData := commonData.(positionClient := HandlePositionMessage(commonData.positionClient, p));
      case EndstopHit(h) =>
        commonData := commonData.(endstopStatusClient := ProcessMessage(commonData.endstopStatusClient, h));
      case MovementComplete(m) =>
        HandleMovementComplete(m, now);
      case Stop =>
        Stop();
      case GoToPosition(_, _, _) =>
      case MoveAxisRel(_, _, _) =>
      case SpindleControl(_) =>
      case StartHoming =>
      case StartSurfaceGrinderCut(_) =>
    }

    /** `update`, called once per manager loop with the current time. */
    method Update(now: real)
      requires Valid()
      modifies this, Outbox()
      ensures Valid() && Outbox() == old(Outbox())
      ensures var r := UpdateStep(old(Snapshot()), now);
        Snapshot() == r.after && Outbox().sent == old(Outbox().sent) + r.sent
    {
      if state == SpindleSpinUp && now - spindleStartedTime >= SpinUpSeconds {
        AdvanceState(now);
      }
    }
  }
}
