// The earlier, standalone surface grinder cut controller
// (src/surface_grinder_cut_controller.rs). It owns its caches, forwards manual
// commands itself while no cut runs, and its moves carry no speed.
module LegacyCut {
  import opened Common
  import opened Messages
  import opened Config
  import opened EndstopChecker
  import opened Envelope
  import opened MotorControl
  import opened ControllerData
  import Cut = SurfaceGrinderCut

  /** `SurfaceGrinderCutParams::new`: every parameter zero. */
  function ZeroCutParams(): (p: SurfaceGrinderCutParams)
    ensures p.depthOfCut == 0.0 && p.feedPerPass == 0.0 && p.strokeSpeed == 0.0 && p.totalDepth == 0.0
  {
    SurfaceGrinderCutParams(0.0, 0.0, 0.0, 0.0)
  }

  /** Everything the controller holds apart from its channels. */
  datatype LegacySnapshot = LegacySnapshot(
    configClient: ConfigClient,
    cutParams: SurfaceGrinderCutParams,
    positionClient: CurrentPositionClient,
    endstopStatusClient: EndstopStatusClient,
    state: Cut.CutState,
    workEnvelope: WorkEnvelope,
    spindleStartedTime: real,
    startingHeight: real)

  /** The new snapshot and the messages sent to motor control by one operation. */
  datatype LegacyStep = LegacyStep(after: LegacySnapshot, sent: seq<Message>)

  /** The snapshot of a new controller (`SurfaceGrinderCutController::new`). */
  function InitialSnapshot(config: RustGrindConfig, now: real): (s: LegacySnapshot)
    ensures s.state == Cut.Idle && !CuttingInProgress(s)
    ensures s.startingHeight == 0.0 && s.cutParams == ZeroCutParams()
    ensures s.workEnvelope == NewWorkEnvelope()
    ensures forall axis :: GetAxisPosition(s.positionClient, axis) == 0.0
    ensures forall id :: IsEndstopHit(s.endstopStatusClient, id) == None
  {
    LegacySnapshot(ConfigClient(config), ZeroCutParams(), NewCurrentPositionClient(),
                   NewEndstopStatusClient(), Cut.Idle, NewWorkEnvelope(), now, 0.0)
  }

  predicate HasZConfig(s: LegacySnapshot) {
    Z in s.configClient.config.motorConfigs
  }

  /** `cutting_in_progress`. */
  predicate CuttingInProgress(s: LegacySnapshot) {
    s.state != Cut.Idle
  }

  function Abs(x: real): real {
    if x < 0.0 then -x else x
  }

  /** `reached_extent`. */
  function ReachedExtent(s: LegacySnapshot, axis: Axis, end: AxisEnd): bool {
    if IsEndstopHit(s.endstopStatusClient, EndstopIdentifier(axis, end)).UnwrapOr(false) then
      true
    else if end == Min then
      GetAxisPosition(s.positionClient, axis) <= GetExtent(s.workEnvelope, axis, end)
    else
      GetAxisPosition(s.positionClient, axis) >= GetExtent(s.workEnvelope, axis, end)
  }

  /** `close_enough`. */
  function CloseEnough(s: LegacySnapshot, axis: Axis, position: real): bool
    requires axis in s.configClient.config.motorConfigs
  {
    var axisConfig := s.configClient.config.motorConfigs[axis];
    InchesToSteps(axisConfig, GetAxisPosition(s.positionClient, axis)) == InchesToSteps(axisConfig, position)
  }

  /** `depth_remaining`. */
  function DepthRemaining(s: LegacySnapshot): real {
    Abs((s.startingHeight - s.cutParams.totalDepth) - GetAxisPosition(s.positionClient, Z))
  }

  /** `distance_to_extent`. */
  function DistanceToExtent(s: LegacySnapshot, axis: Axis, end: AxisEnd): real {
    Abs(GetExtent(s.workEnvelope, axis, end) - GetAxisPosition(s.positionClient, axis))
  }

  /** `get_next_state`. */
  function NextState(s: LegacySnapshot): Cut.CutState
    requires HasZConfig(s)
  {
    match s.state
    case Idle => Cut.Idle
    case ToStartingPositionX => Cut.ToStartingPositionY
    case ToStartingPositionY => Cut.SpindleSpinUp
    case SpindleSpinUp => Cut.XCut
    case XCut => Cut.XReturn
    case XReturn => if ReachedExtent(s, Y, Min) then Cut.YReturn else Cut.YOut
    case YOut => Cut.XCut
    case YReturn =>
      if CloseEnough(s, Z, s.startingHeight - s.cutParams.totalDepth) then Cut.Idle else Cut.ZDown
    case ZDown => Cut.XCut
  }

  /** The one message `set_state(st)` sends; these moves carry no speed. */
  function Command(s: LegacySnapshot, st: Cut.CutState): Message {
    match st
    case Idle => Stop
    case ToStartingPositionX => GoToPosition(X, GetExtent(s.workEnvelope, X, Min), None)
    case ToStartingPositionY => GoToPosition(Y, GetExtent(s.workEnvelope, Y, Max), None)
    case SpindleSpinUp => SpindleControl(true)
    case XCut => GoToPosition(X, GetExtent(s.workEnvelope, X, Max), None)
    case XReturn => GoToPosition(X, GetExtent(s.workEnvelope, X, Min), None)
    case YOut => MoveAxisRel(Y, -Cut.MinReal(s.cutParams.feedPerPass, DistanceToExtent(s, Y, Min)), None)
    case YReturn => GoToPosition(Y, GetExtent(s.workEnvelope, Y, Max), None)
    case ZDown => MoveAxisRel(Z, -Cut.MinReal(s.cutParams.depthOfCut, DepthRemaining(s)), None)
  }

  /** `set_state`: entering Idle goes through `stop`, which leaves the state Idle. */
  function SetStateStep(s: LegacySnapshot, st: Cut.CutState, now: real): LegacyStep {
    LegacyStep(
      s.(state := st, spindleStartedTime := if st == Cut.SpindleSpinUp then now else s.spindleStartedTime),
      [Command(s, st)])
  }

  /** `advance_state`. */
  function AdvanceStep(s: LegacySnapshot, now: real): LegacyStep
    requires HasZConfig(s)
  {
    SetStateStep(s, NextState(s), now)
  }

  /** `start_cut`. */
  function StartCutStep(s: LegacySnapshot, params: SurfaceGrinderCutParams, now: real): LegacyStep {
    SetStateStep(s.(cutParams := params, startingHeight := GetAxisPosition(s.positionClient, Z)),
                 Cut.ToStartingPositionX, now)
  }

  /** `stop`: one Stop message, and the state becomes Idle. */
  function StopStep(s: LegacySnapshot): LegacyStep {
    LegacyStep(s.(state := Cut.Idle), [Stop])
  }

  /** `forward_to_motor_control`. */
  function ForwardStep(s: LegacySnapshot, msg: Message): LegacyStep {
    LegacyStep(s, if CuttingInProgress(s) then [] else [msg])
  }

  /** `handle_message`. */
  function HandleMessageStep(s: LegacySnapshot, msg: Message, now: real): LegacyStep
    requires HasZConfig(s)
  {
    match msg
    case CurrentPosition(p) => LegacyStep(s.(positionClient := HandlePositionMessage(s.positionClient, p)), [])
    case EndstopHit(h) => LegacyStep(s.(endstopStatusClient := ProcessMessage(s.endstopStatusClient, h)), [])
    case GoToPosition(_, _, _) => ForwardStep(s, msg)
    case MoveAxisRel(_, _, _) => ForwardStep(s, msg)
    case MovementComplete(_) => if CuttingInProgress(s) then AdvanceStep(s, now) else LegacyStep(s, [])
    case SpindleControl(_) => ForwardStep(s, msg)
    case StartSurfaceGrinderCut(params) => StartCutStep(s, params, now)
    case Stop => StopStep(s)
    case StartHoming => LegacyStep(s, [])
  }

  /** The spin-up check of each pass of `run`. */
  function RunCheckStep(s: LegacySnapshot, now: real): LegacyStep
    requires HasZConfig(s)
  {
    if s.state == Cut.SpindleSpinUp && now - s.spindleStartedTime >= Cut.SpinUpSeconds then
      AdvanceStep(s, now)
    else
      LegacyStep(s, [])
  }

  // ---------------------------------------------------------------------------
  // The legacy controller against the current one

  /** The same machine state as the current controller holds it (with nothing pending). */
  function AsCurrent(s: LegacySnapshot, sender: Sender): Cut.CutSnapshot {
    Cut.CutSnapshot(
      OperationControllerData(s.configClient, s.endstopStatusClient, s.positionClient, sender, s.workEnvelope, None),
      s.cutParams, s.state, s.spindleStartedTime, s.startingHeight)
  }

  /** A command as the legacy messages carry it: without a speed. */
  function WithoutSpeed(m: Message): Message {
    match m
    case GoToPosition(axis, target, _) => GoToPosition(axis, target, None)
    case MoveAxisRel(axis, distance, _) => MoveAxisRel(axis, distance, None)
    case _ => m
  }

  /** The transition table, guards included, is the current controller's. */
  lemma {:induction false} SameTransitionTable(s: LegacySnapshot, sender: Sender)
    requires HasZConfig(s)
    ensures NextState(s) == Cut.NextState(AsCurrent(s, sender))
  {
    var c := AsCurrent(s, sender);
    assert ReachedExtent(s, Y, Min) == Cut.ReachedExtent(c, Y, Min);
    assert CloseEnough(s, Z, s.startingHeight - s.cutParams.totalDepth) == Cut.CloseEnough(c, Z, Cut.TargetHeight(c));
  }

  /** Each state sends the current controller's command, without its speed. */
  lemma {:induction false} SameCommandsWithoutSpeed(s: LegacySnapshot, sender: Sender, st: Cut.CutState)
    ensures Command(s, st) == WithoutSpeed(Cut.Command(AsCurrent(s, sender), st))
  {
    var c := AsCurrent(s, sender);
    assert DistanceToExtent(s, Y, Min) == Cut.DistanceToExtent(c, Y, Min);
    assert DepthRemaining(s) == Cut.DepthRemaining(c);
  }

  /** Stop, whatever the state, sends exactly one Stop and leaves the controller Idle. */
  lemma StopAlwaysIdles(s: LegacySnapshot, now: real)
    requires HasZConfig(s)
    ensures var r := HandleMessageStep(s, Stop, now);
      r.sent == [Stop] && r.after.state == Cut.Idle && !CuttingInProgress(r.after) &&
      r.after.(state := s.state) == s
  {
  }

  /** Manual motion and spindle commands reach motor control, unchanged, only while no cut is running. */
  lemma ManualCommandsOnlyWhenIdle(s: LegacySnapshot, msg: Message, now: real)
    requires HasZConfig(s)
    requires msg.GoToPosition? || msg.MoveAxisRel? || msg.SpindleControl?
    ensures HandleMessageStep(s, msg, now).after == s
    ensures HandleMessageStep(s, msg, now).sent == [msg] <==> !CuttingInProgress(s)
    ensures HandleMessageStep(s, msg, now).sent == [] <==> CuttingInProgress(s)
  {
  }

  /**
   * A cut request starts the cut from the beginning whatever the state, even
   * in the middle of a cut: the current Z becomes the starting height and X
   * heads for X-min.
   */
  lemma CutRequestRestartsCut(s: LegacySnapshot, params: SurfaceGrinderCutParams, now: real)
    requires HasZConfig(s)
    ensures var r := HandleMessageStep(s, StartSurfaceGrinderCut(params), now);
      r.after.state == Cut.ToStartingPositionX && r.after.cutParams == params &&
      r.after.startingHeight == GetAxisPosition(s.positionClient, Z) &&
      r.sent == [GoToPosition(X, GetExtent(s.workEnvelope, X, Min), None)]
  {
  }

  /** The run loop leaves the spin-up exactly when the spindle has been on for three seconds, for XCut. */
  lemma RunLeavesSpinUpAfterThreeSeconds(s: LegacySnapshot, now: real)
    requires HasZConfig(s)
    ensures RunCheckStep(s, now) != LegacyStep(s, []) <==>
      s.state == Cut.SpindleSpinUp && now - s.spindleStartedTime >= 3.0
    ensures RunCheckStep(s, now) != LegacyStep(s, []) ==>
      RunCheckStep(s, now).after.state == Cut.XCut && RunCheckStep(s, now).sent == [GoToPosition(X, GetExtent(s.workEnvelope, X, Max), None)]
  {
    if s.state == Cut.SpindleSpinUp && now - s.spindleStartedTime >= 3.0 {
      assert RunCheckStep(s, now).sent == [Command(s, Cut.XCut)];
    }
  }

  /** Entering the spin-up switches the spindle on and restarts the spin-up clock. */
  lemma SpinUpStartsTheSpindle(s: LegacySnapshot, now: real)
    ensures SetStateStep(s, Cut.SpindleSpinUp, now).sent == [SpindleControl(true)]
    ensures SetStateStep(s, Cut.SpindleSpinUp, now).after.spindleStartedTime == now
  {
  }

  // ---------------------------------------------------------------------------
  // The controller object

  /** Cut controller for a surface grinder (the earlier, standalone one). */
  class LegacyCutController {
    var configClient: ConfigClient
    var cutParams: SurfaceGrinderCutParams
    var positionClient: CurrentPositionClient
    var endstopStatusClient: EndstopStatusClient
    var motorControlSender: Sender
    var state: Cut.CutState
    var workEnvelope: WorkEnvelope
    var spindleStartedTime: real
    var startingHeight: real

    function Snapshot(): LegacySnapshot
      reads this
    {
      LegacySnapshot(configClient, cutParams, positionClient, endstopStatusClient, state,
                     workEnvelope, spindleStartedTime, startingHeight)
    }

    /** `close_enough` unwraps the Z motor configuration. */
    ghost predicate Valid()
      reads this
    {
      HasZConfig(Snapshot())
    }

    /** `SurfaceGrinderCutController::new`. */
    constructor (config: RustGrindConfig, motorControlSender: Sender, now: real)
      requires Z in config.motorConfigs
      ensures Valid() && this.motorControlSender == motorControlSender
      ensures Snapshot() == InitialSnapshot(config, now)
    {
      configClient := ConfigClient(config);
      cutParams := ZeroCutParams();
      positionClient := NewCurrentPositionClient();
      endstopStatusClient := NewEndstopStatusClient();
      this.motorControlSender := motorControlSender;
      state := Cut.Idle;
      workEnvelope := NewWorkEnvelope();
      spindleStartedTime := now;
      startingHeight := 0.0;
    }

    /** `start_cut`. */
    method StartCut(params: SurfaceGrinderCutParams, now: real)
      modifies this, motorControlSender
      ensures motorControlSender == old(motorControlSender)
      ensures var r := StartCutStep(old(Snapshot()), params, now);
        Snapshot() == r.after && motorControlSender.sent == old(motorControlSender.sent) + r.sent
    {
      cutParams := params;
      startingHeight := GetAxisPosition(positionClient, Z);
      SetState(Cut.ToStartingPositionX, now);
    }

    /** `stop`. */
    method Stop()
      modifies this, motorControlSender
      ensures motorControlSender == old(motorControlSender)
      ensures var r := StopStep(old(Snapshot()));
        Snapshot() == r.after && motorControlSender.sent == old(motorControlSender.sent) + r.sent
    {
      motorControlSender.Send(Messages.Stop);
      state := Cut.Idle;
    }

    /** `set_spindle_on`. */
    method SetSpindleOn(on: bool, now: real)
      modifies this, motorControlSender
      ensures motorControlSender == old(motorControlSender)
      ensures Snapshot() == old(Snapshot()).(spindleStartedTime := now)
      ensures motorControlSender.sent == old(motorControlSender.sent) + [SpindleControl(on)]
    {
      motorControlSender.Send(SpindleControl(on));
      spindleStartedTime := now;
    }

    /** `move_axis_to_extent` through `move_to_position`. */
    method MoveAxisToExtent(axis: Axis, end: AxisEnd)
      modifies motorControlSender
      ensures motorControlSender.sent == old(motorControlSender.sent) + [GoToPosition(axis, GetExtent(workEnvelope, axis, end), None)]
    {
      var position := GetExtent(workEnvelope, axis, end);
      MoveToPosition(axis, position);
    }

    /** `move_to_position`. */
    method MoveToPosition(axis: Axis, position: real)
      modifies motorControlSender
      ensures motorControlSender.sent == old(motorControlSender.sent) + [GoToPosition(axis, position, None)]
    {
      motorControlSender.Send(GoToPosition(axis, position, None));
    }

    /** `move_relative`. */
    method MoveRelative(axis: Axis, distance: real)
      modifies motorControlSender
      ensures motorControlSender.sent == old(motorControlSender.sent) + [MoveAxisRel(axis, distance, None)]
    {
      motorControlSender.Send(MoveAxisRel(axis, distance, None));
    }

    /** `forward_to_motor_control`. */
    method ForwardToMotorControl(msg: Message)
      modifies motorControlSender
      ensures motorControlSender.sent == old(motorControlSender.sent) + ForwardStep(Snapshot(), msg).sent
    {
      if state == Cut.Idle {
        motorControlSender.Send(msg);
      }
    }

    /** `set_state`. */
    method SetState(st: Cut.CutState, now: real)
      modifies this, motorControlSender
      ensures motorControlSender == old(motorControlSender)
      ensures var r := SetStateStep(old(Snapshot()), st, now);
        Snapshot() == r.after && motorControlSender.sent == old(motorControlSender.sent) + r.sent
    {
      state := st;
      match st
      case Idle => Stop();
      case ToStartingPositionX => MoveAxisToExtent(X, Min);
      case ToStartingPositionY => MoveAxisToExtent(Y, Max);
      case SpindleSpinUp => SetSpindleOn(true, now);
      case XCut => MoveAxisToExtent(X, Max);
      case XReturn => MoveAxisToExtent(X, Min);
      case YOut => MoveRelative(Y, -Cut.MinReal(cutParams.feedPerPass, DistanceToExtent(Snapshot(), Y, Min)));
      case YReturn => MoveAxisToExtent(Y, Max);
      case ZDown => MoveRelative(Z, -Cut.MinReal(cutParams.depthOfCut, DepthRemaining(Snapshot())));
    }

    /** `advance_state`. */
    method AdvanceState(now: real)
      requires Valid()
      modifies this, motorControlSender
      ensures Valid() && motorControlSender == old(motorControlSender)
      ensures var r := AdvanceStep(old(Snapshot()), now);
        Snapshot() == r.after && motorControlSender.sent == old(motorControlSender.sent) + r.sent
    {
      SetState(NextState(Snapshot()), now);
    }

    /** `handle_message`. */
    method HandleMessage(msg: Message, now: real)
      requires Valid()
      modifies this, motorControlSender
      ensures Valid() && motorControlSender == old(motorControlSender)
      ensures var r := HandleMessageStep(old(Snapshot()), msg, now);
        Snapshot() == r.after && motorControlSender.sent == old(motorControlSender.sent) + r.sent
    {
      match msg
      case CurrentPosition(p) => positionClient := HandlePositionMessage(positionClient, p);
      case EndstopHit(h) => endstopStatusClient := ProcessMessage(endstopStatusClient, h);
      case GoToPosition(_, _, _) => ForwardToMotorControl(msg);
      case MoveAxisRel(_, _, _) => ForwardToMotorControl(msg);
      case MovementComplete(_) =>
        if state != Cut.Idle {
          AdvanceState(now);
        }
      case SpindleControl(_) => ForwardToMotorControl(msg);
      case StartSurfaceGrinderCut(params) => StartCut(params, now);
      case Stop => Stop();
      case StartHoming =>
    }

    /** `shutdown`. */
    method Shutdown()
      modifies this, motorControlSender
      ensures motorControlSender == old(motorControlSender)
      ensures var r := StopStep(old(Snapshot()));
        Snapshot() == r.after && motorControlSender.sent == old(motorControlSender.sent) + r.sent
    {
      Stop();
    }

    /** The spin-up check of each pass of `run`. */
    method RunCheck(now: real)
      requires Valid()
      modifies this, motorControlSender
      ensures Valid() && motorControlSender == old(motorControlSender)
      ensures var r := RunCheckStep(old(Snapshot()), now);
        Snapshot() == r.after && motorControlSender.sent == old(motorControlSender.sent) + r.sent
    {
      if state == Cut.SpindleSpinUp && now - spindleStartedTime >= Cut.SpinUpSeconds {
        AdvanceState(now);
      }
    }
  }
}
