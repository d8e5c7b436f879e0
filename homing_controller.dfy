// The homing sequence that finds the work envelope by driving into the
// endstops (src/operation_controllers/homing_controller.rs).
//
// X is driven toward X-min until its endstop stops it, then toward X-max, then
// Y toward Y-min and Y-max; each time an endstop stops the move, the reported
// position becomes that end of the work envelope. A move that ends without
// hitting the endstop is sent again.
module Homing {
  import opened Common
  import opened Messages
  import opened Config
  import opened EndstopChecker
  import opened Envelope
  import opened MotorControl
  import opened ControllerData
  import opened OperationController

  datatype HomingState = XMinus | XPlus | YMinus | YPlus

  /** How far, in inches, one homing move asks an axis to travel. */
  const HomingTravel: real := 256.0

  /** The axis and end each homing state drives toward. */
  function StateAxis(st: HomingState): Axis {
    match st
    case XMinus => X
    case XPlus => X
    case YMinus => Y
    case YPlus => Y
  }

  function StateEnd(st: HomingState): AxisEnd {
    match st
    case XMinus => Min
    case XPlus => Max
    case YMinus => Min
    case YPlus => Max
  }

  /** Homing drives X and Y and reads both motor configurations. */
  predicate HasHomingConfigs(data: OperationControllerData) {
    X in data.configClient.config.motorConfigs && Y in data.configClient.config.motorConfigs
  }

  /** `get_homing_speed`: the axis's default speed. */
  function HomingSpeed(data: OperationControllerData, axis: Axis): real
    requires axis in data.configClient.config.motorConfigs
  {
    data.configClient.config.motorConfigs[axis].defaultSpeedIps
  }

  /** `move_towards_extent`: a relative move of the full travel toward `end` at the homing speed. */
  function MoveTowardsExtentCommand(data: OperationControllerData, axis: Axis, end: AxisEnd): Message
    requires axis in data.configClient.config.motorConfigs
  {
    MoveAxisRel(axis, if end == Max then HomingTravel else -HomingTravel, Some(HomingSpeed(data, axis)))
  }

  /** The move `set_state(st)` sends. */
  function StateCommand(data: OperationControllerData, st: HomingState): Message
    requires HasHomingConfigs(data)
  {
    MoveTowardsExtentCommand(data, StateAxis(st), StateEnd(st))
  }

  datatype HomingSnapshot = HomingSnapshot(data: OperationControllerData, state: HomingState)

  /** The new snapshot and the messages sent to motor control by one operation. */
  datatype HomingStep = HomingStep(after: HomingSnapshot, sent: seq<Message>)

  /** `set_state`. */
  function SetStateStep(s: HomingSnapshot, st: HomingState): HomingStep
    requires HasHomingConfigs(s.data)
  {
    HomingStep(s.(state := st), [StateCommand(s.data, st)])
  }

  /** The data with the reported position of the state's axis recorded as the state's end of the envelope. */
  function RecordExtent(data: OperationControllerData, st: HomingState): OperationControllerData {
    var axis := StateAxis(st);
    data.(workEnvelope := WithExtent(data.workEnvelope, axis, StateEnd(st), GetAxisPosition(data.positionClient, axis)))
  }

  /** `handle_movement_complete`. */
  function MovementCompleteStep(s: HomingSnapshot, m: MovementCompleteMsg): HomingStep
    requires HasHomingConfigs(s.data)
  {
    if !m.endstopHit then
      SetStateStep(s, s.state)
    else
      var recorded := s.(data := RecordExtent(s.data, s.state));
      match s.state
      case XMinus => SetStateStep(recorded, XPlus)
      case XPlus => SetStateStep(recorded, YMinus)
      case YMinus => SetStateStep(recorded, YPlus)
      case YPlus => HomingStep(recorded.(data := ChangeController(recorded.data, NoOpParams)), [Stop])
  }

  /** `handle_message`. */
  function HandleMessageStep(s: HomingSnapshot, msg: Message): HomingStep
    requires HasHomingConfigs(s.data)
  {
    match msg
    case CurrentPosition(p) =>
      HomingStep(s.(data := s.data.(positionClient := HandlePositionMessage(s.data.positionClient, p))), [])
    case EndstopHit(h) =>
      HomingStep(s.(data := s.data.(endstopStatusClient := ProcessMessage(s.data.endstopStatusClient, h))), [])
    case MovementComplete(m) => MovementCompleteStep(s, m)
    case Stop => HomingStep(s.(data := ChangeController(s.data, NoOpParams)), [Messages.Stop])
    case _ => HomingStep(s, [])
  }

  // ---------------------------------------------------------------------------
  // Properties of the homing sequence

  /** Every homing move drives the state's axis the full travel toward the state's end, at the axis's default speed. */
  lemma HomingMovesTowardTheEnd(data: OperationControllerData, st: HomingState)
    requires HasHomingConfigs(data)
    ensures var cmd := StateCommand(data, st);
      cmd.MoveAxisRel? && cmd.axis == StateAxis(st) &&
      (StateEnd(st) == Min ==> cmd.distance == -256.0) &&
      (StateEnd(st) == Max ==> cmd.distance == 256.0) &&
      cmd.speed == Some(data.configClient.config.motorConfigs[StateAxis(st)].defaultSpeedIps)
  {
  }

  /** A move that ended without hitting the endstop is sent again and nothing else changes. */
  lemma MissedEndstopRetries(s: HomingSnapshot, m: MovementCompleteMsg)
    requires HasHomingConfigs(s.data) && !m.endstopHit
    ensures MovementCompleteStep(s, m) == HomingStep(s, [StateCommand(s.data, s.state)])
  {
  }

  /**
   * A move stopped by its endstop records the axis's reported position as that
   * end of the envelope and leaves every other end of the envelope as it was.
   */
  lemma {:induction false} EndstopHitRecordsOneExtent(s: HomingSnapshot, m: MovementCompleteMsg)
    requires HasHomingConfigs(s.data) && m.endstopHit
    ensures var env := MovementCompleteStep(s, m).after.data.workEnvelope;
      var axis := StateAxis(s.state);
      GetExtent(env, axis, StateEnd(s.state)) == GetAxisPosition(s.data.positionClient, axis) &&
      forall a: Axis, e: AxisEnd :: (a, e) != (axis, StateEnd(s.state)) ==>
        GetExtent(env, a, e) == GetExtent(s.data.workEnvelope, a, e)
  {
    var recorded := RecordExtent(s.data, s.state);
    assert MovementCompleteStep(s, m).after.data.workEnvelope == recorded.workEnvelope;
  }

  /** The states follow XMinus, XPlus, YMinus, YPlus; after YPlus homing stops and hands back to manual control. */
  lemma HomingOrder(s: HomingSnapshot, m: MovementCompleteMsg)
    requires HasHomingConfigs(s.data) && m.endstopHit
    ensures var r := MovementCompleteStep(s, m);
      (s.state == XMinus ==> r.after.state == XPlus) &&
      (s.state == XPlus ==> r.after.state == YMinus) &&
      (s.state == YMinus ==> r.after.state == YPlus) &&
      (s.state == YPlus <==> r.sent == [Stop]) &&
      (s.state == YPlus ==> r.after.data.pendingOperationParams == Some(NoOpParams)) &&
      (s.state != YPlus ==> r.after.data.pendingOperationParams == s.data.pendingOperationParams)
  {
  }

  /** The snapshot a freshly made homing controller has, and the move it sends first. */
  function StartStep(data: OperationControllerData): (r: HomingStep)
    requires HasHomingConfigs(data)
    ensures r.after == HomingSnapshot(data, XMinus)
    ensures r.sent == [MoveAxisRel(X, -256.0, Some(data.configClient.config.motorConfigs[X].defaultSpeedIps))]
  {
    SetStateStep(HomingSnapshot(data, XMinus), XMinus)
  }

  /**
   * A whole homing run: after each of the four moves a position report
   * arrives and then the move ends on its endstop. The envelope ends with
   * X and Y bounds taken from those reports, Z untouched, and the controller
   * asks to be replaced by manual control, having sent the four moves and a Stop.
   */
  lemma {:induction false} HomingRunFindsEnvelope(data: OperationControllerData,
                                                  p1: CurrentPositionMsg, p2: CurrentPositionMsg,
                                                  p3: CurrentPositionMsg, p4: CurrentPositionMsg,
                                                  m1: MovementCompleteMsg, m2: MovementCompleteMsg,
                                                  m3: MovementCompleteMsg, m4: MovementCompleteMsg)
    requires HasHomingConfigs(data)
    requires m1.endstopHit && m2.endstopHit && m3.endstopHit && m4.endstopHit
    ensures var r0 := StartStep(data);
      var a1 := HandleMessageStep(r0.after, CurrentPosition(p1));
      var r1 := HandleMessageStep(a1.after, MovementComplete(m1));
      var a2 := HandleMessageStep(r1.after, CurrentPosition(p2));
      var r2 := HandleMessageStep(a2.after, MovementComplete(m2));
      var a3 := HandleMessageStep(r2.after, CurrentPosition(p3));
      var r3 := HandleMessageStep(a3.after, MovementComplete(m3));
      var a4 := HandleMessageStep(r3.after, CurrentPosition(p4));
      var r4 := HandleMessageStep(a4.after, MovementComplete(m4));
      var env := r4.after.data.workEnvelope;
      env == data.workEnvelope.(minX := p1.x, maxX := p2.x, minY := p3.y, maxY := p4.y) &&
      r4.after.data.pendingOperationParams == Some(NoOpParams) &&
      r0.sent + r1.sent + r2.sent + r3.sent + r4.sent ==
        [StateCommand(data, XMinus), StateCommand(data, XPlus),
         StateCommand(data, YMinus), StateCommand(data, YPlus), Stop]
  {
    var r0 := StartStep(data);
    var a1 := HandleMessageStep(r0.after, CurrentPosition(p1));
    assert a1.sent == [];
    var r1 := HandleMessageStep(a1.after, MovementComplete(m1));
    assert r1.after.state == XPlus && r1.after.data.workEnvelope == data.workEnvelope.(minX := p1.x);
    var a2 := HandleMessageStep(r1.after, CurrentPosition(p2));
    var r2 := HandleMessageStep(a2.after, MovementComplete(m2));
    assert r2.after.state == YMinus && r2.after.data.workEnvelope == data.workEnvelope.(minX := p1.x, maxX := p2.x);
    var a3 := HandleMessageStep(r2.after, CurrentPosition(p3));
    var r3 := HandleMessageStep(a3.after, MovementComplete(m3));
    assert r3.after.state == YPlus &&
      r3.after.data.workEnvelope == data.workEnvelope.(minX := p1.x, maxX := p2.x, minY := p3.y);
    var a4 := HandleMessageStep(r3.after, CurrentPosition(p4));
    var r4 := HandleMessageStep(a4.after, MovementComplete(m4));
    assert r1.sent == [StateCommand(data, XPlus)];
    assert r2.sent == [StateCommand(data, YMinus)];
    assert r3.sent == [StateCommand(data, YPlus)];
  }

  // ---------------------------------------------------------------------------
  // The controller object

  class HomingController {
    var commonData: OperationControllerData
    var state: HomingState

    function Snapshot(): HomingSnapshot
      reads this
    {
      HomingSnapshot(commonData, state)
    }

    /** The sender this controller's commands go to. */
    function Outbox(): Sender
      reads this
    {
      commonData.motorControlSender
    }

    /** `get_homing_speed` unwraps the X and Y motor configurations. */
    ghost predicate Valid()
      reads this
    {
      HasHomingConfigs(commonData)
    }

    /** `HomingController::new` (which `HomingParams::make_controller` boxes): starts homing X toward X-min. */
    constructor (commonData: OperationControllerData)
      requires HasHomingConfigs(commonData)
      modifies commonData.motorControlSender
      ensures Valid() && Outbox() == commonData.motorControlSender
      ensures Snapshot() == StartStep(commonData).after
      ensures Outbox().sent == old(commonData.motorControlSender.sent) + StartStep(commonData).sent
    {
      this.commonData := commonData;
      state := XMinus;
      new;
      SetState(XMinus);
    }

    /** `move_towards_extent`. */
    method MoveTowardsExtent(axis: Axis, end: AxisEnd)
      requires axis in commonData.configClient.config.motorConfigs
      modifies Outbox()
      ensures Outbox().sent == old(Outbox().sent) + [MoveTowardsExtentCommand(commonData, axis, end)]
    {
      match end
      case Max => SendToMotorControl(commonData, MoveAxisRel(axis, HomingTravel, Some(HomingSpeed(commonData, axis))));
      case Min => SendToMotorControl(commonData, MoveAxisRel(axis, -HomingTravel, Some(HomingSpeed(commonData, axis))));
    }

    /** `set_state`. */
    method SetState(st: HomingState)
      requires Valid()
      modifies this, Outbox()
      ensures Valid() && Outbox() == old(Outbox())
      ensures var r := SetStateStep(old(Snapshot()), st);
        Snapshot() == r.after && Outbox().sent == old(Outbox().sent) + r.sent
    {
      state := st;
      match st
      case XMinus => MoveTowardsExtent(X, Min);
      case XPlus => MoveTowardsExtent(X, Max);
      case YMinus => MoveTowardsExtent(Y, Min);
      case YPlus => MoveTowardsExtent(Y, Max);
    }

    /** The trait's default `stop`. */
    method Stop()
      requires Valid()
      modifies this, Outbox()
      ensures Valid() && Outbox() == old(Outbox())
      ensures Snapshot() == old(Snapshot()).(data := ChangeController(old(commonData), NoOpParams))
      ensures Outbox().sent == old(Outbox().sent) + [Messages.Stop]
    {
      commonData := DefaultStop(commonData);
    }

    /** `handle_movement_complete`. */
    method HandleMovementComplete(m: MovementCompleteMsg)
      requires Valid()
      modifies this, Outbox()
      ensures Valid() && Outbox() == old(Outbox())
      ensures var r := MovementCompleteStep(old(Snapshot()), m);
        Snapshot() == r.after && Outbox().sent == old(Outbox().sent) + r.sent
    {
      if !m.endstopHit {
        SetState(state);
        return;
      }
      match state
      case XMinus =>
        commonData := commonData.(workEnvelope := commonData.workEnvelope.(minX := GetAxisPosition(commonData.positionClient, X)));
        SetState(XPlus);
      case XPlus =>
        commonData := commonData.(workEnvelope := commonData.workEnvelope.(maxX := GetAxisPosition(commonData.positionClient, X)));
        SetState(YMinus);
      case YMinus =>
        commonData := commonData.(workEnvelope := commonData.workEnvelope.(minY := GetAxisPosition(commonData.positionClient, Y)));
        SetState(YPlus);
      case YPlus =>
        commonData := commonData.(workEnvelope := commonData.workEnvelope.(maxY := GetAxisPosition(commonData.positionClient, Y)));
        Stop();
    }

    /** `handle_message`. */
    method HandleMessage(msg: Message)
      requires Valid()
      modifies this, Outbox()
      ensures Valid() && Outbox() == old(Outbox())
      ensures var r := HandleMessageStep(old(Snapshot()), msg);
        Snapshot() == r.after && Outbox().sent == old(Outbox().sent) + r.sent
    {
      match msg
      case CurrentPosition(p) =>
        commonData := commonData.(positionClient := HandlePositionMessage(commonData.positionClient, p));
      case EndstopHit(h) =>
        commonData := commonData.(endstopStatusClient := ProcessMessage(commonData.endstopStatusClient, h));
      case MovementComplete(m) =>
        HandleMovementComplete(m);
      case Stop =>
        Stop();
      case GoToPosition(_, _, _) =>
      case MoveAxisRel(_, _, _) =>
      case SpindleControl(_) =>
      case StartHoming =>
      case StartSurfaceGrinderCut(_) =>
    }
  }
}
