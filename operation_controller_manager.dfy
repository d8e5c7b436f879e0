// The owner of the current operation controller, which swaps it when the
// controller asks (src/operation_controllers/operation_controller_manager.rs,
// with the `make_controller` implementations of the parameter types).
//
// The boxed trait object becomes the sum type `Controller`; the state it holds
// is read as the value `ControllerState`, and each manager operation is proved
// equal to a step function over that value.
module OperationControllerManager {
  import opened Common
  import opened Messages
  import opened Config
  import opened EndstopChecker
  import opened Envelope
  import opened MotorControl
  import opened ControllerData
  import opened OperationController
  import opened ManualControl
  import Cut = SurfaceGrinderCut
  import H = Homing

  /** The controller the manager currently drives. */
  datatype Controller =
    | ManualCtl(manual: ManualControlController)
    | CutCtl(cut: Cut.SurfaceGrinderCutController)
    | HomingCtl(homing: H.HomingController)

  function ControllerObject(c: Controller): object {
    match c
    case ManualCtl(m) => m
    case CutCtl(k) => k
    case HomingCtl(h) => h
  }

  /** What the current controller holds. */
  datatype ControllerState =
    | InManual(data: OperationControllerData)
    | InCut(cut: Cut.CutSnapshot)
    | InHoming(homing: H.HomingSnapshot)

  /** The common data of the controller. */
  function DataOf(cs: ControllerState): OperationControllerData {
    match cs
    case InManual(d) => d
    case InCut(s) => s.data
    case InHoming(s) => s.data
  }

  /** Every controller may unwrap the motor configuration of the axes it drives. */
  predicate StateOk(cs: ControllerState) {
    HasAllMotorConfigs(DataOf(cs).configClient.config)
  }

  /** The new controller state and the messages sent to motor control by one manager operation. */
  datatype ManagerStep = ManagerStep(after: ControllerState, sent: seq<Message>)

  /** The data the manager builds its first controller from. */
  function InitialData(config: RustGrindConfig, motorControlSender: Sender): (d: OperationControllerData)
    ensures d.configClient.config == config && d.motorControlSender == motorControlSender
    ensures d.pendingOperationParams == None
    ensures d.workEnvelope == NewWorkEnvelope()
    ensures forall axis :: GetAxisPosition(d.positionClient, axis) == 0.0
    ensures forall id :: IsEndstopHit(d.endstopStatusClient, id) == None
  {
    OperationControllerData(
      ConfigClient(config),
      NewEndstopStatusClient(),
      NewCurrentPositionClient(),
      motorControlSender,
      NewWorkEnvelope(),
      None)
  }

  /**
   * `make_controller` of each parameter type: manual control holds the data as
   * it is; homing and a cut are constructed, and their constructors send the
   * first command at once.
   */
  function MakeControllerStep(params: OperationParams, data: OperationControllerData, now: real): (r: ManagerStep)
    requires HasAllMotorConfigs(data.configClient.config)
    ensures DataOf(r.after) == data
    ensures r.after.InManual? <==> params.NoOpParams?
    ensures r.after.InHoming? <==> params.HomingParams?
    ensures r.after.InCut? <==> params.CutParams?
    ensures params.NoOpParams? ==> r.sent == []
    ensures params.HomingParams? ==> r.after.homing.state == H.XMinus && r.sent == [H.StateCommand(data, H.XMinus)]
    ensures params.CutParams? ==>
      r.after.cut.state == Cut.ToStartingPositionX && r.after.cut.cutParams == params.params &&
      r.after.cut.startingHeight == GetAxisPosition(data.positionClient, Z) &&
      r.sent == [GoToPosition(X, GetExtent(data.workEnvelope, X, Min), Some(params.params.strokeSpeed))]
  {
    match params
    case NoOpParams => ManagerStep(InManual(data), [])
    case HomingParams =>
      var h := H.StartStep(data);
      ManagerStep(InHoming(h.after), h.sent)
    case CutParams(p) =>
      var c := Cut.StartCutStep(Cut.CutSnapshot(data, p, Cut.Idle, now, 0.0), p, now);
      ManagerStep(InCut(c.after), c.sent)
  }

  /**
   * `check_replace_controller`: the pending request is taken; if there was one,
   * the controller is replaced by one made from a clone of the data.
   */
  function CheckReplaceStep(cs: ControllerState, now: real): (r: ManagerStep)
    requires StateOk(cs)
    ensures StateOk(r.after)
    ensures DataOf(r.after) == Clone(DataOf(cs))
    ensures DataOf(cs).pendingOperationParams == None ==> r == ManagerStep(cs, [])
    ensures DataOf(cs).pendingOperationParams.Some? ==>
      r == MakeControllerStep(DataOf(cs).pendingOperationParams.value, Clone(DataOf(cs)), now)
  {
    match DataOf(cs).pendingOperationParams
    case None => ManagerStep(cs, [])
    case Some(params) => MakeControllerStep(params, Clone(DataOf(cs)), now)
  }

  /** `self.controller.handle_message(msg)`. */
  function ControllerMessageStep(cs: ControllerState, msg: Message, now: real): (r: ManagerStep)
    requires StateOk(cs)
    ensures DataOf(r.after).configClient == DataOf(cs).configClient
    ensures DataOf(r.after).motorControlSender == DataOf(cs).motorControlSender
    ensures r.after.InManual? == cs.InManual? && r.after.InCut? == cs.InCut?
  {
    match cs
    case InManual(d) => ManagerStep(InManual(ManualDataAfter(d, msg)), ManualCommands(msg))
    case InCut(s) =>
      var c := Cut.HandleMessageStep(s, msg, now);
      ManagerStep(InCut(c.after), c.sent)
    case InHoming(s) =>
      var h := H.HandleMessageStep(s, msg);
      ManagerStep(InHoming(h.after), h.sent)
  }

  /** `self.controller.update()`: only the cut controller overrides the default, which does nothing. */
  function ControllerUpdateStep(cs: ControllerState, now: real): (r: ManagerStep)
    requires StateOk(cs)
    ensures DataOf(r.after).configClient == DataOf(cs).configClient
    ensures DataOf(r.after).motorControlSender == DataOf(cs).motorControlSender
  {
    match cs
    case InManual(_) => ManagerStep(cs, [])
    case InCut(s) =>
      var c := Cut.UpdateStep(s, now);
      ManagerStep(InCut(c.after), c.sent)
    case InHoming(_) => ManagerStep(cs, [])
  }

  /** `handle_message`: the controller handles the message, then the manager checks for a replacement. */
  function HandleMessageStep(cs: ControllerState, msg: Message, now: real): (r: ManagerStep)
    requires StateOk(cs)
    ensures StateOk(r.after)
    ensures DataOf(r.after).pendingOperationParams == None
    ensures DataOf(r.after).motorControlSender == DataOf(cs).motorControlSender
  {
    var r1 := ControllerMessageStep(cs, msg, now);
    var r2 := CheckReplaceStep(r1.after, now);
    ManagerStep(r2.after, r1.sent + r2.sent)
  }

  /** One iteration's tail: the controller's update, then the replacement check. */
  function UpdateStep(cs: ControllerState, now: real): (r: ManagerStep)
    requires StateOk(cs)
    ensures StateOk(r.after)
    ensures DataOf(r.after).pendingOperationParams == None
    ensures DataOf(r.after).motorControlSender == DataOf(cs).motorControlSender
  {
    var r1 := ControllerUpdateStep(cs, now);
    var r2 := CheckReplaceStep(r1.after, now);
    ManagerStep(r2.after, r1.sent + r2.sent)
  }

  /**
   * `shutdown`: the controller's `stop`. Manual control only sends Stop; the
   * others use the default, which also asks for manual control.
   */
  function ShutdownStep(cs: ControllerState): (r: ManagerStep)
    ensures r.sent == [Stop]
    ensures cs.InManual? ==> r.after == cs
    ensures !cs.InManual? ==> DataOf(r.after) == ChangeController(DataOf(cs), NoOpParams)
  {
    match cs
    case InManual(_) => ManagerStep(cs, [Stop])
    case InCut(s) => ManagerStep(InCut(s.(data := ChangeController(s.data, NoOpParams))), [Stop])
    case InHoming(s) => ManagerStep(InHoming(s.(data := ChangeController(s.data, NoOpParams))), [Stop])
  }

  // ---------------------------------------------------------------------------
  // Properties of the swap protocol

  /** The default update, used by manual control and homing, changes nothing and sends nothing. */
  lemma DefaultUpdateChangesNothing(cs: ControllerState, now: real)
    requires StateOk(cs) && !cs.InCut?
    ensures ControllerUpdateStep(cs, now) == ManagerStep(cs, [])
  {
  }

  /**
   * Stop, whatever controller is running, sends exactly one Stop and leaves
   * manual control in charge of the same data.
   */
  lemma StopReturnsToManualControl(cs: ControllerState, now: real)
    requires StateOk(cs) && DataOf(cs).pendingOperationParams == None
    ensures HandleMessageStep(cs, Stop, now) == ManagerStep(InManual(DataOf(cs)), [Stop])
  {
    var r1 := ControllerMessageStep(cs, Stop, now);
    match cs
    case InManual(d) =>
      assert r1 == ManagerStep(cs, [Stop]);
    case InCut(s) =>
      assert DataOf(r1.after).pendingOperationParams == Some(NoOpParams);
      assert Clone(DataOf(r1.after)) == DataOf(cs);
    case InHoming(s) =>
      assert DataOf(r1.after).pendingOperationParams == Some(NoOpParams);
      assert Clone(DataOf(r1.after)) == DataOf(cs);
  }

  /**
   * A cut request in manual control replaces it by a cut controller over the
   * same data, which has already sent X toward X-min.
   */
  lemma CutRequestStartsCut(d: OperationControllerData, p: SurfaceGrinderCutParams, now: real)
    requires HasAllMotorConfigs(d.configClient.config) && d.pendingOperationParams == None
    ensures var r := HandleMessageStep(InManual(d), StartSurfaceGrinderCut(p), now);
      r.after.InCut? && r.after.cut.data == d &&
      r.after.cut.state == Cut.ToStartingPositionX && r.after.cut.cutParams == p &&
      r.after.cut.startingHeight == GetAxisPosition(d.positionClient, Z) &&
      r.sent == [GoToPosition(X, GetExtent(d.workEnvelope, X, Min), Some(p.strokeSpeed))]
  {
    var r1 := ControllerMessageStep(InManual(d), StartSurfaceGrinderCut(p), now);
    assert r1 == ManagerStep(InManual(ChangeController(d, CutParams(p))), []);
    assert Clone(DataOf(r1.after)) == d;
  }

  /** A running cut or homing run ignores new cut and homing requests. */
  lemma BusyControllersIgnoreRequests(cs: ControllerState, msg: Message, now: real)
    requires StateOk(cs) && DataOf(cs).pendingOperationParams == None && !cs.InManual?
    requires msg.StartSurfaceGrinderCut? || msg.StartHoming?
    ensures HandleMessageStep(cs, msg, now) == ManagerStep(cs, [])
  {
    assert ControllerMessageStep(cs, msg, now) == ManagerStep(cs, []);
  }

  /** Manual control never hands over to homing: no message and no update starts a homing run. */
  lemma ManualControlNeverStartsHoming(d: OperationControllerData, msg: Message, now: real)
    requires HasAllMotorConfigs(d.configClient.config) && d.pendingOperationParams == None
    ensures !HandleMessageStep(InManual(d), msg, now).after.InHoming?
    ensures UpdateStep(InManual(d), now) == ManagerStep(InManual(d), [])
  {
    var r1 := ControllerMessageStep(InManual(d), msg, now);
    assert r1.after == InManual(ManualDataAfter(d, msg));
  }

  /**
   * The last Z pass of a cut: once Y has returned with Z on the target step,
   * the finished move ends the cut, sends Stop and leaves manual control in
   * charge of the same data.
   */
  lemma FinishedCutReturnsToManualControl(s: Cut.CutSnapshot, m: MovementCompleteMsg, now: real)
    requires HasAllMotorConfigs(s.data.configClient.config) && s.data.pendingOperationParams == None
    requires s.state == Cut.YReturn && Cut.CloseEnough(s, Z, Cut.TargetHeight(s))
    ensures HandleMessageStep(InCut(s), MovementComplete(m), now) == ManagerStep(InManual(s.data), [Stop])
  {
    var r1 := ControllerMessageStep(InCut(s), MovementComplete(m), now);
    assert r1.after.cut.state == Cut.Idle;
    assert r1.sent == [Stop];
    assert DataOf(r1.after) == ChangeController(s.data, NoOpParams);
    assert Clone(DataOf(r1.after)) == s.data;
  }

  /**
   * The last homing move: once Y reaches its Y-max endstop, the Y-max bound is
   * recorded, Stop is sent and manual control takes over with the new envelope.
   */
  lemma FinishedHomingReturnsToManualControl(s: H.HomingSnapshot, m: MovementCompleteMsg, now: real)
    requires HasAllMotorConfigs(s.data.configClient.config) && s.data.pendingOperationParams == None
    requires s.state == H.YPlus && m.endstopHit
    ensures var r := HandleMessageStep(InHoming(s), MovementComplete(m), now);
      r.after.InManual? && r.sent == [Stop] &&
      r.after.data == s.data.(workEnvelope := s.data.workEnvelope.(maxY := GetAxisPosition(s.data.positionClient, Y)))
  {
    var r1 := ControllerMessageStep(InHoming(s), MovementComplete(m), now);
    assert r1.sent == [Stop];
    assert DataOf(r1.after).pendingOperationParams == Some(NoOpParams);
  }

  // ---------------------------------------------------------------------------
  // The manager object

  class OperationControllerManager {
    var controller: Controller

    /** What the current controller holds. */
    function State(): ControllerState
      reads this, ControllerObject(controller)
    {
      match controller
      case ManualCtl(m) => InManual(m.commonData)
      case CutCtl(c) => InCut(c.Snapshot())
      case HomingCtl(h) => InHoming(h.Snapshot())
    }

    /** The motor-control channel every controller sends to. */
    function Outbox(): Sender
      reads this, ControllerObject(controller)
    {
      DataOf(State()).motorControlSender
    }

    ghost predicate Valid()
      reads this, ControllerObject(controller)
    {
      StateOk(State())
    }

    /** `OperationControllerManager::new`: starts in manual control over fresh caches and the default envelope. */
    constructor (config: RustGrindConfig, motorControlSender: Sender)
      requires HasAllMotorConfigs(config)
      ensures Valid()
      ensures State() == InManual(InitialData(config, motorControlSender))
    {
      var m := new ManualControlController(InitialData(config, motorControlSender));
      controller := ManualCtl(m);
    }

    /** `pending_operation_params.take()` on the current controller. */
    method TakePending() returns (pending: Option<OperationParams>)
      requires Valid()
      modifies ControllerObject(controller)
      ensures Valid() && Outbox() == old(Outbox())
      ensures pending == old(DataOf(State())).pendingOperationParams
      ensures DataOf(State()) == old(DataOf(State())).(pendingOperationParams := None)
      ensures State().InManual? == old(State()).InManual? && State().InCut? == old(State()).InCut?
      ensures State().InCut? ==> State().cut == old(State()).cut.(data := DataOf(State()))
      ensures State().InHoming? ==> State().homing == old(State()).homing.(data := DataOf(State()))
    {
      match controller
      case ManualCtl(m) =>
        pending := m.commonData.pendingOperationParams;
        m.commonData := m.commonData.(pendingOperationParams := None);
      case CutCtl(c) =>
        pending := c.commonData.pendingOperationParams;
        c.commonData := c.commonData.(pendingOperationParams := None);
      case HomingCtl(h) =>
        pending := h.commonData.pendingOperationParams;
        h.commonData := h.commonData.(pendingOperationParams := None);
    }

    /** `check_replace_controller`. */
    method CheckReplaceController(now: real)
      requires Valid()
      modifies this, ControllerObject(controller), Outbox()
      ensures Valid() && Outbox() == old(Outbox())
      ensures ControllerObject(controller) == old(ControllerObject(controller)) || fresh(ControllerObject(controller))
      ensures var r := CheckReplaceStep(old(State()), now);
        State() == r.after && Outbox().sent == old(Outbox().sent) + r.sent
    {
      var pending := TakePending();
      match pending
      case None =>
      case Some(params) =>
        var data := Clone(DataOf(State()));
        match params
        case NoOpParams =>
          var m := new ManualControlController(data);
          controller := ManualCtl(m);
        case HomingParams =>
          var h := new H.HomingController(data);
          controller := HomingCtl(h);
        case CutParams(p) =>
          var c := new Cut.SurfaceGrinderCutController(data, p, now);
          controller := CutCtl(c);
    }

    /** `self.controller.handle_message(msg)`. */
    method DispatchMessage(msg: Message, now: real)
      requires Valid()
      modifies ControllerObject(controller), Outbox()
      ensures Valid() && Outbox() == old(Outbox())
      ensures var r := ControllerMessageStep(old(State()), msg, now);
        State() == r.after && Outbox().sent == old(Outbox().sent) + r.sent
    {
      match controller
      case ManualCtl(m) => m.HandleMessage(msg);
      case CutCtl(c) => c.HandleMessage(msg, now);
      case HomingCtl(h) => h.HandleMessage(msg);
    }

    /** `handle_message`. */
    method HandleMessage(msg: Message, now: real)
      requires Valid()
      modifies this, ControllerObject(controller), Outbox()
      ensures Valid() && Outbox() == old(Outbox())
      ensures ControllerObject(controller) == old(ControllerObject(controller)) || fresh(ControllerObject(controller))
      ensures var r := HandleMessageStep(old(State()), msg, now);
        State() == r.after && Outbox().sent == old(Outbox().sent) + r.sent
    {
      DispatchMessage(msg, now);
      CheckReplaceController(now);
    }

    /** The tail of each pass of `run`: the controller's `update`, then `check_replace_controller`. */
    method Iterate(now: real)
      requires Valid()
      modifies this, ControllerObject(controller), Outbox()
      ensures Valid() && Outbox() == old(Outbox())
      ensures ControllerObject(controller) == old(ControllerObject(controller)) || fresh(ControllerObject(controller))
      ensures var r := UpdateStep(old(State()), now);
        State() == r.after && Outbox().sent == old(Outbox().sent) + r.sent
    {
      match controller {
        case ManualCtl(_) =>
        case CutCtl(c) => c.Update(now);
        case HomingCtl(_) =>
      }
      CheckReplaceController(now);
    }

    /** `shutdown`: the current controller's `stop`. */
    method Shutdown()
      requires Valid()
      modifies ControllerObject(controller), Outbox()
      ensures Valid() && Outbox() == old(Outbox())
      ensures var r := ShutdownStep(old(State()));
        State() == r.after && Outbox().sent == old(Outbox().sent) + r.sent
    {
      match controller
      case ManualCtl(m) => m.Stop();
      case CutCtl(c) => c.Stop();
      case HomingCtl(h) => h.Stop();
    }
  }
}
