// The idle controller that passes manual commands through to motor control
// (src/operation_controllers/manual_control_controller.rs).
module ManualControl {
  import opened Common
  import opened Messages
  import opened EndstopChecker
  import opened MotorControl
  import opened ControllerData
  import opened OperationController

  /** What manual control does with the data it holds when `msg` arrives. */
  function ManualDataAfter(data: OperationControllerData, msg: Message): OperationControllerData {
    match msg
    case CurrentPosition(p) => data.(positionClient := HandlePositionMessage(data.positionClient, p))
    case EndstopHit(h) => data.(endstopStatusClient := ProcessMessage(data.endstopStatusClient, h))
    case StartSurfaceGrinderCut(params) => ChangeController(data, CutParams(params))
    case _ => data
  }

  /** What manual control sends to motor control when `msg` arrives. */
  function ManualCommands(msg: Message): (out: seq<Message>)
    ensures |out| <= 1
    ensures out == [] || out == [msg]
  {
    match msg
    case GoToPosition(_, _, _) => [msg]
    case MoveAxisRel(_, _, _) => [msg]
    case SpindleControl(_) => [msg]
    case Stop => [msg]
    case _ => []
  }

  /**
   * Manual control only ever forwards commands, unchanged, and never asks to be
   * replaced except by a cut controller for a cut request.
   */
  lemma ManualControlResponses(data: OperationControllerData, msg: Message)
    ensures ManualCommands(msg) == [msg] <==>
      msg.GoToPosition? || msg.MoveAxisRel? || msg.SpindleControl? || msg.Stop?
    ensures ManualDataAfter(data, msg).pendingOperationParams ==
      if msg.StartSurfaceGrinderCut? then Some(CutParams(msg.params)) else data.pendingOperationParams
    ensures msg.MovementComplete? || msg.StartHoming? ==>
      ManualDataAfter(data, msg) == data && ManualCommands(msg) == []
  {
  }

  class ManualControlController {
    var commonData: OperationControllerData

    /** `ManualControlController::new`, which `NoOpOperationParams::make_controller` boxes. */
    constructor (commonData: OperationControllerData)
      ensures this.commonData == commonData
    {
      this.commonData := commonData;
    }

    /** The sender this controller's commands go to. */
    function Outbox(): Sender
      reads this
    {
      commonData.motorControlSender
    }

    /** `stop`: the default one without the replacement: this already is the idle controller. */
    method Stop()
      modifies Outbox()
      ensures Outbox().sent == old(Outbox().sent) + [Messages.Stop]
    {
      SendToMotorControl(commonData, Messages.Stop);
    }

    /**
     * `handle_message`: position and endstop reports update the caches; motion
     * and spindle commands pass through to motor control unchanged; Stop sends
     * one Stop; a cut request asks to be replaced by a cut controller; anything
     * else is ignored.
     */
    method HandleMessage(msg: Message)
      modifies this, Outbox()
      ensures Outbox() == old(Outbox())
      ensures commonData == ManualDataAfter(old(commonData), msg)
      ensures Outbox().sent == old(Outbox().sent) + ManualCommands(msg)
    {
      match msg
      case CurrentPosition(p) =>
        commonData := commonData.(positionClient := HandlePositionMessage(commonData.positionClient, p));
      case EndstopHit(h) =>
        commonData := commonData.(endstopStatusClient := ProcessMessage(commonData.endstopStatusClient, h));
      case GoToPosition(_, _, _) =>
        SendToMotorControl(commonData, msg);
      case MoveAxisRel(_, _, _) =>
        SendToMotorControl(commonData, msg);
      case SpindleControl(_) =>
        SendToMotorControl(commonData, msg);
      case Stop =>
        Stop();
      case StartSurfaceGrinderCut(params) =>
        commonData := ChangeController(commonData, CutParams(params));
      case MovementComplete(_) =>
      case StartHoming =>
    }
  }
}
