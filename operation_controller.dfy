// The default behaviour every operation controller shares (the provided
// methods of the trait in src/operation_controllers/operation_controller.rs).
// The trait's accessors are the field selectors of OperationControllerData.
module OperationController {
  import opened Common
  import opened Messages
  import opened ControllerData

  /** `send_to_motor_control`: append `msg` to the motor-control channel. */
  method SendToMotorControl(data: OperationControllerData, msg: Message)
    modifies data.motorControlSender
    ensures data.motorControlSender.sent == old(data.motorControlSender.sent) + [msg]
  {
    data.motorControlSender.Send(msg);
  }

  /** `change_controller`: ask the manager to replace this controller, changing nothing else. */
  function ChangeController(data: OperationControllerData, params: OperationParams): (r: OperationControllerData)
    ensures r.pendingOperationParams == Some(params)
    ensures r.(pendingOperationParams := data.pendingOperationParams) == data
  {
    data.(pendingOperationParams := Some(params))
  }

  /**
   * The default `stop`: send one Stop to motor control and ask to be replaced by
   * the manual-control controller. Returns the controller's new data.
   */
  method DefaultStop(data: OperationControllerData) returns (r: OperationControllerData)
    modifies data.motorControlSender
    ensures data.motorControlSender.sent == old(data.motorControlSender.sent) + [Stop]
    ensures r == ChangeController(data, NoOpParams)
  {
    SendToMotorControl(data, Stop);
    r := ChangeController(data, NoOpParams);
  }
}
