// The state every operation controller carries and hands on to its successor
// (src/operation_controllers/operation_controller_data.rs).
module ControllerData {
  import opened Common
  import opened Messages
  import opened Config
  import opened EndstopChecker
  import opened Envelope
  import opened MotorControl

  /**
   * The parameters a controller can leave behind to ask for its replacement
   * (the `OperationParameters` implementations): manual control, homing, or a
   * surface grinder cut.
   */
  datatype OperationParams = NoOpParams | HomingParams | CutParams(params: SurfaceGrinderCutParams)

  /** `OperationControllerData`. */
  datatype OperationControllerData = OperationControllerData(
    configClient: ConfigClient,
    endstopStatusClient: EndstopStatusClient,
    positionClient: CurrentPositionClient,
    motorControlSender: Sender,
    workEnvelope: WorkEnvelope,
    pendingOperationParams: Option<OperationParams>)

  /**
   * `OperationControllerData::clone`: every field is copied (the sender still
   * feeds the same channel), except that the pending parameters are not carried over.
   */
  function Clone(d: OperationControllerData): (r: OperationControllerData)
    ensures r.configClient == d.configClient
    ensures r.endstopStatusClient == d.endstopStatusClient
    ensures r.positionClient == d.positionClient
    ensures r.motorControlSender == d.motorControlSender
    ensures r.workEnvelope == d.workEnvelope
    ensures r.pendingOperationParams == None
  {
    OperationControllerData(
      d.configClient,
      d.endstopStatusClient,
      d.positionClient,
      d.motorControlSender,
      d.workEnvelope,
      None)
  }

  /** A clone differs from its original at most in the pending slot; cloning it again changes nothing. */
  lemma CloneOnlyClearsPending(d: OperationControllerData)
    ensures Clone(d) == d <==> d.pendingOperationParams == None
    ensures Clone(Clone(d)) == Clone(d)
  {
  }
}
