// Motor control (src/motor_control.rs): the cached position other threads read,
// the per-axis stepper bookkeeping and the motor-control thread's message handling.
module MotorControl {
  import opened Common
  import opened Messages
  import opened Config
  import opened EndstopChecker

  /** The last position report received, as the controllers keep it. */
  datatype CurrentPositionClient = CurrentPositionClient(lastMsg: CurrentPositionMsg)

  /** `CurrentPositionClient::get_axis_position`. */
  function GetAxisPosition(c: CurrentPositionClient, axis: Axis): real {
    match axis
    case X => c.lastMsg.x
    case Y => c.lastMsg.y
    case Z => c.lastMsg.z
  }

  /** `CurrentPositionClient::new`: every axis at 0 until the first report. */
  function NewCurrentPositionClient(): (c: CurrentPositionClient)
    ensures forall a :: GetAxisPosition(c, a) == 0.0
  {
    CurrentPositionClient(OriginPosition())
  }

  /** `CurrentPositionClient::handle_message`: the report replaces the stored one. */
  function HandlePositionMessage(c: CurrentPositionClient, msg: CurrentPositionMsg): (r: CurrentPositionClient)
    ensures r.lastMsg == msg
    ensures GetAxisPosition(r, X) == msg.x && GetAxisPosition(r, Y) == msg.y && GetAxisPosition(r, Z) == msg.z
  {
    CurrentPositionClient(msg)
  }

  /**
   * What one poll of the stepper driver reports: whether it is still moving and
   * the step it is now at, or a driver error. The driver itself (ramping, pulse
   * timing) is outside this model.
   */
  datatype DriverPoll = Polled(moving: bool, step: Int32) | PollError

  /** `StepperMotorController::update`'s `Result<bool, _>`. */
  datatype UpdateResult = UpdateOk(inProgress: bool) | UpdateErr

  /**
   * One axis's stepper. `currentStep` and `targetStep` stand for the driver's
   * step counter and the target it was last given.
   */
  class StepperMotorController {
    var config: MotorConfig
    var currentStep: Int32
    var targetStep: int
    var movementInProgress: bool
    var direction: AxisEnd

    /** The state `new` leaves a freshly exported motor in: at step 0, idle, facing Min. */
    constructor (config: MotorConfig)
      ensures this.config == config
      ensures currentStep == 0 && targetStep == 0
      ensures !movementInProgress && direction == Min
    {
      this.config := config;
      currentStep, targetStep := 0, 0;
      movementInProgress, direction := false, Min;
    }

    /** The motor heads for `target`: Min exactly when the target lies below the current step. */
    ghost predicate HeadingFor(target: int)
      reads this
    {
      movementInProgress && targetStep == target && (direction == Min <==> target < currentStep)
    }

    /** `start_move_rel`: move `distance` inches from the current step. */
    method StartMoveRel(distance: real)
      modifies this
      ensures HeadingFor(old(currentStep) + InchesToSteps(config, distance))
      ensures currentStep == old(currentStep) && config == old(config)
    {
      var target := currentStep + InchesToSteps(config, distance);
      if target < currentStep {
        direction := Min;
      } else {
        direction := Max;
      }
      movementInProgress := true;
      targetStep := target;
    }

    /** `start_move_to`: move to the absolute position `position` inches. */
    method StartMoveTo(position: real)
      modifies this
      ensures HeadingFor(InchesToSteps(config, position))
      ensures currentStep == old(currentStep) && config == old(config)
    {
      var target := InchesToSteps(config, position);
      if target < currentStep {
        direction := Min;
      } else {
        direction := Max;
      }
      movementInProgress := true;
      targetStep := target;
    }

    /**
     * `stop_move`: a motor that is not moving is left alone; a moving one is
     * retargeted to where it stands (a zero-distance move, which faces it Max)
     * and marked as no longer moving.
     */
    method StopMove()
      modifies this
      ensures !movementInProgress
      ensures currentStep == old(currentStep) && config == old(config)
      ensures !old(movementInProgress) ==> targetStep == old(targetStep) && direction == old(direction)
      ensures old(movementInProgress) ==> targetStep == currentStep && direction == Max
    {
      if movementInProgress {
        StartMoveRel(0.0);
        movementInProgress := false;
      }
    }

    /**
     * `update`: polls the driver only while a move is in progress, so once the
     * flag is false it stays false until a new move starts. A driver error leaves
     * the flag as it was.
     */
    method Update(poll: DriverPoll) returns (r: UpdateResult)
      modifies this
      ensures config == old(config) && targetStep == old(targetStep) && direction == old(direction)
      ensures !old(movementInProgress) ==>
        !movementInProgress && currentStep == old(currentStep) && r == UpdateOk(false)
      ensures old(movementInProgress) && poll.PollError? ==>
        movementInProgress && currentStep == old(currentStep) && r == UpdateErr
      ensures old(movementInProgress) && poll.Polled? ==>
        movementInProgress == poll.moving && currentStep == poll.step && r == UpdateOk(poll.moving)
    {
      if movementInProgress {
        match poll
        case PollError =>
          return UpdateErr;
        case Polled(moving, step) =>
          currentStep := step;
          movementInProgress := moving;
      }
      r := UpdateOk(movementInProgress);
    }

    /** `get_position`: the driver's step counter in inches. */
    function GetPosition(): real
      reads this
      requires StepsPerInch(config) != 0.0
    {
      StepsToInches(config, currentStep)
    }
  }

  /**
   * The motor-control thread's state: one stepper per axis, its own endstop
   * cache, the last position it broadcast, the spindle pin's level and the
   * channel back to the controllers.
   */
  class MotorsControl {
    var sender: Sender
    var xController: StepperMotorController
    var yController: StepperMotorController
    var zController: StepperMotorController
    var endstopStatusClient: EndstopStatusClient
    var lastPositionMsg: CurrentPositionMsg
    var spindleOn: bool

    ghost function Repr(): set<object>
      reads this
    {
      {this, xController, yController, zController}
    }

    ghost predicate Valid()
      reads this, xController, yController, zController
    {
      xController != yController && yController != zController && xController != zController &&
      StepsPerInch(xController.config) != 0.0 &&
      StepsPerInch(yController.config) != 0.0 &&
      StepsPerInch(zController.config) != 0.0
    }

    /** `get_controller_mut`. */
    function Motor(axis: Axis): StepperMotorController
      reads this
    {
      match axis
      case X => xController
      case Y => yController
      case Z => zController
    }

    /** The positions of all three motors, as a position report. */
    function Positions(): CurrentPositionMsg
      reads this, xController, yController, zController
      requires Valid()
    {
      CurrentPositionMsg(xController.GetPosition(), yController.GetPosition(), zController.GetPosition())
    }

    /** `MotorsControl::new`, with the spindle line requested low (off). */
    constructor (initialConfig: RustGrindConfig, sender: Sender)
      requires HasAllMotorConfigs(initialConfig)
      requires forall a :: a in initialConfig.motorConfigs ==> StepsPerInch(initialConfig.motorConfigs[a]) != 0.0
      ensures Valid() && fresh(xController) && fresh(yController) && fresh(zController)
      ensures this.sender == sender
      ensures xController.config == initialConfig.motorConfigs[X] && !xController.movementInProgress
      ensures xController.currentStep == 0 && xController.targetStep == 0 && xController.direction == Min
      ensures yController.config == initialConfig.motorConfigs[Y] && !yController.movementInProgress
      ensures yController.currentStep == 0 && yController.targetStep == 0 && yController.direction == Min
      ensures zController.config == initialConfig.motorConfigs[Z] && !zController.movementInProgress
      ensures zController.currentStep == 0 && zController.targetStep == 0 && zController.direction == Min
      ensures endstopStatusClient == NewEndstopStatusClient()
      ensures lastPositionMsg == OriginPosition() && !spindleOn
    {
      this.sender := sender;
      xController := new StepperMotorController(initialConfig.motorConfigs[X]);
      yController := new StepperMotorController(initialConfig.motorConfigs[Y]);
      zController := new StepperMotorController(initialConfig.motorConfigs[Z]);
      endstopStatusClient := NewEndstopStatusClient();
      lastPositionMsg := OriginPosition();
      spindleOn := false;
    }

    /** `stop_all`: stop every motor and switch the spindle off. */
    method StopAll()
      requires Valid()
      modifies Repr()
      ensures Valid() && Repr() == old(Repr())
      ensures sender == old(sender) && xController == old(xController) &&
        yController == old(yController) && zController == old(zController)
      ensures forall a :: !Motor(a).movementInProgress && Motor(a).currentStep == old(Motor(a).currentStep)
      ensures forall a :: Motor(a).config == old(Motor(a).config)
      ensures forall a :: old(Motor(a).movementInProgress) ==>
        Motor(a).targetStep == Motor(a).currentStep && Motor(a).direction == Max
      ensures forall a :: !old(Motor(a).movementInProgress) ==>
        Motor(a).targetStep == old(Motor(a).targetStep) && Motor(a).direction == old(Motor(a).direction)
      ensures !spindleOn
      ensures endstopStatusClient == old(endstopStatusClient) && lastPositionMsg == old(lastPositionMsg)
    {
      xController.StopMove();
      yController.StopMove();
      zController.StopMove();
      spindleOn := false;
    }

    /** `go_to_position`: start moving `axis` to `position` inches. */
    method GoToPosition(axis: Axis, position: real)
      requires Valid()
      modifies Motor(axis)
      ensures Valid()
      ensures Motor(axis).HeadingFor(InchesToSteps(Motor(axis).config, position))
      ensures Motor(axis).currentStep == old(Motor(axis).currentStep) && Motor(axis).config == old(Motor(axis).config)
    {
      Motor(axis).StartMoveTo(position);
    }

    /** `move_relative`: start moving `axis` by `distance` inches. */
    method MoveRelative(axis: Axis, distance: real)
      requires Valid()
      modifies Motor(axis)
      ensures Valid()
      ensures Motor(axis).HeadingFor(old(Motor(axis).currentStep) + InchesToSteps(Motor(axis).config, distance))
      ensures Motor(axis).currentStep == old(Motor(axis).currentStep) && Motor(axis).config == old(Motor(axis).config)
    {
      Motor(axis).StartMoveRel(distance);
    }

    /**
     * `handle_message`: motion commands start a move on the named axis (the
     * speed they carry is not used here), the spindle command sets the pin,
     * Stop stops everything, endstop reports update the cache. Nothing is sent.
     */
    method HandleMessage(msg: Message)
      requires Valid()
      modifies Repr()
      ensures Valid() && Repr() == old(Repr())
      ensures sender == old(sender) && xController == old(xController) &&
        yController == old(yController) && zController == old(zController)
      ensures msg.EndstopHit? ==> endstopStatusClient == ProcessMessage(old(endstopStatusClient), msg.hit)
      ensures !msg.EndstopHit? ==> endstopStatusClient == old(endstopStatusClient)
      ensures msg.GoToPosition? ==>
        Motor(msg.axis).HeadingFor(InchesToSteps(Motor(msg.axis).config, msg.target))
      ensures msg.MoveAxisRel? ==>
        Motor(msg.axis).HeadingFor(old(Motor(msg.axis).currentStep) + InchesToSteps(Motor(msg.axis).config, msg.distance))
      ensures msg.GoToPosition? || msg.MoveAxisRel? ==>
        Motor(msg.axis).config == old(Motor(msg.axis).config) &&
        Motor(msg.axis).currentStep == old(Motor(msg.axis).currentStep)
      ensures msg.GoToPosition? || msg.MoveAxisRel? ==>
        forall a :: a != msg.axis ==> unchanged(Motor(a))
      ensures msg.SpindleControl? ==> spindleOn == msg.on
      ensures msg.Stop? ==> !spindleOn && forall a :: !Motor(a).movementInProgress
      ensures msg.Stop? ==> forall a ::
        Motor(a).currentStep == old(Motor(a).currentStep) && Motor(a).config == old(Motor(a).config)
      ensures !msg.SpindleControl? && !msg.Stop? ==> spindleOn == old(spindleOn)
      ensures !(msg.GoToPosition? || msg.MoveAxisRel? || msg.Stop?) ==> forall a :: unchanged(Motor(a))
      ensures lastPositionMsg == old(lastPositionMsg)
    {
      match msg
      case EndstopHit(hit) =>
        endstopStatusClient := ProcessMessage(endstopStatusClient, hit);
      case GoToPosition(axis, target, _) =>
        GoToPosition(axis, target);
      case MoveAxisRel(axis, distance, _) =>
        MoveRelative(axis, distance);
      case SpindleControl(on) =>
        spindleOn := on;
      case Stop =>
        StopAll();
      case CurrentPosition(_) =>
      case MovementComplete(_) =>
      case StartSurfaceGrinderCut(_) =>
      case StartHoming =>
    }

    /**
     * `check_endstops_for_axis`: if the endstop at the end the axis is heading
     * for is known to be hit while the axis moves, stop it and report the move
     * as ended at an endstop.
     */
    method CheckEndstopsForAxis(axis: Axis)
      requires Valid()
      modifies Motor(axis), sender
      ensures Valid()
      ensures var blocked :=
          IsEndstopHit(endstopStatusClient, EndstopIdentifier(axis, old(Motor(axis).direction))) == Some(true) &&
          old(Motor(axis).movementInProgress);
        (blocked ==> !Motor(axis).movementInProgress && Motor(axis).currentStep == old(Motor(axis).currentStep) &&
                     Motor(axis).config == old(Motor(axis).config) &&
                     Motor(axis).targetStep == Motor(axis).currentStep && Motor(axis).direction == Max &&
                     sender.sent == old(sender.sent) + [MovementComplete(MovementCompleteMsg(axis, true))]) &&
        (!blocked ==> unchanged(Motor(axis)) && sender.sent == old(sender.sent))
    {
      var motor := Motor(axis);
      var currentDirection := motor.direction;
      var endstopHit := IsEndstopHit(endstopStatusClient, EndstopIdentifier(axis, currentDirection));
      if endstopHit == Some(true) {
        if motor.movementInProgress {
          motor.StopMove();
          sender.Send(MovementComplete(MovementCompleteMsg(axis, true)));
        }
      }
    }

    /**
     * `update_motor`: polls one axis and reports MovementComplete (not at an
     * endstop) exactly when that poll took the axis from moving to stopped.
     */
    method UpdateMotor(axis: Axis, poll: DriverPoll)
      requires Valid()
      modifies Motor(axis), sender
      ensures Valid()
      ensures Motor(axis).config == old(Motor(axis).config)
      ensures !old(Motor(axis).movementInProgress) ==>
        !Motor(axis).movementInProgress && Motor(axis).currentStep == old(Motor(axis).currentStep)
      ensures old(Motor(axis).movementInProgress) && poll.Polled? ==>
        Motor(axis).movementInProgress == poll.moving && Motor(axis).currentStep == poll.step
      ensures poll.PollError? ==>
        Motor(axis).movementInProgress == old(Motor(axis).movementInProgress) &&
        Motor(axis).currentStep == old(Motor(axis).currentStep)
      ensures sender.sent == old(sender.sent) +
        if old(Motor(axis).movementInProgress) && !Motor(axis).movementInProgress
        then [MovementComplete(MovementCompleteMsg(axis, false))] else []
    {
      var motor := Motor(axis);
      var prevMovementInProgress := motor.movementInProgress;
      var result := motor.Update(poll);
      if result.UpdateOk? && !result.inProgress && prevMovementInProgress {
        sender.Send(MovementComplete(MovementCompleteMsg(axis, false)));
      }
    }

    /**
     * `send_position_update`: broadcast the motors' positions only when they
     * differ from the last broadcast, and remember what was sent.
     */
    method SendPositionUpdate()
      requires Valid()
      modifies this`lastPositionMsg, sender
      ensures Valid()
      ensures lastPositionMsg == Positions()
      ensures sender.sent == old(sender.sent) +
        if Positions() != old(lastPositionMsg) then [CurrentPosition(Positions())] else []
    {
      var msg := CurrentPositionMsg(xController.GetPosition(), yController.GetPosition(), zController.GetPosition());
      if msg != lastPositionMsg {
        sender.Send(CurrentPosition(msg));
        lastPositionMsg := msg;
      }
    }
  }

  /** Two position updates with no motion in between broadcast at most once. */
  method PositionBroadcastIsDeduplicated(mc: MotorsControl) returns (afterFirst: seq<Message>)
    requires mc.Valid()
    modifies mc, mc.sender
    ensures mc.Valid()
    ensures afterFirst == old(mc.sender.sent) +
      if mc.Positions() != old(mc.lastPositionMsg) then [CurrentPosition(mc.Positions())] else []
    ensures mc.sender.sent == afterFirst
  {
    mc.SendPositionUpdate();
    afterFirst := mc.sender.sent;
    mc.SendPositionUpdate();
  }

  /**
   * One pass of the motor-control loop for one axis (`check_endstops` before
   * `update_controllers`): a move stopped at an endstop is reported exactly
   * once, as ended at the endstop, whatever the driver then reports.
   */
  method EndstopStopIsReportedOnce(mc: MotorsControl, axis: Axis, poll: DriverPoll)
    requires mc.Valid()
    requires mc.Motor(axis).movementInProgress
    requires IsEndstopHit(mc.endstopStatusClient, EndstopIdentifier(axis, mc.Motor(axis).direction)) == Some(true)
    modifies mc.Motor(axis), mc.sender
    ensures !mc.Motor(axis).movementInProgress
    ensures mc.sender.sent == old(mc.sender.sent) + [MovementComplete(MovementCompleteMsg(axis, true))]
  {
    mc.CheckEndstopsForAxis(axis);
    mc.UpdateMotor(axis, poll);
  }
}
