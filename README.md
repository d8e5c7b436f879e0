# RustGrind control core in Dafny

RustGrind drives a three-axis surface grinder from a Raspberry Pi. Three parts of it make up this model:

- An **operation-control** side. An `OperationControllerManager` owns one controller at a time:
  - manual control, which passes commands through;
  - a surface-grinder cut controller, which sequences a cut;
  - a homing controller, which finds the work envelope.

  A controller asks to be replaced by writing *pending operation parameters*. After every message and every loop pass, the manager takes them and builds the next controller from a clone of the common data. The common data is the configuration, the endstop and position caches, the motor-control channel, the work envelope and the pending slot.
- A **motor-control** side. `MotorsControl` keeps one stepper controller per axis. It executes GoToPosition / MoveAxisRel / Stop / SpindleControl. It stops an axis when the endstop it is heading for is hit, and reports MovementComplete. It broadcasts positions only when they change.
- The **legacy** standalone cut controller (`src/surface_grinder_cut_controller.rs`). It has its own channels, it filters manual commands itself while a cut runs, and its moves carry no speed.

How the source maps onto Dafny:

- **Classes for in-place state.** Every object the source updates in place is a Dafny class with the same fields: the stepper controller, `MotorsControl`, the three controllers, the manager, the legacy controller, `ConfigManager` and the channel `Sender`. A `Sender` records everything sent in `sent`.
- **Step functions.** The state machines are also given as pure *step functions* over a snapshot of a controller's fields. Each returns the new snapshot and the messages sent. Each method's `ensures` ties the new fields and the channel's new contents to its step function. The properties the source promises are proved as lemmas about the step functions.
- **Trait objects as sums.** The boxed trait objects `Box<dyn OperationController>` and `Box<dyn OperationParameters>` become sum types: `Controller` / `ControllerState` and `OperationParams`.
- **Clock and driver as inputs.** Time (`Instant::now()`) is a `now: real` parameter of each operation. The stepper driver's `update()` result is a `DriverPoll` input.
- **Integer conversion.** `f64` is modelled as `real`, and `as i32` is modelled as truncation toward zero with saturation.

The legacy controller reuses the current controller's `CutState` and the `WorkEnvelope` of `src/operation_controllers/work_envelope.rs`. Its own copies, at `src/surface_grinder_cut_controller.rs:25-56` and `:80-96`, are identical.

Lemmas state that the legacy controller has the same transition table and the same commands as the current one, with the speed dropped.

As written, manual control ignores `StartHoming`, and no other code creates homing parameters. The homing controller is therefore modelled and proved on its own, and the manager reaches it only through `HomingParams`. `ManualControlNeverStartsHoming` states this.

## Model

| member | source | states |
|---|---|---|
| Messages.OriginPosition | src/messages.rs:28-35 | `CurrentPositionMsg::new` is the origin: x, y and z are all 0 |
| Messages.Sender.constructor | src/operation_controllers/operation_controller.rs:38-40 | a new channel has nothing sent |
| Messages.Sender.Send | src/operation_controllers/operation_controller.rs:38-40 | sending appends exactly the message, in order |
| Config.TruncateToInt32 | src/config.rs:30-32 | Rust's `as i32`: in range it truncates toward zero (floor for non-negative, ceiling for negative); out of range it saturates at i32::MAX / i32::MIN |
| Config.StepsToInches | src/config.rs:34-36 | the result multiplied by steps-per-inch gives back the step count |
| Config.ConversionsMapZeroToZero | src/config.rs:30-36 | 0 inches is 0 steps, and 0 steps is 0 inches |
| Config.TruncateToInt32Monotone | src/config.rs:30-32 | the saturating truncation never reverses order |
| Config.InchesToStepsMonotone | src/config.rs:30-32 | with a positive scale, a larger distance never converts to fewer steps |
| Config.StepsToInchesRoundTrip | src/config.rs:30-36 | over exact reals the two conversions are inverse: an i32 step count converted to inches and back is unchanged |
| Config.DefaultConfig | src/config.rs:71-115 | the default configuration: motors for X, Y, Z at 200 steps/rev, 1 rev/inch, not reversed, 1 in/s, with the enable, step and direction pins of src/pins.rs; endstop lines for X-min/max, Y-min/max and Z-max only, on their pins, which are distinct; chip `/dev/gpiochip0`; spindle pin |
| Config.ConfigManager.constructor | src/config.rs:71-115 | a new manager holds the default configuration |
| Config.ConfigManager.GetConfig | src/config.rs:130-132 | returns the held configuration |
| EndstopChecker.NewEndstopStatusClient | src/endstop_checker.rs:23-27 | a new cache knows no endstop |
| EndstopChecker.ProcessMessage | src/endstop_checker.rs:29-35 | after a report the reported endstop reads its value; every other endstop reads as before |
| EndstopChecker.LaterReportWins | src/endstop_checker.rs:33-35 | of two reports on the same endstop, only the later one matters |
| EndstopChecker.InvertLines | src/endstop_checker.rs:49-52 | the line→endstop index maps exactly the configured lines to endstops configured on them, and with distinct lines it is the exact inverse |
| EndstopChecker.EndstopChecker.constructor | src/endstop_checker.rs:48-59 | keeps chip name, line map and senders, and builds the inverse line index |
| Envelope.NewWorkEnvelope | src/operation_controllers/work_envelope.rs:17-26 | default envelope is X and Y in [-256, 256], Z at [0, 0]; min ≤ max on each axis |
| Envelope.WithExtent | src/operation_controllers/homing_controller.rs:54-66 | writing one extent changes that extent and no other |
| Envelope.ExtentsDetermineEnvelope | src/operation_controllers/work_envelope.rs:28-37 | two envelopes with equal extents on every axis and end are equal, so `get_extent` reads the whole envelope |
| MotorControl.NewCurrentPositionClient | src/motor_control.rs:42-46 | a new position cache reads 0 on every axis |
| MotorControl.HandlePositionMessage | src/motor_control.rs:48-62 | after a report, each axis reads the reported coordinate |
| MotorControl.StepperMotorController.constructor | src/motor_control.rs:94-149 | a new axis holds its configuration, is at step 0, is not moving, and heads for Min |
| MotorControl.StepperMotorController.StartMoveRel | src/motor_control.rs:151-164 | target is the current step plus the converted distance; direction is Min exactly when the target is below the current step; the axis is moving |
| MotorControl.StepperMotorController.StartMoveTo | src/motor_control.rs:166-181 | target is the converted position; direction is Min exactly when it is below the current step; the axis is moving |
| MotorControl.StepperMotorController.StopMove | src/motor_control.rs:183-189 | a moving axis is re-targeted at its current step, heading Max, and stops; an idle axis is unchanged |
| MotorControl.StepperMotorController.Update | src/motor_control.rs:191-198 | an idle axis is never polled and stays idle; a poll error leaves the axis as it was; otherwise the driver's step and motion flag are taken over |
| MotorControl.MotorsControl.constructor | src/motor_control.rs:262-279 | one idle controller per configured axis, holding that axis's configuration, at step 0 with target 0 and facing Min; an empty endstop cache, origin as last broadcast, spindle off |
| MotorControl.MotorsControl.StopAll | src/motor_control.rs:301-306 | every axis stops where it is and keeps its configuration; an axis that was moving is re-targeted at its current step, heading Max, and an idle one keeps its target and direction; the spindle goes off; the channel and the axis controllers are kept |
| MotorControl.MotorsControl.GoToPosition | src/motor_control.rs:289-293 | the axis heads for the converted absolute position |
| MotorControl.MotorsControl.MoveRelative | src/motor_control.rs:295-299 | the axis heads for its current step plus the converted distance |
| MotorControl.MotorsControl.HandleMessage | src/motor_control.rs:322-334 | endstop reports update the cache; a move starts on its axis only, which keeps its configuration and step and heads for the converted target; spindle commands set the spindle; Stop stops every axis where it is; other messages change nothing; the channel and the axis controllers are kept |
| MotorControl.MotorsControl.CheckEndstopsForAxis | src/motor_control.rs:342-356 | a moving axis whose heading endstop reads hit is stopped where it is (target its current step, heading Max, configuration kept) and reported once with endstop_hit true; otherwise nothing changes |
| MotorControl.MotorsControl.UpdateMotor | src/motor_control.rs:370-382 | an idle axis stays idle where it is; a successful poll of a moving axis takes over the driver's step and flag; a poll error changes nothing; MovementComplete with endstop_hit false is sent exactly when this poll took the axis from moving to stopped |
| MotorControl.MotorsControl.SendPositionUpdate | src/motor_control.rs:358-368 | positions are broadcast only when they differ from the last broadcast, which is then remembered |
| MotorControl.PositionBroadcastIsDeduplicated | src/motor_control.rs:358-368 | of two updates with no motion in between, the first broadcasts the positions exactly when they differ from the last broadcast, and the second sends nothing |
| MotorControl.EndstopStopIsReportedOnce | src/motor_control.rs:403-404 | checking endstops then polling an axis stopped at an endstop yields exactly one MovementComplete, with endstop_hit true |
| ControllerData.Clone | src/operation_controllers/operation_controller_data.rs:25-35 | the clone keeps config, caches, channel and envelope, and has no pending parameters |
| ControllerData.CloneOnlyClearsPending | src/operation_controllers/operation_controller_data.rs:25-35 | a clone equals the original exactly when nothing is pending; cloning twice is cloning once |
| OperationController.SendToMotorControl | src/operation_controllers/operation_controller.rs:38-40 | the message is appended to the motor-control channel |
| OperationController.ChangeController | src/operation_controllers/operation_controller.rs:53-55 | the pending slot holds the given parameters and nothing else changes |
| OperationController.DefaultStop | src/operation_controllers/operation_controller.rs:44-49 | the default stop sends one Stop and asks for manual control |
| ManualControl.ManualCommands | src/operation_controllers/manual_control_controller.rs:41-55 | manual control sends at most one message, and only the one it received |
| ManualControl.ManualControlResponses | src/operation_controllers/manual_control_controller.rs:41-55 | exactly GoToPosition, MoveAxisRel, SpindleControl and Stop are forwarded unchanged; only a cut request sets pending (to those cut parameters); MovementComplete and StartHoming are ignored |
| ManualControl.ManualControlController.constructor | src/operation_controllers/manual_control_controller.rs:9-24 | the controller holds exactly the given data |
| ManualControl.ManualControlController.Stop | src/operation_controllers/manual_control_controller.rs:35-39 | sends one Stop and does not ask for a replacement |
| ManualControl.ManualControlController.HandleMessage | src/operation_controllers/manual_control_controller.rs:41-55 | caches updated from reports, commands forwarded, a cut request sets pending, as `ManualDataAfter` / `ManualCommands` |
| SurfaceGrinderCut.FixedTransitions | src/operation_controllers/surface_grinder_cut_controller.rs:162-188 | Idle→Idle, ToStartingPositionX→Y, Y→SpindleSpinUp, SpinUp→XCut, XCut→XReturn, YOut→XCut, ZDown→XCut |
| SurfaceGrinderCut.XReturnGuard | src/operation_controllers/surface_grinder_cut_controller.rs:169-175 | after XReturn, Y returns exactly when the Y-min endstop reads hit or Y's position is at or below Y-min; otherwise Y feeds out |
| SurfaceGrinderCut.YReturnGuard | src/operation_controllers/surface_grinder_cut_controller.rs:177-185 | after YReturn the cut ends exactly when Z is on the target height's step, otherwise Z goes down |
| SurfaceGrinderCut.CutEndsOnlyAfterYReturn | src/operation_controllers/surface_grinder_cut_controller.rs:162-188 | the next state is Idle exactly in Idle or in YReturn at the target height |
| SurfaceGrinderCut.CommandsUseStrokeSpeed | src/operation_controllers/surface_grinder_cut_controller.rs:139-150 | each state sends one move, a Stop (exactly for Idle) or a spindle-on (exactly for SpinUp); every move carries the stroke speed |
| SurfaceGrinderCut.YFeedDoesNotOvershoot | src/operation_controllers/surface_grinder_cut_controller.rs:200 | the Y feed is a relative move toward Y-min by the feed per pass, or by the distance left to Y-min if smaller, so it never passes Y-min |
| SurfaceGrinderCut.ZStepDoesNotOvershoot | src/operation_controllers/surface_grinder_cut_controller.rs:202 | the Z step goes down by the depth of cut, or by the depth remaining if smaller |
| SurfaceGrinderCut.StartCutHeadsForXMin | src/operation_controllers/surface_grinder_cut_controller.rs:123-127 | start_cut stores the parameters, records the current Z as the starting height, enters ToStartingPositionX and sends one move of X to X-min |
| SurfaceGrinderCut.MovementCompleteAdvancesOnlyWhileCutting | src/operation_controllers/surface_grinder_cut_controller.rs:152-156 | MovementComplete advances the state exactly when a cut is in progress, otherwise nothing changes |
| SurfaceGrinderCut.SpinUpLastsThreeSeconds | src/operation_controllers/surface_grinder_cut_controller.rs:99-106 | update does anything exactly in SpindleSpinUp at least 3 s after the spindle started, and then enters XCut |
| SurfaceGrinderCut.SpinUpStartsTheSpindle | src/operation_controllers/surface_grinder_cut_controller.rs:134-137 | entering SpinUp sends spindle-on and restarts the spin-up clock |
| SurfaceGrinderCut.ApproachSequence | src/operation_controllers/surface_grinder_cut_controller.rs:87-127 | start, two completed moves and an update 3 s later send: X to X-min, Y to Y-max, spindle on, X to X-max, in that order, all at the stroke speed |
| SurfaceGrinderCut.SurfaceGrinderCutController.constructor | src/operation_controllers/surface_grinder_cut_controller.rs:42-46 | the new controller is the result of start_cut on an Idle controller holding the data |
| SurfaceGrinderCut.SurfaceGrinderCutController.StartCut | src/operation_controllers/surface_grinder_cut_controller.rs:123-127 | fields and sent messages as `StartCutStep` |
| SurfaceGrinderCut.SurfaceGrinderCutController.Stop | src/operation_controllers/operation_controller.rs:44-49 | one Stop sent and manual control requested; the cut state is untouched |
| SurfaceGrinderCut.SurfaceGrinderCutController.SetSpindleOn | src/operation_controllers/surface_grinder_cut_controller.rs:134-137 | sends the spindle command and restarts the clock |
| SurfaceGrinderCut.SurfaceGrinderCutController.MoveAxisToExtent | src/operation_controllers/surface_grinder_cut_controller.rs:139-146 | sends a GoToPosition to the envelope extent at the stroke speed |
| SurfaceGrinderCut.SurfaceGrinderCutController.MoveRelative | src/operation_controllers/surface_grinder_cut_controller.rs:148-150 | sends a MoveAxisRel at the stroke speed |
| SurfaceGrinderCut.SurfaceGrinderCutController.SetState | src/operation_controllers/surface_grinder_cut_controller.rs:190-204 | fields and sent messages as `SetStateStep` |
| SurfaceGrinderCut.SurfaceGrinderCutController.AdvanceState | src/operation_controllers/surface_grinder_cut_controller.rs:158-160 | fields and sent messages as `AdvanceStep` |
| SurfaceGrinderCut.SurfaceGrinderCutController.HandleMovementComplete | src/operation_controllers/surface_grinder_cut_controller.rs:152-156 | fields and sent messages as `HandleMessageStep` on MovementComplete |
| SurfaceGrinderCut.SurfaceGrinderCutController.HandleMessage | src/operation_controllers/surface_grinder_cut_controller.rs:87-97 | fields and sent messages as `HandleMessageStep` |
| SurfaceGrinderCut.SurfaceGrinderCutController.Update | src/operation_controllers/surface_grinder_cut_controller.rs:99-106 | fields and sent messages as `UpdateStep` |
| Homing.HomingMovesTowardTheEnd | src/operation_controllers/homing_controller.rs:72-92 | each state's move drives its axis the full 256 inches toward its end at the axis's default speed |
| Homing.MissedEndstopRetries | src/operation_controllers/homing_controller.rs:47-51 | a move that ended without the endstop is sent again and nothing else changes |
| Homing.EndstopHitRecordsOneExtent | src/operation_controllers/homing_controller.rs:52-68 | an endstop hit records the axis's reported position as that state's extent and changes no other extent |
| Homing.HomingOrder | src/operation_controllers/homing_controller.rs:52-68 | XMinus→XPlus→YMinus→YPlus; after YPlus one Stop is sent and manual control requested |
| Homing.StartStep | src/operation_controllers/homing_controller.rs:37-44 | a new homing controller is in XMinus and has sent one move of X by -256 at X's default speed |
| Homing.HomingRunFindsEnvelope | src/operation_controllers/homing_controller.rs:37-70 | a full run ends with min/max X and Y from the reported positions, Z untouched, manual control requested, after four moves and a Stop |
| Homing.HomingController.constructor | src/operation_controllers/homing_controller.rs:15-20 | fields and sent messages as `StartStep` |
| Homing.HomingController.MoveTowardsExtent | src/operation_controllers/homing_controller.rs:83-88 | sends a MoveAxisRel of ±256 toward the end at the homing speed |
| Homing.HomingController.SetState | src/operation_controllers/homing_controller.rs:72-81 | fields and sent messages as `SetStateStep` |
| Homing.HomingController.Stop | src/operation_controllers/operation_controller.rs:44-49 | one Stop sent and manual control requested |
| Homing.HomingController.HandleMovementComplete | src/operation_controllers/homing_controller.rs:46-70 | fields and sent messages as `MovementCompleteStep` |
| Homing.HomingController.HandleMessage | src/operation_controllers/homing_controller.rs:103-113 | fields and sent messages as `HandleMessageStep` |
| OperationControllerManager.InitialData | src/operation_controllers/operation_controller_manager.rs:28-36 | the first controller's data is the given config and channel, empty caches, the default envelope and nothing pending |
| OperationControllerManager.MakeControllerStep | src/operation_controllers/operation_controller_manager.rs:52 | NoOp params build manual control, Homing params a homing controller in XMinus that sent its first move, Cut params a started cut controller, each over exactly the given data |
| OperationControllerManager.CheckReplaceStep | src/operation_controllers/operation_controller_manager.rs:47-56 | the pending parameters are taken; with none the controller stays; with some, the controller becomes the one those parameters build (`MakeControllerStep`) over a clone of the data |
| OperationControllerManager.ControllerMessageStep | src/operation_controllers/operation_controller_manager.rs:43 | the controller's handling keeps the config and the channel, and does not change which kind of controller runs |
| OperationControllerManager.ControllerUpdateStep | src/operation_controllers/operation_controller_manager.rs:76 | the controller's update keeps the config and the channel |
| OperationControllerManager.HandleMessageStep | src/operation_controllers/operation_controller_manager.rs:42-45 | after a message nothing is left pending, and the channel is kept |
| OperationControllerManager.UpdateStep | src/operation_controllers/operation_controller_manager.rs:76-77 | after each pass nothing is left pending, and the channel is kept |
| OperationControllerManager.ShutdownStep | src/operation_controllers/operation_controller_manager.rs:58-61 | shutdown sends one Stop; manual control stays as it is, any other controller requests manual control |
| OperationControllerManager.DefaultUpdateChangesNothing | src/operation_controllers/operation_controller.rs:42 | manual control's and homing's update change nothing and send nothing |
| OperationControllerManager.StopReturnsToManualControl | src/operation_controllers/operation_controller_manager.rs:42-56 | Stop, in any controller, sends one Stop and leaves manual control running over the same data |
| OperationControllerManager.CutRequestStartsCut | src/operation_controllers/operation_controller_manager.rs:42-56 | a cut request in manual control replaces it with a cut controller heading for X-min with those parameters |
| OperationControllerManager.BusyControllersIgnoreRequests | src/operation_controllers/operation_controller_manager.rs:42-56 | a running cut or homing run ignores cut and homing requests |
| OperationControllerManager.ManualControlNeverStartsHoming | src/operation_controllers/manual_control_controller.rs:41-55 | no message and no update makes manual control start homing |
| OperationControllerManager.FinishedCutReturnsToManualControl | src/operation_controllers/surface_grinder_cut_controller.rs:177-204 | the last completed move of a cut sends Stop and manual control takes over the same data |
| OperationControllerManager.FinishedHomingReturnsToManualControl | src/operation_controllers/homing_controller.rs:64-68 | the last endstop hit of homing records Y-max, sends Stop, and manual control takes over |
| OperationControllerManager.OperationControllerManager.constructor | src/operation_controllers/operation_controller_manager.rs:26-40 | the manager starts in manual control over `InitialData` |
| OperationControllerManager.OperationControllerManager.TakePending | src/operation_controllers/operation_controller_manager.rs:48 | returns the pending parameters and leaves none, changing nothing else |
| OperationControllerManager.OperationControllerManager.CheckReplaceController | src/operation_controllers/operation_controller_manager.rs:47-56 | controller and sent messages as `CheckReplaceStep` |
| OperationControllerManager.OperationControllerManager.DispatchMessage | src/operation_controllers/operation_controller_manager.rs:43 | controller and sent messages as `ControllerMessageStep` |
| OperationControllerManager.OperationControllerManager.HandleMessage | src/operation_controllers/operation_controller_manager.rs:42-45 | controller and sent messages as `HandleMessageStep` |
| OperationControllerManager.OperationControllerManager.Iterate | src/operation_controllers/operation_controller_manager.rs:76-77 | controller and sent messages as `UpdateStep` |
| OperationControllerManager.OperationControllerManager.Shutdown | src/operation_controllers/operation_controller_manager.rs:58-61 | controller and sent messages as `ShutdownStep` |
| LegacyCut.ZeroCutParams | src/surface_grinder_cut_controller.rs:66-75 | all four cut parameters are zero |
| LegacyCut.InitialSnapshot | src/surface_grinder_cut_controller.rs:112-125 | a new controller is Idle, not cutting, starting height 0, zero parameters, default envelope, empty caches |
| LegacyCut.SameTransitionTable | src/surface_grinder_cut_controller.rs:198-224 | the legacy transition table, guards included, equals the current controller's |
| LegacyCut.SameCommandsWithoutSpeed | src/surface_grinder_cut_controller.rs:226-240 | each state sends the current controller's command with the speed dropped |
| LegacyCut.StopAlwaysIdles | src/surface_grinder_cut_controller.rs:137-144 | Stop, in any state, sends exactly one Stop and leaves the controller Idle |
| LegacyCut.ManualCommandsOnlyWhenIdle | src/surface_grinder_cut_controller.rs:175-186 | moves and spindle commands are forwarded unchanged exactly when no cut is running, and change nothing |
| LegacyCut.CutRequestRestartsCut | src/surface_grinder_cut_controller.rs:175-186 | a cut request always (re)starts a cut: new parameters, current Z as starting height, move X to X-min |
| LegacyCut.RunLeavesSpinUpAfterThreeSeconds | src/surface_grinder_cut_controller.rs:289-294 | the run loop acts exactly in SpinUp at least 3 s after spindle start, and then enters XCut |
| LegacyCut.SpinUpStartsTheSpindle | src/surface_grinder_cut_controller.rs:151-154 | entering SpinUp sends spindle-on and restarts the spin-up clock |
| LegacyCut.LegacyCutController.constructor | src/surface_grinder_cut_controller.rs:112-125 | the new controller's fields are `InitialSnapshot` |
| LegacyCut.LegacyCutController.StartCut | src/surface_grinder_cut_controller.rs:127-131 | fields and sent messages as `StartCutStep` |
| LegacyCut.LegacyCutController.Stop | src/surface_grinder_cut_controller.rs:137-144 | fields and sent messages as `StopStep` |
| LegacyCut.LegacyCutController.SetSpindleOn | src/surface_grinder_cut_controller.rs:151-154 | sends the spindle command and restarts the clock |
| LegacyCut.LegacyCutController.MoveAxisToExtent | src/surface_grinder_cut_controller.rs:156-159 | sends a GoToPosition to the envelope extent, without speed |
| LegacyCut.LegacyCutController.MoveToPosition | src/surface_grinder_cut_controller.rs:161-163 | sends a GoToPosition without speed |
| LegacyCut.LegacyCutController.MoveRelative | src/surface_grinder_cut_controller.rs:165-167 | sends a MoveAxisRel without speed |
| LegacyCut.LegacyCutController.ForwardToMotorControl | src/surface_grinder_cut_controller.rs:169-173 | forwards the message as `ForwardStep` |
| LegacyCut.LegacyCutController.SetState | src/surface_grinder_cut_controller.rs:226-240 | fields and sent messages as `SetStateStep` |
| LegacyCut.LegacyCutController.AdvanceState | src/surface_grinder_cut_controller.rs:194-196 | fields and sent messages as `AdvanceStep` |
| LegacyCut.LegacyCutController.HandleMessage | src/surface_grinder_cut_controller.rs:175-192 | fields and sent messages as `HandleMessageStep` |
| LegacyCut.LegacyCutController.Shutdown | src/surface_grinder_cut_controller.rs:270-273 | the same as Stop |
| LegacyCut.LegacyCutController.RunCheck | src/surface_grinder_cut_controller.rs:289-294 | fields and sent messages as `RunCheckStep` |

## Left out

- GPIO and hardware: sysfs pin export and direction setup in `StepperMotorController::new`, the spindle pin writes (modelled as the `spindleOn` flag, never failing), `get_steps_per_millisecond`, and the endstop checker's line-event loop (`EndstopChecker::run`). None of these has a logical model.
- The stepper driver and its motion profile are not modelled. `update()` is the `DriverPoll` input (moving flag and current step, or an error). A move's speed is not passed to the driver, as in the source.
- Threads, channels and the `try_recv` loops of `run` in the manager, in motor control and in the legacy controller. Each loop body is modelled (`Iterate`, the motor-control per-axis methods, `RunCheck`). The receive loops and the channel-disconnect branch are left out. A channel is a `Sender` object that records what was sent.
- Time: `Instant::now()` / `elapsed()` become a `now: real` argument. One operation reads the clock once.
- Floating point: `f64` arithmetic is modelled as exact `real` arithmetic. Rounding, NaN and infinities are not modelled.
- MotorControl.StepperMotorController.StartMoveRel: the i32 sum of the current step and the converted distance is an unbounded `int`. Wrap-around near i32::MIN/MAX is not modelled.
- Config.StepsToInchesRoundTrip: holds over exact reals only. In `f64` the division and multiplication round, so a step can be lost: at 200 steps/rev and 1 rev/inch, 29 steps becomes 0.145 inches, which multiplies back to 28.999999999999996 and truncates to 28.
- MotorControl.StepperMotorController.StopMove: errors from the driver's `move_to_position` are not modelled. In the source such an error makes `stop_move` return early through `?` with `movement_in_progress` still true. The model's StopMove always stops the axis, and so do StopAll and CheckEndstopsForAxis, which call it. StartMoveRel and StartMoveTo set the flag before the driver call, so their modelled state is the same on an error.
- Config.StepsToInches: requires a non-zero steps-per-inch. The source divides by zero and yields an infinity or NaN, which the `real` model cannot represent.
- YAML configuration file reading and writing (`read_config_file`, `write_config_file`), the web UI and `main`'s wiring are not part of this model.
- Accessors (`config_client`, `position_client`, `work_envelope`, `get_extent`, `get_axis_position`, `is_endstop_hit`, `get_direction`, `is_movement_in_progress`) are field reads. They are modelled as functions or field selectors, without contracts of their own.
- The legacy controller's `start_home` has an empty body and nothing calls it. Its `handle_message` has no arm for StartHoming, which the model treats as ignored.
- MotorControl.MotorsControl.HandleMessage: the match at src/motor_control.rs:322-334 has no arm for StartHoming (declared at src/messages.rs:15). The model ignores it, like the other messages motor control does not act on.
- Where the source unwraps a motor configuration, the model requires that configuration instead of modelling a panic:
  - MotorControl.MotorsControl.constructor requires all three axes;
  - the cut controllers require Z;
  - homing requires X and Y;
  - OperationControllerManager.OperationControllerManager.constructor requires all three axes, because any controller it may later build needs them.
- `println!` diagnostics are omitted.
- MotorControl.MotorsControl.constructor also requires a non-zero steps-per-inch on each axis. The reason is the same as for `Config.StepsToInches`: the position broadcast divides by it.
- Move messages carry `speed: Option<real>`. `src/messages.rs` declares GoToPosition and MoveAxisRel without a speed, while the operation controllers build them with one. The model follows the controllers:
  - the current cut and homing controllers send `Some(speed)`;
  - the legacy controller sends `None`;
  - motor control ignores the speed.
