// The messages the controller threads exchange (src/messages.rs), and the
// channel they travel on.
module Messages {
  import opened Common

  /** A snapshot of all three axis positions, in inches. */
  datatype CurrentPositionMsg = CurrentPositionMsg(x: real, y: real, z: real)

  /** `CurrentPositionMsg::new`: the origin. */
  function OriginPosition(): (p: CurrentPositionMsg)
    ensures p.x == 0.0 && p.y == 0.0 && p.z == 0.0
  {
    CurrentPositionMsg(0.0, 0.0, 0.0)
  }

  /** Reports that an endstop switch changed to `value` (true: pressed). */
  datatype EndstopHitMsg = EndstopHitMsg(endstop: EndstopIdentifier, value: bool)

  /** Reports that a move on `axis` ended, either at its target or at an endstop. */
  datatype MovementCompleteMsg = MovementCompleteMsg(axis: Axis, endstopHit: bool)

  /**
   * The parameters of a surface grinder cut (declared beside the cut controller in
   * src/operation_controllers/surface_grinder_cut_controller.rs; the earlier
   * controller declares the same four fields).
   *   depthOfCut:  Z depth of each pass
   *   feedPerPass: Y feed per pass
   *   strokeSpeed: inches per second
   *   totalDepth:  Z depth of the whole cut
   */
  datatype SurfaceGrinderCutParams =
    SurfaceGrinderCutParams(depthOfCut: real, feedPerPass: real, strokeSpeed: real, totalDepth: real)

  /**
   * Every message of the system. The `speed` of the two motion commands is
   * `Some(ips)` when the sender asks for a speed and `None` when it does not:
   * the earlier cut controller was written before the field existed.
   */
  datatype Message =
    | CurrentPosition(position: CurrentPositionMsg)
    | EndstopHit(hit: EndstopHitMsg)
    | GoToPosition(axis: Axis, target: real, speed: Option<real>)
    | MoveAxisRel(axis: Axis, distance: real, speed: Option<real>)
    | MovementComplete(complete: MovementCompleteMsg)
    | SpindleControl(on: bool)
    | StartHoming
    | StartSurfaceGrinderCut(params: SurfaceGrinderCutParams)
    | Stop

  /**
   * The sending end of a message channel. Every clone of a Rust `Sender` feeds
   * the same channel, so a sender is an object and copies share it; `sent` is
   * everything sent on the channel so far, oldest first.
   */
  class Sender {
    var sent: seq<Message>

    constructor ()
      ensures sent == []
    {
      sent := [];
    }

    method Send(msg: Message)
      modifies this
      ensures sent == old(sent) + [msg]
    {
      sent := sent + [msg];
    }
  }
}
