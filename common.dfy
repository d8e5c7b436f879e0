// Identifiers shared by every part of the machine controller (src/common.rs),
// plus the Option type the Rust code gets from its standard library.
module Common {

  /** One linear motion axis of the machine. */
  datatype Axis = X | Y | Z

  /** One end of an axis's travel. */
  datatype AxisEnd = Min | Max

  /** Names one endstop switch: the axis it guards and the end it sits at. */
  datatype EndstopIdentifier = EndstopIdentifier(axis: Axis, position: AxisEnd)

  datatype Option<+T> = None | Some(value: T) {
    /** `unwrap_or`: the held value, or `default` when there is none. */
    function UnwrapOr(default: T): T {
      match this
      case Some(v) => v
      case None => default
    }
  }
}
