// The machine's work envelope (src/operation_controllers/work_envelope.rs; the
// earlier controller in src/surface_grinder_cut_controller.rs declares an
// identical local copy, which this module stands for as well).
module Envelope {
  import opened Common

  /** The travel limits of each axis, in inches. */
  datatype WorkEnvelope = WorkEnvelope(minX: real, minY: real, minZ: real, maxX: real, maxY: real, maxZ: real)

  /** `get_extent`: the limit of `axis` at `end`. */
  function GetExtent(e: WorkEnvelope, axis: Axis, end: AxisEnd): real {
    match (axis, end)
    case (X, Min) => e.minX
    case (Y, Min) => e.minY
    case (Z, Min) => e.minZ
    case (X, Max) => e.maxX
    case (Y, Max) => e.maxY
    case (Z, Max) => e.maxZ
  }

  /** `WorkEnvelope::new`: X and Y span -256..256 inches; Z has no travel yet. */
  function NewWorkEnvelope(): (e: WorkEnvelope)
    ensures GetExtent(e, X, Min) == -256.0 && GetExtent(e, X, Max) == 256.0
    ensures GetExtent(e, Y, Min) == -256.0 && GetExtent(e, Y, Max) == 256.0
    ensures GetExtent(e, Z, Min) == 0.0 && GetExtent(e, Z, Max) == 0.0
    ensures forall a :: GetExtent(e, a, Min) <= GetExtent(e, a, Max)
  {
    WorkEnvelope(-256.0, -256.0, 0.0, 256.0, 256.0, 0.0)
  }

  /** The envelope with the one limit named by (`axis`, `end`) replaced by `value`. */
  function WithExtent(e: WorkEnvelope, axis: Axis, end: AxisEnd, value: real): (r: WorkEnvelope)
    ensures GetExtent(r, axis, end) == value
    ensures forall a, en :: (a, en) != (axis, end) ==> GetExtent(r, a, en) == GetExtent(e, a, en)
  {
    match (axis, end)
    case (X, Min) => e.(minX := value)
    case (Y, Min) => e.(minY := value)
    case (Z, Min) => e.(minZ := value)
    case (X, Max) => e.(maxX := value)
    case (Y, Max) => e.(maxY := value)
    case (Z, Max) => e.(maxZ := value)
  }

  /** The six (axis, end) pairs name six different fields: together they determine the envelope. */
  lemma ExtentsDetermineEnvelope(e1: WorkEnvelope, e2: WorkEnvelope)
    requires forall a, en :: GetExtent(e1, a, en) == GetExtent(e2, a, en)
    ensures e1 == e2
  {
    assert GetExtent(e1, X, Min) == GetExtent(e2, X, Min);
    assert GetExtent(e1, Y, Min) == GetExtent(e2, Y, Min);
    assert GetExtent(e1, Z, Min) == GetExtent(e2, Z, Min);
    assert GetExtent(e1, X, Max) == GetExtent(e2, X, Max);
    assert GetExtent(e1, Y, Max) == GetExtent(e2, Y, Max);
    assert GetExtent(e1, Z, Max) == GetExtent(e2, Z, Max);
  }
}
