/** The application's mode, which both components receive as a property. */
module Types {

  /** The mode the surrounding application owns and passes in every frame. */
  datatype TreeMode = Chaos | Formed

  /** The progress value both components steer towards: 1 in `Formed`, 0 otherwise. */
  function ProgressTarget(mode: TreeMode): (target: real)
    ensures target == 1.0 <==> mode == Formed
    ensures target == 0.0 <==> mode != Formed
  {
    if mode == Formed then 1.0 else 0.0
  }
}
