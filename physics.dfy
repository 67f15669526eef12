/**
 * The bird of flappy.js: its fixed geometry, the integration constants and
 * the cosmetic rotation that `updateBirdRotation` derives from the velocity.
 * Coordinates are exact reals; the y axis points down, as on the canvas.
 */
module Physics {

  /** The canvas size, fixed for the whole session and positive. */
  datatype Canvas = Canvas(width: real, height: real)

  const BirdX: real := 80.0
  const BirdStartY: real := 300.0
  const BirdWidth: real := 34.0
  const BirdHeight: real := 24.0
  const Gravity: real := 0.5
  const Lift: real := -8.5

  /** The ground strip drawn at the bottom of the canvas; the bird may not enter it. */
  const GroundHeight: real := 10.0

  const RotationFactor: real := 0.05
  const MaxRotation: real := 0.5

  function MinReal(a: real, b: real): real { if a <= b then a else b }
  function MaxReal(a: real, b: real): real { if a >= b then a else b }

  /**
   * The rotation set by `updateBirdRotation`: the velocity scaled by 0.05 and
   * clamped to [-0.5, 0.5].
   */
  function Rotation(velocity: real): (r: real)
    ensures -MaxRotation <= r <= MaxRotation
    ensures -MaxRotation <= velocity * RotationFactor <= MaxRotation ==> r == velocity * RotationFactor
    ensures velocity * RotationFactor > MaxRotation ==> r == MaxRotation
    ensures velocity * RotationFactor < -MaxRotation ==> r == -MaxRotation
  {
    MaxReal(-MaxRotation, MinReal(MaxRotation, velocity * RotationFactor))
  }

  /** A steeper fall never tilts the bird less: the rotation is monotone in the velocity. */
  lemma RotationMonotone(v1: real, v2: real)
    requires v1 <= v2
    ensures Rotation(v1) <= Rotation(v2)
  {
  }
}
