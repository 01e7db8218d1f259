/**
 * Display-orientation compensation, written out identically in
 * CameraPreview.setCameraDisplayOrientation, CameraFragment.setupParameters
 * and CameraFragment2.onCreateView.
 */
module Orientation {
  import opened Android

  /** The switch on Display.getRotation(); any other value leaves 0 degrees. */
  function RotationDegrees(rotation: int): (d: int)
    ensures d == 0 || d == 90 || d == 180 || d == 270
    ensures Rotation0 <= rotation <= Rotation270 ==> d == 90 * rotation
    ensures !(Rotation0 <= rotation <= Rotation270) ==> d == 0
  {
    if rotation == Rotation0 then 0
    else if rotation == Rotation90 then 90
    else if rotation == Rotation180 then 180
    else if rotation == Rotation270 then 270
    else 0
  }

  /** Java's `a % 360` on int: the remainder takes the sign of the dividend. */
  function JavaRem360(a: int): (r: int)
    ensures -360 < r < 360
    ensures a >= 0 ==> 0 <= r
    ensures a <= 0 ==> r <= 0
    ensures (a - r) % 360 == 0
  {
    if a >= 0 then a % 360 else -((-a) % 360)
  }

  /** A mounting angle as CameraInfo.orientation reports it. */
  predicate IsAngle(x: int) {
    0 <= x < 360
  }

  /**
   * The angle handed to setDisplayOrientation for a sensor described by
   * `info` on a display rotated by `degrees`: a front-facing sensor is
   * mirrored, so its compensation runs the other way round.
   */
  function Compensate(info: CameraInfo, degrees: int): (r: int)
    ensures info.facing == Front ==> IsAngle(r)
    ensures info.facing == Back && info.orientation - degrees + 360 >= 0 ==> IsAngle(r)
  {
    if info.facing == Front then
      JavaRem360(360 - JavaRem360(info.orientation + degrees))
    else
      JavaRem360(info.orientation - degrees + 360)
  }

  /** For every rotation and every mounting angle the result is an angle. */
  lemma CompensateInRange(info: CameraInfo, rotation: int)
    requires IsAngle(info.orientation)
    ensures IsAngle(Compensate(info, RotationDegrees(rotation)))
  {
  }

  /**
   * With a valid mounting angle and display rotation, Java's truncating
   * remainders agree with the mathematical formulas
   * back: (o - d + 360) mod 360, front: (360 - (o + d) mod 360) mod 360.
   */
  lemma CompensateFormula(info: CameraInfo, degrees: int)
    requires IsAngle(info.orientation) && IsAngle(degrees)
    ensures info.facing == Back ==>
      Compensate(info, degrees) == (info.orientation - degrees + 360) % 360
    ensures info.facing == Front ==>
      Compensate(info, degrees) == (360 - (info.orientation + degrees) % 360) % 360
  {
  }

  /**
   * What the compensation means for a back-facing sensor: rotating the
   * image by the result and the display by `degrees` lands on the mounting
   * angle, and the result is the only angle that does.
   */
  lemma CompensateBackCharacterised(info: CameraInfo, degrees: int, x: int)
    requires info.facing == Back
    requires IsAngle(info.orientation) && IsAngle(degrees) && IsAngle(x)
    ensures x == Compensate(info, degrees) <==> (x + degrees) % 360 == info.orientation
  {
    CompensateFormula(info, degrees);
  }

  /**
   * The same for a front-facing sensor, whose image is mirrored: image
   * rotation, mounting angle and display rotation cancel out, and the
   * result is the only angle that makes them.
   */
  lemma CompensateFrontCharacterised(info: CameraInfo, degrees: int, x: int)
    requires info.facing == Front
    requires IsAngle(info.orientation) && IsAngle(degrees) && IsAngle(x)
    ensures x == Compensate(info, degrees) <==> (x + info.orientation + degrees) % 360 == 0
  {
    CompensateFormula(info, degrees);
  }
}
