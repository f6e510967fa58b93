/** The display-orientation arithmetic of determineDisplayOrientation. */
module Orientation {

  /** CameraInfo.facing: CAMERA_FACING_BACK (0) or CAMERA_FACING_FRONT (1). */
  datatype Facing = Back | Front

  /** What Camera.getCameraInfo reports for the current camera. */
  datatype CameraInfo = CameraInfo(facing: Facing, orientation: int)

  /** Surface.ROTATION_* codes reported by the default display. */
  const ROTATION_0: int := 0
  const ROTATION_90: int := 1
  const ROTATION_180: int := 2
  const ROTATION_270: int := 3

  /** Java's `x % 360` on ints: truncates toward zero, so the remainder takes
      the sign of the dividend. */
  function JavaRem360(a: int): (r: int)
    ensures -360 < r < 360
    ensures a >= 0 ==> r >= 0
    ensures a <= 0 ==> r <= 0
    ensures (a - r) % 360 == 0
  {
    if a >= 0 then a % 360 else -((-a) % 360)
  }

  /** On a non-negative dividend Java's remainder is the Euclidean one. */
  lemma JavaRemOfNonNegative(a: int)
    requires a >= 0
    ensures JavaRem360(a) == a % 360
  {
  }

  /** The switch over the display rotation: the four codes give their angle,
      any other value leaves the initial 0. */
  function RotationDegrees(rotation: int): (degrees: int)
    ensures IsRightAngle(degrees)
    ensures 0 <= rotation <= 3 ==> degrees == 90 * rotation
    ensures !(0 <= rotation <= 3) ==> degrees == 0
  {
    if rotation == ROTATION_0 then 0
    else if rotation == ROTATION_90 then 90
    else if rotation == ROTATION_180 then 180
    else if rotation == ROTATION_270 then 270
    else 0
  }

  /** The angle handed to Camera.setDisplayOrientation for a sensor mounted at
      `orientation` on a display rotated by `degrees`. */
  function DisplayOrientation(facing: Facing, orientation: int, degrees: int): int
  {
    match facing
    case Front => JavaRem360(360 - JavaRem360(orientation + degrees))
    case Back => JavaRem360(orientation - degrees + 360)
  }

  predicate IsRightAngle(degrees: int)
  {
    degrees == 0 || degrees == 90 || degrees == 180 || degrees == 270
  }

  /** For a sensor mounted at a non-negative angle the result is an angle in
      [0, 360). */
  lemma DisplayOrientationInRange(facing: Facing, orientation: int, degrees: int)
    requires orientation >= 0 && IsRightAngle(degrees)
    ensures 0 <= DisplayOrientation(facing, orientation, degrees) < 360
  {
  }

  /** Front camera: the result undoes the combined sensor and display rotation,
      mirrored, so adding it to that rotation gives a full turn. */
  lemma FrontCompensates(orientation: int, degrees: int)
    requires orientation >= 0 && degrees >= 0
    ensures var r := DisplayOrientation(Front, orientation, degrees);
            0 <= r < 360 && (r + (orientation + degrees) % 360) % 360 == 0
  {
  }

  /** Back camera: the result is the sensor angle minus the display rotation,
      taken modulo 360. */
  lemma BackCompensates(orientation: int, degrees: int)
    requires orientation - degrees + 360 >= 0
    ensures var r := DisplayOrientation(Back, orientation, degrees);
            0 <= r < 360 && r == (orientation - degrees) % 360
  {
  }

  /** determineDisplayOrientation: 0 once the context has been collected,
      otherwise the orientation for the reported camera and display rotation. */
  function DetermineDisplayOrientation(contextAlive: bool, info: CameraInfo, rotation: int): (r: int)
    ensures !contextAlive ==> r == 0
    ensures contextAlive && info.orientation >= 0 ==> 0 <= r < 360
    ensures contextAlive && info.facing == Front && info.orientation >= 0 ==>
              (r + (info.orientation + RotationDegrees(rotation)) % 360) % 360 == 0
    ensures contextAlive && info.facing == Back && info.orientation >= 0 ==>
              r == (info.orientation - RotationDegrees(rotation)) % 360
  {
    if !contextAlive then 0
    else
      var degrees := RotationDegrees(rotation);
      if info.orientation < 0 then
        DisplayOrientation(info.facing, info.orientation, degrees)
      else if info.facing == Front then
        FrontCompensates(info.orientation, degrees);
        DisplayOrientation(info.facing, info.orientation, degrees)
      else
        BackCompensates(info.orientation, degrees);
        DisplayOrientation(info.facing, info.orientation, degrees)
  }

  /** A negative sensor angle shows Java's remainder at work: the back-camera
      result is then negative. */
  lemma NegativeOrientationGivesNegativeResult()
    ensures DisplayOrientation(Back, -180, 270) == -90
  {
  }
}
