/**
 * The device's default (natural) orientation, decided from the current display
 * rotation and the current configuration orientation (the utility class `U`).
 * The game uses it to choose how tilt axes map onto the arena.
 */
module Orientation {

  // android.view.Surface rotation constants
  const ROTATION_0: int := 0
  const ROTATION_90: int := 1
  const ROTATION_180: int := 2
  const ROTATION_270: int := 3

  // android.content.res.Configuration orientation constants
  const ORIENTATION_UNDEFINED: int := 0
  const ORIENTATION_PORTRAIT: int := 1
  const ORIENTATION_LANDSCAPE: int := 2

  predicate IsUpright(rotation: int) {
    rotation == ROTATION_0 || rotation == ROTATION_180
  }

  predicate IsSideways(rotation: int) {
    rotation == ROTATION_90 || rotation == ROTATION_270
  }

  /**
   * Reference meaning: the orientation the screen would have if the device were
   * turned back to rotation 0. Upright rotations keep the current orientation,
   * sideways rotations swap portrait and landscape, and anything else is unknown.
   */
  function NaturalOrientation(rotation: int, configOrientation: int): int {
    if IsUpright(rotation) then
      (if configOrientation == ORIENTATION_PORTRAIT || configOrientation == ORIENTATION_LANDSCAPE
       then configOrientation else ORIENTATION_UNDEFINED)
    else if IsSideways(rotation) then
      (if configOrientation == ORIENTATION_PORTRAIT then ORIENTATION_LANDSCAPE
       else if configOrientation == ORIENTATION_LANDSCAPE then ORIENTATION_PORTRAIT
       else ORIENTATION_UNDEFINED)
    else ORIENTATION_UNDEFINED
  }

  /**
   * The decision of U.getDeviceDefaultOrientation: landscape exactly when the
   * natural orientation is landscape, portrait in every other case (including
   * undefined orientations and unknown rotations).
   */
  function DefaultOrientation(rotation: int, configOrientation: int): (r: int)
    ensures r == ORIENTATION_LANDSCAPE || r == ORIENTATION_PORTRAIT
    ensures r == ORIENTATION_LANDSCAPE <==> NaturalOrientation(rotation, configOrientation) == ORIENTATION_LANDSCAPE
    ensures r == ORIENTATION_PORTRAIT <==> NaturalOrientation(rotation, configOrientation) != ORIENTATION_LANDSCAPE
  {
    if (IsUpright(rotation) && configOrientation == ORIENTATION_LANDSCAPE)
       || (IsSideways(rotation) && configOrientation == ORIENTATION_PORTRAIT)
    then ORIENTATION_LANDSCAPE
    else ORIENTATION_PORTRAIT
  }

  /** The three cases of the decision, stated one by one. */
  lemma DefaultOrientationCases(rotation: int, configOrientation: int)
    ensures IsUpright(rotation) && configOrientation == ORIENTATION_LANDSCAPE
            ==> DefaultOrientation(rotation, configOrientation) == ORIENTATION_LANDSCAPE
    ensures IsSideways(rotation) && configOrientation == ORIENTATION_PORTRAIT
            ==> DefaultOrientation(rotation, configOrientation) == ORIENTATION_LANDSCAPE
    ensures configOrientation != ORIENTATION_PORTRAIT && configOrientation != ORIENTATION_LANDSCAPE
            ==> DefaultOrientation(rotation, configOrientation) == ORIENTATION_PORTRAIT
    ensures !IsUpright(rotation) && !IsSideways(rotation)
            ==> DefaultOrientation(rotation, configOrientation) == ORIENTATION_PORTRAIT
  {
  }
}
