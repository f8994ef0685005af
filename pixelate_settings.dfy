/** The volume component that drives the pixelate pass: the size of the
    blocks the image is reduced to. */
module PixelateSettings {
  import opened Wrappers
  import opened VolumeParameters

  /** The component's state. `active` is the flag every VolumeComponent
      inherits. */
  datatype Settings = Settings(active: bool, pixelSize: ClampedInt)

  /** The declared range [1, 256], with the value inside it. */
  predicate Valid(s: Settings)
  {
    s.pixelSize.min == 1 && s.pixelSize.max == 256 && s.pixelSize.InRange()
  }

  /** The effect runs only when the inherited flag is set and the blocks are
      larger than one pixel. */
  predicate IsActive(s: Settings)
    ensures IsActive(s) ==> s.active && s.pixelSize.value != 1
  {
    s.pixelSize.value > 1 && s.active
  }

  /** A freshly constructed component, with the field initialiser's value. */
  function New(active: bool): (s: Settings)
    ensures Valid(s) && s.active == active
    ensures s.pixelSize.value == 1 && !IsActive(s)
  {
    Settings(active, ClampedInt(1, 1, 256))
  }

  /** A pixel size of 1 switches the effect off whatever the inherited flag
      says; any larger size leaves the decision to that flag. */
  lemma ActiveExactlyAboveUnitSize(s: Settings)
    requires Valid(s)
    ensures s.pixelSize.value == 1 ==> !IsActive(s)
    ensures s.pixelSize.value > 1 ==> (IsActive(s) <==> s.active)
    ensures IsActive(s) ==> 2 <= s.pixelSize.value <= 256
  {
  }

  /** Setting the pixel size through its setter keeps it a valid divisor. */
  lemma SetPixelSizeKeepsValid(s: Settings, v: int)
    requires Valid(s)
    ensures Valid(s.(pixelSize := s.pixelSize.Set(v)))
    ensures s.pixelSize.Set(v).value >= 1
  {
  }

  /** Always throws NotImplementedException. */
  function IsTileCompatible(s: Settings): (r: Result<bool, Exception>)
    ensures r.Failure? && r.error == NotImplementedException
  {
    Failure(NotImplementedException)
  }
}
