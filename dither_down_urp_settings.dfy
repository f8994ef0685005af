/** The volume component that drives the dither pass: an on/off switch, the
    number of colour levels, the dither table to use and two float
    parameters handed to the shader. */
module DitherDownURPSettings {
  import opened VolumeParameters

  /** The component's own DitherType enum. It is distinct from the pass's
      enum of the same name; a C# enum is an integer underneath. */
  newtype DitherType = int

  const Bayer2x2: DitherType := 0
  const Bayer3x3: DitherType := 1
  const Bayer4x4: DitherType := 2
  const Bayer8x8: DitherType := 3

  /** The component's state. `active` is the flag every VolumeComponent
      inherits; the others are its declared parameters. */
  datatype Settings = Settings(
    active: bool,
    enabled: bool,
    colorLevels: ClampedInt,
    ditherType: DitherType,
    dithering: ClampedFloat,
    downsampling: ClampedFloat)

  /** The declared ranges, with every clamped value inside its range. */
  predicate Valid(s: Settings)
  {
    s.colorLevels.min == 1 && s.colorLevels.max == 24 && s.colorLevels.InRange() &&
    s.dithering.min == 0.0 && s.dithering.max == 0.5 && s.dithering.InRange() &&
    s.downsampling.min == 1.0 && s.downsampling.max == 32.0 && s.downsampling.InRange()
  }

  /** The effect runs only when both its own switch and the inherited flag
      are set. */
  predicate IsActive(s: Settings)
    ensures IsActive(s) ==> s.enabled && s.active
  {
    s.enabled && s.active
  }

  /** A freshly constructed component, with the field initialisers' values. */
  function New(active: bool): (s: Settings)
    ensures Valid(s) && s.active == active
    ensures !s.enabled && !IsActive(s)
    ensures s.colorLevels.value == 16 && s.ditherType == Bayer2x2
    ensures s.dithering.value == 0.0 && s.downsampling.value == 1.0
  {
    Settings(active, false, ClampedInt(16, 1, 24), Bayer2x2, ClampedFloat(0.0, 0.0, 0.5), ClampedFloat(1.0, 1.0, 32.0))
  }

  /** Whether the component is active depends on the switch and the
      inherited flag only, not on any of the effect's parameters. */
  lemma IsActiveIgnoresParameters(s: Settings, levels: ClampedInt, t: DitherType, dithering: ClampedFloat, downsampling: ClampedFloat)
    ensures IsActive(s.(colorLevels := levels, ditherType := t, dithering := dithering, downsampling := downsampling)) == IsActive(s)
    ensures IsActive(s) <==> s.enabled && s.active
  {
  }

  /** Setting a parameter through its setter keeps the component valid. */
  lemma SettersKeepValid(s: Settings, levels: int, dithering: real, downsampling: real)
    requires Valid(s)
    ensures Valid(s.(colorLevels := s.colorLevels.Set(levels)))
    ensures Valid(s.(dithering := s.dithering.Set(dithering)))
    ensures Valid(s.(downsampling := s.downsampling.Set(downsampling)))
    ensures 1 <= s.colorLevels.Set(levels).value <= 24
  {
  }

  function IsTileCompatible(s: Settings): (compatible: bool)
    ensures !compatible
  {
    false
  }
}
