/** Unity's clamped volume parameters, as the settings components declare
    them: a current value with the range Unity keeps it in. Assigning a value
    to such a parameter clamps it into the range. */
module VolumeParameters {

  /** A ClampedIntParameter. */
  datatype ClampedInt = ClampedInt(value: int, min: int, max: int)
  {
    predicate InRange()
    {
      min <= value <= max
    }

    /** Assignment through the parameter's value setter. */
    function Set(v: int): (p: ClampedInt)
      requires min <= max
      ensures p.min == min && p.max == max && p.InRange()
      ensures min <= v <= max ==> p.value == v
      ensures v < min ==> p.value == min
      ensures v > max ==> p.value == max
    {
      ClampedInt(if v < min then min else if v > max then max else v, min, max)
    }
  }

  /** A ClampedFloatParameter. Its value is only compared and forwarded,
      never computed with, so an exact real stands for the float. */
  datatype ClampedFloat = ClampedFloat(value: real, min: real, max: real)
  {
    predicate InRange()
    {
      min <= value <= max
    }

    /** Assignment through the parameter's value setter. */
    function Set(v: real): (p: ClampedFloat)
      requires min <= max
      ensures p.min == min && p.max == max && p.InRange()
      ensures min <= v <= max ==> p.value == v
      ensures v < min ==> p.value == min
      ensures v > max ==> p.value == max
    {
      ClampedFloat(if v < min then min else if v > max then max else v, min, max)
    }
  }
}
