/**
 * `BoolStringSwitchTransform`: the argument transformation that lets a switch
 * parameter be bound from a switch, a Boolean or any other value.
 */
module SwitchTransform {
  import opened Wrappers
  import opened Text

  /** `SwitchParameter`. */
  datatype Switch = Switch(isPresent: bool)

  /** The argument PowerShell hands to the transformation. */
  datatype Argument =
    | SwitchArgument(switch: Switch)
    /** A `bool`. */
    | BoolArgument(b: bool)
    /** Any other object, seen through its conversion to a string. */
    | OtherArgument(asString: NString)

  /** `Transform`. */
  function Transform(input: Argument): (r: Switch)
    ensures input.SwitchArgument? ==> r == input.switch
    ensures input.BoolArgument? ==> (r.isPresent <==> input.b)
    ensures input.OtherArgument? ==> (r.isPresent <==> input.asString.Some? && input.asString.value != "")
  {
    match input
    case SwitchArgument(s) => s
    case BoolArgument(b) => Switch(b)
    case OtherArgument(s) => Switch(!IsNullOrEmpty(s))
  }

  /** Transforming the result again gives the same switch. */
  lemma TransformIdempotent(input: Argument)
    ensures Transform(SwitchArgument(Transform(input))) == Transform(input)
  {
  }

  /** A non-empty string such as "false" or "0" still gives a present switch. */
  lemma AnyNonEmptyStringIsPresent(s: string)
    requires s != ""
    ensures Transform(OtherArgument(Some(s))).isPresent
  {
  }
}
