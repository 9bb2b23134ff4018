/** The sample application's own copy of XYDeviceProximity. */
module SampleConstants {
  import Constants

  datatype Proximity = None | OutOfRange | VeryFar | Far | Medium | Near | VeryNear | Touching

  /** The sample's `fromSignalStrength`, written out again in the sample. */
  function FromSignalStrength(strength: int): (p: Proximity)
    ensures (p == None) <==> strength == -999
    ensures (p == OutOfRange) <==> strength < -200 && strength != -999
  {
    if strength == -999 then None
    else if strength >= -40 then Touching
    else if strength >= -60 then VeryNear
    else if strength >= -70 then Near
    else if strength >= -80 then Medium
    else if strength >= -90 then Far
    else if strength >= -200 then VeryFar
    else OutOfRange
  }

  /** The same case of the SDK's enum. */
  function ToSdk(p: Proximity): (q: Constants.Proximity) {
    match p
    case None => Constants.None
    case OutOfRange => Constants.OutOfRange
    case VeryFar => Constants.VeryFar
    case Far => Constants.Far
    case Medium => Constants.Medium
    case Near => Constants.Near
    case VeryNear => Constants.VeryNear
    case Touching => Constants.Touching
  }

  /** The two copies agree on every integer. */
  lemma {:induction false} AgreesWithSdk(strength: int)
    ensures ToSdk(FromSignalStrength(strength)) == Constants.FromSignalStrength(strength)
  {
  }

  /** ToSdk is one-to-one, so agreement determines the sample's case. */
  lemma {:induction false} ToSdkInjective(p: Proximity, q: Proximity)
    requires ToSdk(p) == ToSdk(q)
    ensures p == q
  {
  }
}
