/** The SDK's constant tables: the signal-strength ladder of XYDeviceProximity
    and the tone bytes of XYFinderSong. */
module Constants {
  import Ble

  /** XYDeviceProximity, declared in rawValue order 0..7. */
  datatype Proximity = None | OutOfRange | VeryFar | Far | Medium | Near | VeryNear | Touching

  /** `rawValue`: the position of the case in the declaration, from 0. */
  function RawValue(p: Proximity): (r: nat)
    ensures r < 8
    ensures r == 0 <==> p == None
    ensures r == 7 <==> p == Touching
  {
    match p
    case None => 0
    case OutOfRange => 1
    case VeryFar => 2
    case Far => 3
    case Medium => 4
    case Near => 5
    case VeryNear => 6
    case Touching => 7
  }

  /** `XYDeviceProximity(rawValue:)`: the case at that position, if any. */
  function FromRawValue(n: int): Ble.Option<Proximity> {
    match n
    case 0 => Ble.Some(None)
    case 1 => Ble.Some(OutOfRange)
    case 2 => Ble.Some(VeryFar)
    case 3 => Ble.Some(Far)
    case 4 => Ble.Some(Medium)
    case 5 => Ble.Some(Near)
    case 6 => Ble.Some(VeryNear)
    case 7 => Ble.Some(Touching)
    case _ => Ble.None
  }

  /** Raw values and cases correspond one to one: exactly 0 to 7 name a case. */
  lemma {:induction false} RawValueRoundTrip(p: Proximity, n: int)
    ensures FromRawValue(RawValue(p)) == Ble.Some(p)
    ensures FromRawValue(n).Some? <==> 0 <= n < 8
    ensures FromRawValue(n).Some? ==> RawValue(FromRawValue(n).value) == n
  {
  }

  /** The rssi value meaning "no reading". */
  const DefaultProximity: int := -999

  /** `XYDeviceProximity.fromSignalStrength`: the first threshold the strength
      reaches, tested from the strongest band down. */
  function FromSignalStrength(strength: int): (p: Proximity)
    ensures (p == None) <==> strength == DefaultProximity
  {
    if strength == -999 then None
    else if strength >= -40 then Touching
    else if strength >= -60 then VeryNear
    else if strength >= -70 then Near
    else if strength >= -80 then Medium
    else if strength >= -90 then Far
    else if strength >= -200 then VeryFar
    else OutOfRange
  }

  /** Lowest strength of each ranged band (inclusive); the band reaches up to the
      next stronger band's floor, and Touching is unbounded above. */
  function Floor(p: Proximity): int
    requires p != None && p != OutOfRange
  {
    match p
    case Touching => -40
    case VeryNear => -60
    case Near => -70
    case Medium => -80
    case Far => -90
    case VeryFar => -200
  }

  /** The next stronger band (Touching has none). */
  function Stronger(p: Proximity): Ble.Option<Proximity>
    requires p != None && p != OutOfRange
  {
    match p
    case Touching => Ble.None
    case VeryNear => Ble.Some(Touching)
    case Near => Ble.Some(VeryNear)
    case Medium => Ble.Some(Near)
    case Far => Ble.Some(Medium)
    case VeryFar => Ble.Some(Far)
  }

  /** Band table: apart from -999, a strength is in a ranged band exactly when
      it lies between that band's floor and the next stronger band's floor. */
  lemma {:induction false} BandsExact(strength: int, p: Proximity)
    requires strength != DefaultProximity
    requires p != None && p != OutOfRange
    ensures FromSignalStrength(strength) == p <==>
            (Floor(p) <= strength && (Stronger(p).None? || strength < Floor(Stronger(p).value)))
  {
  }

  /** Every strength below -200 other than -999 is out of range, and nothing else is. */
  lemma {:induction false} OutOfRangeExact(strength: int)
    ensures FromSignalStrength(strength) == OutOfRange <==> strength < -200 && strength != DefaultProximity
  {
  }

  /** The ladder's bands follow the declaration order: the next stronger band
      of each is the case declared right after it, and only touching has none. */
  lemma {:induction false} StrongerIsNextCase(p: Proximity)
    requires p != None && p != OutOfRange
    ensures Stronger(p).None? <==> p == Touching
    ensures Stronger(p).Some? ==> RawValue(Stronger(p).value) == RawValue(p) + 1
  {
  }

  /** Apart from -999, a stronger signal never gives a lower proximity. */
  lemma {:induction false} Monotone(a: int, b: int)
    requires a <= b && a != DefaultProximity && b != DefaultProximity
    ensures RawValue(FromSignalStrength(a)) <= RawValue(FromSignalStrength(b))
  {
  }

  /** XYFinderSong */
  datatype Song = Off | FindIt

  /** XYFinderDeviceFamily: the four families the song table names; every
      other family falls to the table's default branch. */
  datatype FinderFamily = XY1 | XY2 | XY3 | XY4 | OtherFamily(name: string)

  /** `XYFinderSong.values(for:)`: the bytes written to the device's song characteristic. */
  function SongValues(song: Song, family: FinderFamily): (r: seq<Ble.Byte>)
    ensures 1 <= |r| <= 2
    ensures family == XY1 ==> r == [0x01]
    ensures family == XY4 ==> |r| == 2 && r[1] == 0x03
    ensures family != XY4 ==> |r| == 1
  {
    match song
    case Off =>
      (match family
       case XY4 => [0xff, 0x03]
       case XY1 => [0x01]
       case _ => [0xff])
    case FindIt =>
      (match family
       case XY4 => [0x0b, 0x03]
       case XY2 => [0x01]
       case XY1 => [0x01]
       case _ => [0x02])
  }

  /** The two songs differ on every family except XY1, the only one that plays
      the same bytes for both. */
  lemma {:induction false} SongsDistinguished(family: FinderFamily)
    ensures SongValues(Off, family) == SongValues(FindIt, family) <==> family == XY1
  {
    if family != XY1 {
      assert SongValues(Off, family)[0] != SongValues(FindIt, family)[0];
    }
  }
}
