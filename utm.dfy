/** The UTM zone/latitude-band resolver and the proj4 definition string built
    for a zone (MMExport.py, `wgs84LatLonToUTMZone` and the string half of
    `makeCoordinateReferenceSystem`). */
module Utm {
  import opened Values
  import opened Text

  /** MGRS latitude bands, 8 degrees each from 80S; X is repeated for 80-84N. */
  const Bands: string := "CDEFGHJKLMNPQRSTUVWXX"

  /** Python's `s[i]`, where a negative index counts from the end. */
  function PyIndex(s: string, i: int): (r: Result<char>)
    ensures 0 <= i < |s| ==> r == Ok(s[i])
    ensures -|s| <= i < 0 ==> r == Ok(s[|s| + i])
    ensures r.Err? <==> i < -|s| || |s| <= i
  {
    if 0 <= i < |s| then Ok(s[i])
    else if -|s| <= i < 0 then Ok(s[|s| + i])
    else Err(IndexError)
  }

  /** The longitudinal zone before the Norway/Svalbard exceptions. */
  function BaseZone(longitude: real): int {
    ((longitude + 180.0) / 6.0).Floor + 1
  }

  function BandIndex(latitude: real): int {
    (latitude / 8.0 + 10.0).Floor
  }

  /** The Norway/Svalbard exception chain, applied in the source's order. */
  function AdjustZone(zone: int, band: char, longitude: real): (r: int)
    // Only bands V and X are touched, and only by one zone.
    ensures band != 'V' && band != 'X' ==> r == zone
    ensures r != zone ==> (band == 'V' || band == 'X') && (r == zone + 1 || r == zone - 1)
    // The Norway correction moves 31V east of 3E into zone 32.
    ensures band == 'V' ==> (r != zone <==> zone == 31 && longitude >= 3.0)
    // Svalbard: zones 32, 34 and 36 do not exist in band X.
    ensures band == 'X' ==> r != 32 && r != 34 && r != 36
    ensures band == 'X' && zone in {32, 34, 36} ==>
      r == (if longitude < (zone - 31) as real * 6.0 + 3.0 then zone - 1 else zone + 1)
    ensures band == 'X' && zone !in {32, 34, 36} ==> r == zone
  {
    if zone == 31 && band == 'V' && longitude >= 3.0 then zone + 1
    else if zone == 32 && band == 'X' && longitude < 9.0 then zone - 1
    else if zone == 32 && band == 'X' && longitude >= 9.0 then zone + 1
    else if zone == 34 && band == 'X' && longitude < 21.0 then zone - 1
    else if zone == 34 && band == 'X' && longitude >= 21.0 then zone + 1
    else if zone == 36 && band == 'X' && longitude < 33.0 then zone - 1
    else if zone == 36 && band == 'X' && longitude >= 33.0 then zone + 1
    else zone
  }

  /** `wgs84LatLonToUTMZone(latitude, longitude)`: the zone and band letter.
      A latitude whose band index falls outside the table raises IndexError;
      one below 80S wraps round through Python's negative indexing. */
  function Resolve(latitude: real, longitude: real): (r: Result<(int, char)>)
    ensures r.Ok? <==> -|Bands| <= BandIndex(latitude) < |Bands|
    ensures r.Ok? ==> r.value.1 in Bands
    ensures r.Ok? ==> r.value.0 == AdjustZone(BaseZone(longitude), r.value.1, longitude)
  {
    var band :- PyIndex(Bands, BandIndex(latitude));
    Ok((AdjustZone(BaseZone(longitude), band, longitude), band))
  }

  /** Inside the UTM domain the zone is one of the 60 zones and the band is
      the table entry for the latitude. */
  lemma ResolveInDomain(latitude: real, longitude: real)
    requires -80.0 <= latitude <= 84.0 && -180.0 <= longitude < 180.0
    ensures var r := Resolve(latitude, longitude);
      && r.Ok?
      && 1 <= r.value.0 <= 60
      && 0 <= BandIndex(latitude) < |Bands| && r.value.1 == Bands[BandIndex(latitude)]
  {
    var z := BaseZone(longitude);
    assert 0.0 <= (longitude + 180.0) / 6.0 < 60.0;
    assert 1 <= z <= 60;
    assert 0.0 <= latitude / 8.0 + 10.0 <= 20.5;
    var i := BandIndex(latitude);
    assert 0 <= i <= 20;
  }

  /** The documented example and the reference points of the tour documents. */
  lemma KnownPoints()
    ensures Resolve(13.41250188, 103.86666901) == Ok((48, 'P'))
    ensures Resolve(39.95, -75.166667) == Ok((18, 'S'))
    ensures Resolve(52.366667, 4.9) == Ok((31, 'U'))
    ensures Resolve(-33.865, 151.209444) == Ok((56, 'H'))
    ensures Resolve(-22.908333, -43.196389) == Ok((23, 'K'))
    ensures Resolve(60.0, 3.0) == Ok((32, 'V'))
  {
    ResolveAt(13.41250188, 103.86666901, 11, 48);
    ResolveAt(39.95, -75.166667, 14, 18);
    ResolveAt(52.366667, 4.9, 16, 31);
    ResolveAt(-33.865, 151.209444, 5, 56);
    ResolveAt(-22.908333, -43.196389, 7, 23);
    ResolveAt(60.0, 3.0, 17, 31);
  }

  /** The resolver at a point whose band index and base zone are known. */
  lemma ResolveAt(latitude: real, longitude: real, band: int, zone: int)
    requires 0 <= band < |Bands|
    requires band as real <= latitude / 8.0 + 10.0 < band as real + 1.0
    requires zone as real <= (longitude + 180.0) / 6.0 + 1.0 < zone as real + 1.0
    ensures Resolve(latitude, longitude) == Ok((AdjustZone(zone, Bands[band], longitude), Bands[band]))
  {
    assert BandIndex(latitude) == band;
    assert BaseZone(longitude) == zone;
  }

  /** Outside the domain the source does not guard: 85S wraps to band X and
      88N raises IndexError. */
  lemma OutOfDomain()
    ensures Resolve(-85.0, 0.0) == Ok((31, 'X'))
    ensures Resolve(88.0, 0.0) == Err(IndexError)
  {
    assert BandIndex(-85.0) == -1 && BaseZone(0.0) == 31;
    assert BandIndex(88.0) == 21;
  }

  const Proj4Prefix: string := "+proj=utm +ellps=WGS84 +datum=WGS84 +units=m +zone="

  /** `"%s" % zone`: the zone produced by the resolver is a Python 2 float
      (`math.floor` returns a float), which prints with a trailing ".0". */
  function ZoneText(zone: int, asFloat: bool): string {
    IntToString(zone) + (if asFloat then ".0" else "")
  }

  /** The proj4 definition of the UTM zone, southern hemisphere flagged. */
  function Proj4String(latitude: real, zone: int, asFloat: bool): (s: string)
    ensures |Proj4Prefix| < |s| && s[..|Proj4Prefix|] == Proj4Prefix
    ensures latitude < 0.0 ==> |s| >= 7 && s[|s| - 7..] == " +south"
    ensures latitude >= 0.0 ==> ' ' !in s[|Proj4Prefix|..]
  {
    var z := ZoneText(zone, asFloat);
    NoSeparatorInInt(zone, ' ');
    Proj4Prefix + (z + if latitude < 0.0 then " +south" else "")
  }

  /** Reads the zone number back out of a proj4 string as an integer
      parser would: the first word after "+zone=", up to any decimal point. */
  function Proj4Zone(s: string): Result<int> {
    if |s| < |Proj4Prefix| || s[..|Proj4Prefix|] != Proj4Prefix then Err(ValueError)
    else
      var word := Split(s[|Proj4Prefix|..], ' ')[0];
      ParseInt(Split(word, '.')[0])
  }

  lemma ZoneWord(latitude: real, zone: int, asFloat: bool)
    ensures var s := Proj4String(latitude, zone, asFloat);
      Split(s[|Proj4Prefix|..], ' ')[0] == ZoneText(zone, asFloat)
  {
    var z := ZoneText(zone, asFloat);
    var suffix := if latitude < 0.0 then " +south" else "";
    AfterPrefix(Proj4Prefix, z + suffix);
    NoSeparatorInInt(zone, ' ');
    assert ' ' !in z;
    if latitude < 0.0 {
      assert z + suffix == z + [' '] + "+south";
      SplitAt(z, ' ', "+south");
    } else {
      assert z + suffix == z;
      SplitNone(z, ' ');
    }
  }

  lemma AfterPrefix(p: string, t: string)
    ensures (p + t)[|p|..] == t
  {
  }

  lemma ZoneDigits(zone: int, asFloat: bool)
    ensures Split(ZoneText(zone, asFloat), '.')[0] == IntToString(zone)
  {
    var digits := IntToString(zone);
    NoSeparatorInInt(zone, '.');
    if asFloat {
      assert ZoneText(zone, asFloat) == digits + ['.'] + "0";
      SplitAt(digits, '.', "0");
    } else {
      assert ZoneText(zone, asFloat) == digits;
      SplitNone(digits, '.');
    }
  }

  /** The zone written into the definition is the zone that was asked for,
      whether it came in as an integer or as a float. */
  lemma Proj4ZoneRoundTrip(latitude: real, zone: int, asFloat: bool)
    ensures Proj4Zone(Proj4String(latitude, zone, asFloat)) == Ok(zone)
  {
    ZoneWord(latitude, zone, asFloat);
    ZoneDigits(zone, asFloat);
    IntToStringRoundTrip(zone);
  }
}
