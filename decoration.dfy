/** The decoration passes of the export (MMExport.py:633-775): a "Points"
    folder with one styled placemark per point that carries an icon style, a
    "Models" folder with one 3D model per point that carries a model
    directive, and the choice of output format from the export path
    (MMExport.py:779-799). */
module Decoration {
  import opened Values
  import opened Text
  import opened Timestamps
  import opened Views
  import opened Tour

  // ---------------------------------------------------------------- colours

  /** A lower-case hexadecimal digit. */
  function HexChar(d: nat): (c: char)
    requires d < 16
    ensures HexValue(c) == d
  {
    if d < 10 then ('0' as int + d) as char else ('a' as int + d - 10) as char
  }

  function HexValue(c: char): nat {
    if '0' <= c <= '9' then c as int - '0' as int
    else if 'a' <= c <= 'f' then c as int - 'a' as int + 10
    else 0
  }

  /** `hex(n)[2:]`: the lower-case hexadecimal digits of `n`, no leading zeros. */
  function HexOf(n: nat): (s: string)
    ensures |s| > 0
    ensures n < 16 <==> |s| == 1
    ensures n < 16 ==> s == [HexChar(n)]
    ensures 16 <= n < 256 ==> s == [HexChar(n / 16), HexChar(n % 16)]
  {
    if n < 16 then [HexChar(n)] else HexOf(n / 16) + [HexChar(n % 16)]
  }

  /** `transtokmlhex` as written, on `dec = int(transparency * 2.55)`:
      `'0' + str(dec)` below ten, else `hex(dec)[2:4]`. */
  function TransToKmlHex(dec: int): string {
    if dec < 10 then "0" + IntToString(dec)
    else
      var h := HexOf(dec);
      if |h| <= 2 then h else h[..2]
  }

  /** The KML alpha byte: two hex digits for 0..255 (elsewhere the source's
      text is kept). */
  function KmlAlpha(dec: int): (s: string)
    ensures 0 <= dec < 256 ==> |s| == 2 && HexValue(s[0]) * 16 + HexValue(s[1]) == dec
  {
    if 0 <= dec < 256 then [HexChar(dec / 16), HexChar(dec % 16)] else TransToKmlHex(dec)
  }

  /** Distinct alphas in range are encoded differently. */
  lemma KmlAlphaInjective(a: int, b: int)
    requires 0 <= a < 256 && 0 <= b < 256 && a != b
    ensures KmlAlpha(a) != KmlAlpha(b)
  {
  }

  lemma DigitIsHex(d: nat)
    requires d < 10
    ensures DigitChar(d) == HexChar(d)
  {
  }

  /** The source's encoding is two digits, and the correct one, except for
      alphas 10 to 15. */
  lemma TransToKmlHexAgrees(dec: int)
    requires 0 <= dec < 10 || 16 <= dec < 256
    ensures TransToKmlHex(dec) == KmlAlpha(dec)
  {
    if dec < 10 {
      DigitIsHex(dec);
      assert IntToString(dec) == [DigitChar(dec)];
    }
  }

  /** For alphas 10 to 15 the source gives a single hex digit, so the colour
      built from it is one character short. */
  lemma TransToKmlHexShort(dec: int)
    requires 10 <= dec < 16
    ensures TransToKmlHex(dec) == [KmlAlpha(dec)[1]]
    ensures |TransToKmlHex(dec) + "ffffff"| == 7
  {
  }

  lemma TransToKmlHexAt10()
    ensures TransToKmlHex(10) == "a"
    ensures KmlAlpha(10) == "0a"
  {
    TransToKmlHexShort(10);
  }

  /** `simplekml.Color.__dict__[name]`: the colour table is a parameter; a name
      missing from it raises KeyError. */
  function PaletteColor(palette: map<string, string>, v: Value): (r: Result<string>)
    ensures r.Ok? <==> v.VStr? && v.str in palette
    ensures r.Ok? ==> r.value == palette[v.str]
  {
    if v.VStr? && v.str in palette then Ok(palette[v.str]) else Err(KeyError)
  }

  /** `s[lo:hi]` for `lo <= hi`. */
  function Slice(s: string, lo: nat, hi: nat): (r: string)
    requires lo <= hi
    ensures lo <= |s| ==> r == s[lo..if |s| < hi then |s| else hi]
    ensures |s| <= lo ==> r == []
  {
    if |s| <= lo then [] else s[lo..if |s| < hi then |s| else hi]
  }

  /** `int(float(icondict['transparency']) * 2.55)`. */
  function AlphaOf(t: Value): (r: Result<int>)
    ensures r.Ok? <==> Float(t).Ok?
  {
    var x :- Float(t);
    Ok(Trunc(x * 2.55))
  }

  /** The alpha text the icon colour starts with: `transtokmlhex` as
      written, or the two-digit byte it was meant to produce. */
  function AlphaText(dec: int, reading: Reading): string {
    match reading
    case AsWritten => TransToKmlHex(dec)
    case Intended => KmlAlpha(dec)
  }

  /** The icon colour (MMExport.py:669-674): the named palette colour, whose
      alpha byte is replaced when a transparency is given. */
  function IconColor(icon: map<string, Value>, palette: map<string, string>, reading: Reading): (r: Result<Option<string>>)
    ensures r.Ok? ==> "color" in icon
    ensures r.Ok? ==> (r.value.Some? <==> Truthy(icon["color"]))
    ensures r.Ok? && r.value.Some? ==> icon["color"].VStr? && icon["color"].str in palette && "transparency" in icon
    ensures r.Ok? && r.value.Some? && !Truthy(icon["transparency"]) ==> r.value.value == palette[icon["color"].str]
    ensures r.Ok? && r.value.Some? && Truthy(icon["transparency"]) ==>
      AlphaOf(icon["transparency"]).Ok? &&
      r.value.value == AlphaText(AlphaOf(icon["transparency"]).value, reading) + Slice(palette[icon["color"].str], 2, 8)
    ensures "color" in icon && Truthy(icon["color"]) && !(icon["color"].VStr? && icon["color"].str in palette) ==> r == Err(KeyError)
  {
    var c :- Get(icon, "color");
    if !Truthy(c) then Ok(None)
    else
      var base :- PaletteColor(palette, c);
      var t :- Get(icon, "transparency");
      if !Truthy(t) then Ok(Some(base))
      else
        var dec :- AlphaOf(t);
        Ok(Some(AlphaText(dec, reading) + Slice(base, 2, 8)))
  }

  /** With an eight-digit `aabbggrr` palette colour and an alpha in range, the
      icon colour keeps the palette's blue, green and red digits and carries
      the alpha in its first two; as written, only for alphas outside 10 to
      15. */
  lemma IconColorKeepsHue(icon: map<string, Value>, palette: map<string, string>, reading: Reading)
    requires IconColor(icon, palette, reading).Ok? && IconColor(icon, palette, reading).value.Some?
    requires Truthy(icon["transparency"]) && |palette[icon["color"].str]| == 8
    requires 0 <= AlphaOf(icon["transparency"]).value < 256
    requires reading == AsWritten ==> !(10 <= AlphaOf(icon["transparency"]).value < 16)
    ensures var s := IconColor(icon, palette, reading).value.value;
      && |s| == 8
      && s[2..] == palette[icon["color"].str][2..]
      && HexValue(s[0]) * 16 + HexValue(s[1]) == AlphaOf(icon["transparency"]).value
  {
    if reading == AsWritten {
      TransToKmlHexAgrees(AlphaOf(icon["transparency"]).value);
    }
  }

  /** As written, an alpha from 10 to 15 leaves a seven-digit colour: the
      alpha's one hex digit, then the palette's blue, green and red. */
  lemma IconColorShort(icon: map<string, Value>, palette: map<string, string>)
    requires IconColor(icon, palette, AsWritten).Ok? && IconColor(icon, palette, AsWritten).value.Some?
    requires Truthy(icon["transparency"]) && |palette[icon["color"].str]| == 8
    requires 10 <= AlphaOf(icon["transparency"]).value < 16
    ensures var s := IconColor(icon, palette, AsWritten).value.value;
      && |s| == 7
      && s == [HexChar(AlphaOf(icon["transparency"]).value)] + palette[icon["color"].str][2..]
  {
    TransToKmlHexShort(AlphaOf(icon["transparency"]).value);
  }

  datatype IconStyle = IconStyle(color: Option<string>, colorMode: Option<Value>, scale: Option<Value>,
                                 heading: Option<Value>, href: Option<Value>)

  datatype LabelStyle = LabelStyle(color: Option<string>, colorMode: Option<Value>, scale: Option<Value>)

  /** The icon style (MMExport.py:667-682): each setting is present exactly
      when the directive's entry is truthy, and is then that entry. */
  function IconOf(icon: map<string, Value>, palette: map<string, string>, reading: Reading): (r: Result<IconStyle>)
    ensures r.Ok? ==> IconColor(icon, palette, reading).Ok? && r.value.color == IconColor(icon, palette, reading).value
    ensures r.Ok? ==> forall k :: k in ["colormode", "scale", "heading", "icon"] ==> k in icon
    ensures r.Ok? ==> (r.value.colorMode.Some? <==> Truthy(icon["colormode"])) && (r.value.colorMode.Some? ==> r.value.colorMode.value == icon["colormode"])
    ensures r.Ok? ==> (r.value.scale.Some? <==> Truthy(icon["scale"])) && (r.value.scale.Some? ==> r.value.scale.value == icon["scale"])
    ensures r.Ok? ==> (r.value.heading.Some? <==> Truthy(icon["heading"])) && (r.value.heading.Some? ==> r.value.heading.value == icon["heading"])
    ensures r.Ok? ==> (r.value.href.Some? <==> Truthy(icon["icon"])) && (r.value.href.Some? ==> r.value.href.value == icon["icon"])
  {
    var color :- IconColor(icon, palette, reading);
    var mode :- IfSet(icon, "colormode");
    var scale :- IfSet(icon, "scale");
    var heading :- IfSet(icon, "heading");
    var href :- IfSet(icon, "icon");
    Ok(IconStyle(color, mode, scale, heading, href))
  }

  /** The label style (MMExport.py:687-694): the palette colour without any
      transparency, and the colour mode and scale when truthy. */
  function LabelOf(settings: map<string, Value>, palette: map<string, string>): (r: Result<LabelStyle>)
    ensures r.Ok? ==> forall k :: k in ["color", "colormode", "scale"] ==> k in settings
    ensures r.Ok? ==> (r.value.color.Some? <==> Truthy(settings["color"]))
    ensures r.Ok? && r.value.color.Some? ==> settings["color"].VStr? && settings["color"].str in palette && r.value.color == Some(palette[settings["color"].str])
    ensures r.Ok? ==> (r.value.colorMode.Some? <==> Truthy(settings["colormode"])) && (r.value.colorMode.Some? ==> r.value.colorMode.value == settings["colormode"])
    ensures r.Ok? ==> (r.value.scale.Some? <==> Truthy(settings["scale"])) && (r.value.scale.Some? ==> r.value.scale.value == settings["scale"])
  {
    var c :- Get(settings, "color");
    var color :- if Truthy(c) then (var s :- PaletteColor(palette, c); Ok(Some(s))) else Ok(None);
    var mode :- IfSet(settings, "colormode");
    var scale :- IfSet(settings, "scale");
    Ok(LabelStyle(color, mode, scale))
  }

  // ---------------------------------------------------------------- points

  datatype Placemark = Placemark(name: string, longitude: real, latitude: real, description: string,
                                 when: Moment, icon: IconStyle, labelStyle: Option<LabelStyle>)

  /** The placemark of point `i` (MMExport.py:644-694): only a point with an
      icon style gets one, named by its index in the layer, at its own
      coordinates and stamped with its own datetime. */
  function PointOf(f: Feature, i: nat, stamp: DateTime, palette: map<string, string>, reading: Reading): (r: Result<Option<Placemark>>)
    ensures !Truthy(f.iconstyle) ==> r == Ok(None)
    ensures r.Ok? && Truthy(f.iconstyle) ==> r.value.Some?
    ensures r.Ok? && r.value.Some? ==>
      && r.value.value.name == IntToString(i)
      && r.value.value.longitude == f.x && r.value.value.latitude == f.y
      && r.value.value.description == f.description
      && r.value.value.when == Moment(stamp, 0.0)
      && f.iconSettings.Ok? && IconOf(f.iconSettings.value, palette, reading) == Ok(r.value.value.icon)
      && (r.value.value.labelStyle.Some? <==> Truthy(f.labelstyle))
    ensures Truthy(f.iconstyle) && stamp.year < 1900 ==> r == Err(ValueError)
  {
    if !Truthy(f.iconstyle) then Ok(None)
    else
      var when :- KmlTime(stamp);
      var d :- f.iconSettings;
      var icon :- IconOf(d, palette, reading);
      var labelStyle :- if Truthy(f.labelstyle) then (var ld :- f.labelSettings; var l :- LabelOf(ld, palette); Ok(Some(l))) else Ok(None);
      Ok(Some(Placemark(IntToString(i), f.x, f.y, f.description, when, icon, labelStyle)))
  }

  /** The "Points" folder after the first `n` points. */
  function Points(features: seq<Feature>, stamps: seq<DateTime>, palette: map<string, string>, reading: Reading, n: nat): Result<seq<Placemark>>
    requires n <= |features| && n <= |stamps|
  {
    if n == 0 then Ok([])
    else
      match Points(features, stamps, palette, reading, n - 1)
      case Err(e) => Err(e)
      case Ok(before) =>
        match PointOf(features[n - 1], n - 1, stamps[n - 1], palette, reading)
        case Err(e) => Err(e)
        case Ok(p) => Ok(if p.Some? then before + [p.value] else before)
  }

  /** Once a point fails, the pass fails with that point's error. */
  lemma {:induction false} PointsFailed(features: seq<Feature>, stamps: seq<DateTime>, palette: map<string, string>, reading: Reading, n: nat, m: nat)
    requires n <= m <= |features| && m <= |stamps|
    requires Points(features, stamps, palette, reading, n).Err?
    ensures Points(features, stamps, palette, reading, m) == Points(features, stamps, palette, reading, n)
    decreases m
  {
    if m > n {
      PointsFailed(features, stamps, palette, reading, n, m - 1);
    }
  }

  /** The points pass (MMExport.py:636-696), with `cc` the index of the point. */
  method PointsPass(features: seq<Feature>, stamps: seq<DateTime>, palette: map<string, string>, reading: Reading)
    returns (r: Result<seq<Placemark>>)
    requires |stamps| == |features|
    ensures r == Points(features, stamps, palette, reading, |features|)
  {
    var folder: seq<Placemark> := [];
    var cc := 0;
    while cc < |features|
      invariant cc <= |features|
      invariant Points(features, stamps, palette, reading, cc) == Ok(folder)
    {
      var p := PointOf(features[cc], cc, stamps[cc], palette, reading);
      if p.Err? {
        PointsFailed(features, stamps, palette, reading, cc + 1, |features|);
        return Err(p.error);
      }
      if p.value.Some? {
        folder := folder + [p.value.value];
      }
      cc := cc + 1;
    }
    return Ok(folder);
  }

  /** How many of the first `n` points carry an icon style. */
  function Styled(features: seq<Feature>, n: nat): nat
    requires n <= |features|
  {
    if n == 0 then 0 else Styled(features, n - 1) + (if Truthy(features[n - 1].iconstyle) then 1 else 0)
  }

  /** Placemark `p` is named after a styled point among the first `n`, and
      stands at that point. */
  ghost predicate NamedAfter(features: seq<Feature>, p: Placemark, n: nat)
    requires n <= |features|
  {
    && ParseInt(p.name).Ok? && 0 <= ParseInt(p.name).value < n
    && var f := features[ParseInt(p.name).value];
       Truthy(f.iconstyle) && p.longitude == f.x && p.latitude == f.y && p.description == f.description
  }

  /** One placemark per styled point, in layer order, each named after the
      index of its point. */
  lemma {:induction false} PointsNamed(features: seq<Feature>, stamps: seq<DateTime>, palette: map<string, string>, reading: Reading, n: nat)
    requires n <= |features| && n <= |stamps|
    requires Points(features, stamps, palette, reading, n).Ok?
    ensures var ps := Points(features, stamps, palette, reading, n).value;
      && |ps| == Styled(features, n)
      && (forall k :: 0 <= k < |ps| ==> NamedAfter(features, ps[k], n))
      && (forall a, b :: 0 <= a < b < |ps| ==> ParseInt(ps[a].name).value < ParseInt(ps[b].name).value)
  {
    if n > 0 {
      PointsNamed(features, stamps, palette, reading, n - 1);
      var p := PointOf(features[n - 1], n - 1, stamps[n - 1], palette, reading);
      if p.value.Some? {
        IntToStringRoundTrip(n - 1);
      }
    }
  }

  /** No two placemarks share a name. */
  lemma PointNamesDistinct(features: seq<Feature>, stamps: seq<DateTime>, palette: map<string, string>, reading: Reading)
    requires |stamps| == |features|
    requires Points(features, stamps, palette, reading, |features|).Ok?
    ensures var ps := Points(features, stamps, palette, reading, |features|).value;
      forall a, b :: 0 <= a < b < |ps| ==> ps[a].name != ps[b].name
  {
    PointsNamed(features, stamps, palette, reading, |features|);
  }

  // ---------------------------------------------------------------- models

  datatype Location = Location(longitude: Value, latitude: Value, altitude: Option<Value>)

  datatype Scale = Scale(x: Value, y: Value, z: Value)

  /** A 3D model; `relativeToGround` is the altitude mode the source sets. */
  datatype ModelMark = ModelMark(title: string, link: Option<Value>, location: Option<Location>,
                                 relativeToGround: bool, when: Option<Moment>, scale: Option<Scale>)

  /** `strftime('%X %m/%d/%Y')` in the C locale; Python 2 refuses years
      before 1900. */
  function ModelTitle(dt: DateTime): (r: Result<string>)
    requires Valid(dt)
    ensures r.Err? <==> dt.year < 1900
  {
    if dt.year < 1900 then Err(ValueError)
    else Ok(TimeText(dt) + " " + Pad(dt.month, 2) + "/" + Pad(dt.day, 2) + "/" + Pad(dt.year, 4))
  }

  /** The title names the point's clock time, then its date month first. */
  lemma TitleReadsBack(dt: DateTime)
    requires Valid(dt) && dt.year >= 1900
    ensures var words := Split(ModelTitle(dt).value, ' ');
      && |words| == 2
      && Triple(words[0], ':') == Ok((dt.hour, dt.minute, dt.second))
      && Triple(words[1], '/') == Ok((dt.month, dt.day, dt.year))
  {
    var time, date := TimeText(dt), Pad(dt.month, 2) + "/" + Pad(dt.day, 2) + "/" + Pad(dt.year, 4);
    assert ModelTitle(dt).value == time + [' '] + date;
    assert ' ' !in time by {
      NotInDigits(Pad(dt.hour, 2), ' ');
      NotInDigits(Pad(dt.minute, 2), ' ');
      NotInDigits(Pad(dt.second, 2), ' ');
    }
    assert ' ' !in date by {
      NotInDigits(Pad(dt.month, 2), ' ');
      NotInDigits(Pad(dt.day, 2), ' ');
      NotInDigits(Pad(dt.year, 4), ' ');
    }
    SplitAt(time, ' ', date);
    SplitNone(date, ' ');
    assert time == Pad(dt.hour, 2) + [':'] + Pad(dt.minute, 2) + [':'] + Pad(dt.second, 2);
    assert date == Pad(dt.month, 2) + ['/'] + Pad(dt.day, 2) + ['/'] + Pad(dt.year, 4);
    PaddedTriple(dt.hour, dt.minute, dt.second, 2, ':');
    PaddedTriple2(dt.month, dt.day, dt.year, '/');
  }

  /** Month and day in two digits, then a four-digit year. */
  lemma PaddedTriple2(x: nat, y: nat, z: nat, c: char)
    requires !IsDigit(c)
    ensures Triple(Pad(x, 2) + [c] + Pad(y, 2) + [c] + Pad(z, 4), c) == Ok((x, y, z))
  {
    NotInDigits(Pad(x, 2), c);
    NotInDigits(Pad(y, 2), c);
    NotInDigits(Pad(z, 4), c);
    ThreeFields(Pad(x, 2), Pad(y, 2), Pad(z, 4), c);
    PadRoundTrip(x, 2);
    PadRoundTrip(y, 2);
    PadRoundTrip(z, 4);
  }

  /** `text.split(",")[4].split(': ')[1]`, for an attribute that may be
      missing (`None`). */
  function AltitudeField(text: Option<string>): (r: Result<string>)
    ensures text.None? ==> r == Err(KeyError)
    ensures r.Ok? ==> text.Some? && |Split(text.value, ',')| >= 5 && |SplitOn(Split(text.value, ',')[4], ": ")| >= 2
  {
    match text
    case None => Err(KeyError)
    case Some(t) =>
      var pieces := Split(t, ',');
      if |pieces| < 5 then Err(IndexError)
      else
        var halves := SplitOn(pieces[4], ": ");
        if |halves| < 2 then Err(IndexError) else Ok(halves[1])
  }

  /** The fifth comma-separated entry of a GPS description, written
      "name: value", yields the value. */
  lemma AltitudeFromDescription(parts: seq<string>, name: string, value: string)
    requires |parts| >= 5
    requires forall i :: 0 <= i < |parts| ==> ',' !in parts[i]
    requires parts[4] == name + ": " + value
    requires ':' !in name && ':' !in value
    ensures AltitudeField(Some(Join(parts, ','))) == Ok(value)
  {
    JoinSplit(parts, ',');
    SplitOnAt(name, ": ", value);
    SplitOnNone(value, ": ");
  }

  /** The altitude read from the description (MMExport.py:747-757): the
      `descriptio` attribute first, then `Descriptio`; when both fail, the
      recovery path names `traceback`, which is not imported, and so raises
      NameError. */
  function DescribedAltitude(f: Feature): (r: Result<string>)
    ensures AltitudeField(f.descriptio).Ok? ==> r == AltitudeField(f.descriptio)
    ensures AltitudeField(f.descriptio).Err? ==> r == (if AltitudeField(f.capDescriptio).Ok? then AltitudeField(f.capDescriptio) else Err(NameError))
  {
    match AltitudeField(f.descriptio)
    case Ok(a) => Ok(a)
    case Err(_) =>
      match AltitudeField(f.capDescriptio)
      case Ok(a) => Ok(a)
      case Err(_) => Err(NameError)
  }

  /** The model's location (MMExport.py:735-762): the directive's longitude and
      latitude, falling back to the point's own coordinates when unset, and
      its altitude when set, where the text "altitude" asks for the altitude
      recorded in the description. */
  function ModelLocation(f: Feature, d: map<string, Value>): (r: Result<Location>)
    ensures r.Ok? ==> "longitude" in d && "latitude" in d && "altitude" in d
    ensures r.Ok? ==> r.value.longitude == (if Truthy(d["longitude"]) then d["longitude"] else VNum(f.x))
    ensures r.Ok? ==> r.value.latitude == (if Truthy(d["latitude"]) then d["latitude"] else VNum(f.y))
    ensures r.Ok? ==> (r.value.altitude.Some? <==> Truthy(d["altitude"]))
    ensures r.Ok? && Truthy(d["altitude"]) && d["altitude"] != VStr("altitude") ==> r.value.altitude == Some(d["altitude"])
    ensures r.Ok? && d["altitude"] == VStr("altitude") ==> DescribedAltitude(f).Ok? && r.value.altitude == Some(VStr(DescribedAltitude(f).value))
    ensures "longitude" in d && "latitude" in d && "altitude" in d && d["altitude"] == VStr("altitude") && DescribedAltitude(f).Err? ==> r == Err(NameError)
  {
    var lon :- Get(d, "longitude");
    var lat :- Get(d, "latitude");
    var alt :- Get(d, "altitude");
    var altitude :-
      if !Truthy(alt) then Ok(None)
      else if alt == VStr("altitude") then (var a :- DescribedAltitude(f); Ok(Some(VStr(a))))
      else Ok(Some(alt));
    Ok(Location(if Truthy(lon) then lon else VNum(f.x), if Truthy(lat) then lat else VNum(f.y), altitude))
  }

  /** The model's scale (MMExport.py:768-771): the same factor on all three axes. */
  function ScaleOf(d: map<string, Value>): (r: Result<Option<Scale>>)
    ensures r.Ok? <==> "scale" in d
    ensures r.Ok? ==> (r.value.Some? <==> Truthy(d["scale"]))
    ensures r.Ok? && r.value.Some? ==> r.value.value.x == r.value.value.y == r.value.value.z == d["scale"]
  {
    var s :- IfSet(d, "scale");
    Ok(if s.Some? then Some(Scale(s.value, s.value, s.value)) else None)
  }

  /** The model of one point (MMExport.py:709-771): only a point with a model
      directive gets one; a link places it, relative to the ground when an
      altitude is given, and stamps it with the point's datetime. */
  function ModelOf(f: Feature, stamp: DateTime): (r: Result<Option<ModelMark>>)
    requires Valid(stamp)
    ensures !Truthy(f.modelText) ==> r == Ok(None)
    ensures r.Ok? && Truthy(f.modelText) ==> r.value.Some?
  {
    if !Truthy(f.modelText) then Ok(None)
    else
      var title :- ModelTitle(stamp);
      var d :- f.model;
      var link :- Get(d, "link");
      if Truthy(link) then
        var loc :- ModelLocation(f, d);
        var scale :- ScaleOf(d);
        Ok(Some(ModelMark(title, Some(link), Some(loc), loc.altitude.Some?, Some(Moment(stamp, 0.0)), scale)))
      else
        var scale :- ScaleOf(d);
        Ok(Some(ModelMark(title, None, None, false, None, scale)))
  }

  /** What a point's model holds: its title, its link, where it sits and how
      it is scaled. */
  lemma ModelDescribed(f: Feature, stamp: DateTime)
    requires Valid(stamp)
    requires ModelOf(f, stamp).Ok? && ModelOf(f, stamp).value.Some?
    ensures var m := ModelOf(f, stamp).value.value;
      && ModelTitle(stamp) == Ok(m.title)
      && f.model.Ok? && "link" in f.model.value
      && (m.link.Some? <==> Truthy(f.model.value["link"]))
      && (m.location.Some? <==> m.link.Some?) && (m.when.Some? <==> m.link.Some?)
      && (m.link.Some? ==> m.link.value == f.model.value["link"]
                            && ModelLocation(f, f.model.value) == Ok(m.location.value)
                            && (m.relativeToGround <==> m.location.value.altitude.Some?)
                            && m.when == Some(Moment(stamp, 0.0)))
      && (m.link.None? ==> !m.relativeToGround)
      && ScaleOf(f.model.value) == Ok(m.scale)
  {
  }

  /** The "Models" folder after the first `n` points. */
  function Models(features: seq<Feature>, stamps: seq<DateTime>, n: nat): Result<seq<ModelMark>>
    requires n <= |features| && n <= |stamps|
    requires forall k :: 0 <= k < |stamps| ==> Valid(stamps[k])
  {
    if n == 0 then Ok([])
    else
      match Models(features, stamps, n - 1)
      case Err(e) => Err(e)
      case Ok(before) =>
        match ModelOf(features[n - 1], stamps[n - 1])
        case Err(e) => Err(e)
        case Ok(m) => Ok(if m.Some? then before + [m.value] else before)
  }

  lemma {:induction false} ModelsFailed(features: seq<Feature>, stamps: seq<DateTime>, n: nat, m: nat)
    requires n <= m <= |features| && m <= |stamps|
    requires forall k :: 0 <= k < |stamps| ==> Valid(stamps[k])
    requires Models(features, stamps, n).Err?
    ensures Models(features, stamps, m) == Models(features, stamps, n)
    decreases m
  {
    if m > n {
      ModelsFailed(features, stamps, n, m - 1);
    }
  }

  /** One more point either ends the pass with its error or extends it. */
  lemma ModelsNext(features: seq<Feature>, stamps: seq<DateTime>, n: nat)
    requires n < |features| <= |stamps|
    requires forall k :: 0 <= k < |stamps| ==> Valid(stamps[k])
    requires Models(features, stamps, n).Ok?
    ensures var m := ModelOf(features[n], stamps[n]);
      && (m.Err? ==> Models(features, stamps, |features|) == Err(m.error))
      && (m.Ok? && m.value.Some? ==> Models(features, stamps, n + 1) == Ok(Models(features, stamps, n).value + [m.value.value]))
      && (m.Ok? && m.value.None? ==> Models(features, stamps, n + 1) == Models(features, stamps, n))
  {
    if ModelOf(features[n], stamps[n]).Err? {
      ModelsFailed(features, stamps, n + 1, |features|);
    }
  }

  /** The models pass (MMExport.py:700-773). */
  method ModelsPass(features: seq<Feature>, stamps: seq<DateTime>) returns (r: Result<seq<ModelMark>>)
    requires |stamps| == |features|
    requires forall k :: 0 <= k < |stamps| ==> Valid(stamps[k])
    ensures r == Models(features, stamps, |features|)
  {
    var mfolder: seq<ModelMark> := [];
    var cc := 0;
    while cc < |features|
      invariant cc <= |features|
      invariant Models(features, stamps, cc) == Ok(mfolder)
    {
      ModelsNext(features, stamps, cc);
      var m := ModelOf(features[cc], stamps[cc]);
      if m.Err? {
        return Err(m.error);
      }
      if m.value.Some? {
        mfolder := mfolder + [m.value.value];
      }
      cc := cc + 1;
    }
    return Ok(mfolder);
  }

  /** How many of the first `n` points carry a model directive. */
  function Modelled(features: seq<Feature>, n: nat): nat
    requires n <= |features|
  {
    if n == 0 then 0 else Modelled(features, n - 1) + (if Truthy(features[n - 1].modelText) then 1 else 0)
  }

  /** One model per point with a model directive, each scaled uniformly. */
  lemma {:induction false} ModelsCounted(features: seq<Feature>, stamps: seq<DateTime>, n: nat)
    requires n <= |features| && n <= |stamps|
    requires forall k :: 0 <= k < |stamps| ==> Valid(stamps[k])
    requires Models(features, stamps, n).Ok?
    ensures var ms := Models(features, stamps, n).value;
      && |ms| == Modelled(features, n)
      && forall k :: 0 <= k < |ms| && ms[k].scale.Some? ==> ms[k].scale.value.x == ms[k].scale.value.y == ms[k].scale.value.z
  {
    if n > 0 {
      ModelsCounted(features, stamps, n - 1);
      var m := ModelOf(features[n - 1], stamps[n - 1]);
      if m.value.Some? {
        ModelDescribed(features[n - 1], stamps[n - 1]);
      }
    }
  }

  // ---------------------------------------------------------------- output

  datatype Format = KmlFile | KmzFile | GpxFile | Shapefile | GeoJsonFile | CsvFile

  /** The format an extension selects; any other extension writes nothing. */
  function FormatNamed(ext: string): (r: Option<Format>)
    ensures r.Some? <==> ext == "kml" || ext == "kmz" || ext == "gpx" || ext == "shp" || ext == "geojson" || ext == "csv"
  {
    if ext == "kml" then Some(KmlFile)
    else if ext == "kmz" then Some(KmzFile)
    else if ext == "gpx" then Some(GpxFile)
    else if ext == "shp" then Some(Shapefile)
    else if ext == "geojson" then Some(GeoJsonFile)
    else if ext == "csv" then Some(CsvFile)
    else None
  }

  /** The output dispatch as written (MMExport.py:779-799): the text between
      the first and the second dot of the path names the format; an empty
      path writes nothing and a path without a dot raises IndexError. */
  function OutputFormatAsWritten(path: string): (r: Result<Option<Format>>)
    ensures path == "" ==> r == Ok(None)
  {
    if path == "" then Ok(None)
    else
      var parts := Split(path, '.');
      if |parts| < 2 then Err(IndexError) else Ok(FormatNamed(parts[1]))
  }

  /** A path without any dot raises IndexError, as written and as intended. */
  lemma OutputFormatNoDot(path: string)
    requires path != "" && '.' !in path
    ensures OutputFormatAsWritten(path) == Err(IndexError)
    ensures OutputFormat(path) == Err(IndexError)
  {
    SplitNone(path, '.');
  }

  /** A path of a single dot is read by its extension. */
  lemma OutputFormatAsWrittenOneDot(stem: string, ext: string)
    requires '.' !in stem && '.' !in ext
    ensures OutputFormatAsWritten(stem + "." + ext) == Ok(FormatNamed(ext))
  {
    SplitAt(stem, '.', ext);
    SplitNone(ext, '.');
  }

  /** A dot in a folder name takes the place of the extension: the file is
      not written. */
  lemma OutputFormatAsWrittenDottedFolder(dir: string, rest: string, ext: string)
    requires '.' !in dir
    ensures OutputFormatAsWritten(dir + "." + rest + "." + ext) == Ok(FormatNamed(Split(rest + "." + ext, '.')[0]))
  {
    assert dir + "." + rest + "." + ext == dir + ['.'] + (rest + "." + ext);
    SplitAt(dir, '.', rest + "." + ext);
  }

  lemma OutputFormatAsWrittenExample()
    ensures OutputFormatAsWritten("v1.2/walk.kml") == Ok(None)
    ensures OutputFormat("v1.2/walk.kml") == Ok(Some(KmlFile))
  {
    var dir, rest, ext := "v1", "2/walk", "kml";
    assert '.' !in dir && '.' !in rest && '.' !in ext by {
      assert dir == ['v', '1'] && rest == ['2', '/', 'w', 'a', 'l', 'k'] && ext == ['k', 'm', 'l'];
    }
    assert dir + "." + rest + "." + ext == "v1.2/walk.kml";
    OutputFormatAsWrittenDottedFolder(dir, rest, ext);
    SplitAt(rest, '.', ext);
    assert FormatNamed(rest) == None;
    OutputFormatIsExtension(dir + "." + rest, ext);
    assert dir + "." + rest + "." + ext == (dir + "." + rest) + "." + ext;
  }

  /** The output dispatch as intended: the text after the last dot names
      the format. */
  function OutputFormat(path: string): (r: Result<Option<Format>>)
    ensures path == "" ==> r == Ok(None)
  {
    if path == "" then Ok(None)
    else
      var parts := Split(path, '.');
      if |parts| < 2 then Err(IndexError) else Ok(FormatNamed(parts[|parts| - 1]))
  }

  /** Whatever the folders are called, the extension decides. */
  lemma OutputFormatIsExtension(stem: string, ext: string)
    requires '.' !in ext
    ensures OutputFormat(stem + "." + ext) == Ok(FormatNamed(ext))
  {
    SplitLast(stem, '.', ext);
  }
}
