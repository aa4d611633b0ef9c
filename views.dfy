/** What one point contributes to the tour: the altitude-mode mappings, the
    FlyTo duration rule, the camera placement mode, the camera heading rule,
    and the custom (non-orbit) look-at FlyTo (MMExport.py:246-274, 338-481,
    505-626). Projections, trigonometry and `sqrt` stay symbolic: a placement
    records the inputs the foreign geodesy code would receive. */
module Views {
  import opened Values
  import opened Text
  import opened Utm
  import opened Timestamps

  /** The `simplekml.AltitudeMode` values the export writes. */
  datatype AltitudeMode = Absolute | ClampToGround | RelativeToGround

  /** The `simplekml.GxAltitudeMode` values the export writes. */
  datatype GxAltitudeMode = ClampToSeaFloor | RelativeToSeaFloor

  /** A KML time: `base` plus `after` seconds. */
  datatype Moment = Moment(base: DateTime, after: real)

  /** Where a camera is put. */
  datatype Placement =
    | Unplaced                                       // longitude or latitude not set
    | Copied(rawLongitude: Value, rawLatitude: Value)  // the directive's own values
    | Offset(longitude: real, latitude: real, zone: int, band: char,
             east: Option<real>, north: Option<real>)  // shifted in UTM metres
    | Behind(longitude: real, latitude: real, zone: int, band: char,
             bearing: real, legSquared: real)       // backed off along a bearing

  datatype Camera = Camera(
    place: Placement, altitude: Option<Value>, altitudeMode: Option<AltitudeMode>,
    gxAltitudeMode: Option<GxAltitudeMode>, gxHoriz: Option<Value>,
    heading: Option<Value>, roll: Option<Value>, tilt: Option<Value>,
    begin: Moment, end: Moment)

  datatype LookAt = LookAt(
    longitude: Value, latitude: Value, altitude: Value,
    altitudeMode: Option<AltitudeMode>, gxAltitudeMode: Option<Value>,
    heading: Value, tilt: Value, range: Value, begin: Moment, end: Moment)

  datatype View = CameraView(camera: Camera) | LookAtView(lookAt: LookAt)

  /** Which branch of the export made a FlyTo. */
  datatype Origin = FromCamera | FromLookAt | FromOrbit

  /** A `gx:FlyTo` of the playlist, with the index of the point it came from. */
  datatype FlyTo = FlyTo(duration: Option<real>, mode: Option<Value>, view: View,
                         source: nat, origin: Origin)

  /** The key is present and its value truthy. */
  predicate On(d: map<string, Value>, k: string) {
    k in d && Truthy(d[k])
  }

  /** The chains of `if altitudemode == ...` tests: the two relative modes the
      editor offers are written as relativeToGround; anything else sets
      nothing. */
  function AltitudeModeOf(v: Value): (r: Option<AltitudeMode>)
    ensures r == Some(Absolute) <==> v == VStr("absolute")
    ensures r == Some(ClampToGround) <==> v == VStr("clampToGround")
    ensures r == Some(RelativeToGround) <==>
      v == VStr("relativeToGround") || v == VStr("relativeToPoint") || v == VStr("relativeToModel")
  {
    if v == VStr("absolute") then Some(Absolute)
    else if v == VStr("clampToGround") then Some(ClampToGround)
    else if v == VStr("relativeToGround") || v == VStr("relativeToPoint") || v == VStr("relativeToModel") then
      Some(RelativeToGround)
    else None
  }

  function GxAltitudeModeOf(v: Value): (r: Option<GxAltitudeMode>)
    ensures r == Some(ClampToSeaFloor) <==> v == VStr("clampToSeaFloor")
    ensures r == Some(RelativeToSeaFloor) <==> v == VStr("relativeToSeaFloor")
  {
    if v == VStr("clampToSeaFloor") then Some(ClampToSeaFloor)
    else if v == VStr("relativeToSeaFloor") then Some(RelativeToSeaFloor)
    else None
  }

  /** The altitude mode is never anything the editor did not name. */
  lemma AltitudeModeKnown(v: Value)
    ensures AltitudeModeOf(v).Some? <==> v in KnownAltitudeModes
  {
  }

  const KnownAltitudeModes: set<Value> := {
    VStr("absolute"), VStr("clampToGround"), VStr("relativeToGround"),
    VStr("relativeToPoint"), VStr("relativeToModel")}

  /** `strftime('%Y-%m-%dT%H:%M:%S.%fZ')`, which Python 2 refuses before 1900. */
  function KmlTime(dt: DateTime): (r: Result<Moment>)
    ensures r.Err? <==> dt.year < 1900
    ensures r.Ok? ==> r.value == Moment(dt, 0.0)
  {
    if dt.year < 1900 then Err(ValueError) else Ok(Moment(dt, 0.0))
  }

  /** `flytodict['flyToMode']`, used only when truthy. */
  function FlyToMode(flyto: map<string, Value>): (r: Result<Option<Value>>)
    ensures r.Ok? <==> "flyToMode" in flyto
    ensures r.Ok? ==> (r.value.Some? <==> Truthy(flyto["flyToMode"]))
    ensures r.Ok? && r.value.Some? ==> r.value.value == flyto["flyToMode"]
  {
    var m :- Get(flyto, "flyToMode");
    Ok(if Truthy(m) then Some(m) else None)
  }

  /** The camera FlyTo's duration in seconds: the flyto directive's own
      duration when truthy, the derived gap to the next point when it is None,
      and no duration otherwise. */
  function CameraDuration(flyto: map<string, Value>, durations: seq<nat>, index: nat): (r: Result<Option<real>>)
    ensures r.Ok? ==> "duration" in flyto
    ensures "duration" in flyto && Truthy(flyto["duration"]) ==>
      (r.Ok? <==> Float(flyto["duration"]).Ok?) && (r.Ok? ==> r.value == Some(Float(flyto["duration"]).value))
    ensures "duration" in flyto && flyto["duration"] == VNone ==>
      r == (if index < |durations| then Ok(Some(durations[index] as real / 1000000.0)) else Err(IndexError))
    ensures "duration" in flyto && !Truthy(flyto["duration"]) && flyto["duration"] != VNone ==> r == Ok(None)
  {
    var d :- Get(flyto, "duration");
    if Truthy(d) then
      var x :- Float(d);
      Ok(Some(x))
    else if d == VNone then
      if index < |durations| then
        Ok(Some(durations[index] as real / 1000000.0))
      else Err(IndexError)
    else Ok(None)
  }

  /** `if cameradict[k]: ... = cameradict[k]`. */
  function IfSet(d: map<string, Value>, k: string): (r: Result<Option<Value>>)
    ensures r.Ok? <==> k in d
    ensures r.Ok? ==> (r.value.Some? <==> Truthy(d[k]))
    ensures r.Ok? && r.value.Some? ==> r.value.value == d[k]
  {
    var v :- Get(d, k);
    Ok(if Truthy(v) then Some(v) else None)
  }

  /** `if cameradict[k]: ... = float(cameradict[k])`. */
  function IfSetFloat(d: map<string, Value>, k: string): (r: Result<Option<real>>)
    ensures r.Ok? ==> k in d
    ensures r.Ok? ==> (r.value.Some? <==> Truthy(d[k]))
    ensures r.Ok? && r.value.Some? ==> Float(d[k]) == Ok(r.value.value)
  {
    var v :- Get(d, k);
    if Truthy(v) then
      var x :- Float(v);
      Ok(Some(x))
    else Ok(None)
  }

  /** The altitude the range is measured from: relative to the model's
      altitude when the camera's mode is relativeToModel. */
  function CameraAltitude(cam: map<string, Value>, model: Result<map<string, Value>>): (r: Result<real>)
    requires "altitude" in cam
  {
    var mode :- Get(cam, "altitudemode");
    if mode == VStr("relativeToModel") then
      var m :- model;
      var own :- Float(cam["altitude"]);
      var base :- Get(m, "altitude");
      var b :- Float(base);
      Ok(own - b)
    else Float(cam["altitude"])
  }

  /** Offset placement: the point moved east and north by the set offsets, in
      the UTM zone the resolver picks for it. */
  function PlaceOffset(cam: map<string, Value>): (r: Result<Placement>)
    requires "longitude" in cam && "latitude" in cam
    ensures r.Ok? ==> r.value.Offset?
    ensures r.Ok? ==>
      && Float(cam["longitude"]) == Ok(r.value.longitude) && Float(cam["latitude"]) == Ok(r.value.latitude)
      && Resolve(r.value.latitude, r.value.longitude) == Ok((r.value.zone, r.value.band))
      && (r.value.east.Some? <==> On(cam, "longitude_off"))
      && (r.value.north.Some? <==> On(cam, "latitude_off"))
  {
    var lon :- Float(cam["longitude"]);
    var lat :- Float(cam["latitude"]);
    var zb :- Resolve(lat, lon);
    var east :- IfSetFloat(cam, "longitude_off");
    var north :- IfSetFloat(cam, "latitude_off");
    Ok(Offset(lon, lat, zb.0, zb.1, east, north))
  }

  /** Range-and-heading placement: the camera backed off from the point along
      the heading turned by the follow angle (half a turn when none is set),
      by the horizontal leg of the range at the camera's altitude. Also
      returns the follow angle this assigns. */
  function PlaceBehind(cam: map<string, Value>, model: Result<map<string, Value>>): (r: Result<(Placement, real)>)
    requires "longitude" in cam && "latitude" in cam && "heading" in cam && "altitude" in cam && "range" in cam
    ensures r.Ok? ==> r.value.0.Behind?
    ensures r.Ok? ==>
      && Float(cam["longitude"]) == Ok(r.value.0.longitude) && Float(cam["latitude"]) == Ok(r.value.0.latitude)
      && Resolve(r.value.0.latitude, r.value.0.longitude) == Ok((r.value.0.zone, r.value.0.band))
      && r.value.0.legSquared >= 0.0 && 0.0 <= r.value.0.bearing < 360.0
      && (On(cam, "follow_angle") ==> Float(cam["follow_angle"]) == Ok(r.value.1))
      && (!On(cam, "follow_angle") ==> r.value.1 == 180.0)
      && Float(cam["heading"]).Ok?
      && r.value.0.bearing == Mod360(Float(cam["heading"]).value + r.value.1)
  {
    var lon :- Float(cam["longitude"]);
    var lat :- Float(cam["latitude"]);
    var zb :- Resolve(lat, lon);
    var angle :- IfSetFloat(cam, "follow_angle");
    var follows := if angle.Some? then angle.value else 180.0;
    var heading :- Float(cam["heading"]);
    var bearing := Mod360(heading + follows);
    var altitude :- CameraAltitude(cam, model);
    var range :- Float(cam["range"]);
    var leg := range * range - altitude * altitude;
    if leg < 0.0 then Err(MathDomain)
    else Ok((Behind(lon, lat, zb.0, zb.1, bearing, leg), follows))
  }

  /** The camera placement of MMExport.py:351-421 (and 514-582): nothing unless
      longitude and latitude are set; then an offset wins over range-and-heading
      placement, which wins over copying the position. The second component is
      the `follow_angle` variable (in degrees) after the point: only the
      range-and-heading branch assigns it. */
  function Place(cam: map<string, Value>, model: Result<map<string, Value>>, follow: Option<real>)
    : (r: Result<(Placement, Option<real>)>)
    ensures r.Ok? ==> (r.value.0.Unplaced? <==> !(On(cam, "longitude") && On(cam, "latitude")))
    ensures r.Ok? && !r.value.0.Unplaced? ==> PlaceLocated(cam, model, follow) == r
    ensures r.Ok? && r.value.0.Unplaced? ==> r.value.1 == follow
  {
    var located :- AllTruthy(cam, ["longitude", "latitude"]);
    if !located then Ok((Unplaced, follow))
    else PlaceLocated(cam, model, follow)
  }

  /** Placement once longitude and latitude are known to be set. */
  function PlaceLocated(cam: map<string, Value>, model: Result<map<string, Value>>, follow: Option<real>)
    : (r: Result<(Placement, Option<real>)>)
    requires On(cam, "longitude") && On(cam, "latitude")
    ensures r.Ok? ==> !r.value.0.Unplaced?
    ensures r.Ok? ==> (r.value.0.Offset? <==> On(cam, "longitude_off") || On(cam, "latitude_off"))
    ensures r.Ok? ==> (r.value.0.Behind? <==>
      && !On(cam, "longitude_off") && !On(cam, "latitude_off")
      && On(cam, "range") && On(cam, "heading") && On(cam, "altitude"))
    ensures r.Ok? && r.value.0.Copied? ==> r.value.0 == Copied(cam["longitude"], cam["latitude"])
    ensures r.Ok? && r.value.0.Offset? ==> PlaceOffset(cam) == Ok(r.value.0)
    ensures r.Ok? && r.value.0.Behind? ==> r.value.1.Some? && PlaceBehind(cam, model) == Ok((r.value.0, r.value.1.value))
    ensures r.Ok? && !r.value.0.Behind? ==> r.value.1 == follow
  {
    var shifted :- AnyTruthy(cam, ["longitude_off", "latitude_off"]);
    if shifted then
      var p :- PlaceOffset(cam);
      Ok((p, follow))
    else
      var behind :- AllTruthy(cam, ["range", "heading", "altitude"]);
      if behind then
        var pb :- PlaceBehind(cam, model);
        Ok((pb.0, Some(pb.1)))
      else Ok((Copied(cam["longitude"], cam["latitude"]), follow))
  }

  /** The placement does not depend on the `follow_angle` left by earlier
      points, and neither does the angle afterwards when the camera is
      placed behind the point. */
  lemma PlaceIgnoresFollow(cam: map<string, Value>, model: Result<map<string, Value>>, a: Option<real>, b: Option<real>)
    ensures Place(cam, model, a).Ok? == Place(cam, model, b).Ok?
    ensures Place(cam, model, a).Ok? ==> Place(cam, model, a).value.0 == Place(cam, model, b).value.0
    ensures Place(cam, model, a).Ok? && Place(cam, model, a).value.0.Behind? ==>
      Place(cam, model, a).value.1 == Place(cam, model, b).value.1
  {
  }

  /** Without a follow angle of its own, the heading does not depend on the
      `follow_angle` variable. */
  lemma HeadingIgnoresFollow(cam: map<string, Value>, a: Option<real>, b: Option<real>, first: bool)
    requires !On(cam, "follow_angle")
    ensures CameraHeading(cam, a, first) == CameraHeading(cam, b, first)
  {
  }

  /** The camera heading of MMExport.py:457-465 (and 603-611): with a follow
      angle the camera turns to face back along it (plus an optional extra
      offset), otherwise it keeps the directive's heading, converted with
      `float` except on the tour's first camera. The follow angle used is the
      `follow_angle` variable, which may be left over from an earlier point or
      never bound at all. */
  function CameraHeading(cam: map<string, Value>, follow: Option<real>, first: bool): (r: Result<Option<Value>>)
    ensures r.Ok? ==> (r.value.None? <==> !On(cam, "heading"))
    ensures On(cam, "heading") && On(cam, "follow_angle") && follow.None? ==> r.Err?
    ensures r.Ok? && On(cam, "heading") && On(cam, "follow_angle") ==>
      && follow.Some? && r.value.value.VNum? && 0.0 <= r.value.value.num <= 360.0
      && Float(cam["heading"]).Ok?
      && (!On(cam, "hoffset") ==> r.value.value.num == Mod360(Float(cam["heading"]).value + follow.value + 180.0))
      && (On(cam, "hoffset") ==>
            && Float(cam["hoffset"]).Ok?
            && r.value.value.num == Round1(Mod360(Float(cam["heading"]).value + follow.value + 180.0 + Float(cam["hoffset"]).value)))
    ensures r.Ok? && On(cam, "heading") && !On(cam, "follow_angle") ==>
      (if first then r.value.value == cam["heading"]
       else Float(cam["heading"]).Ok? && r.value.value == VNum(Float(cam["heading"]).value))
  {
    var set_ :- TruthyAt(cam, "heading");
    if !set_ then Ok(None)
    else
      var follows :- TruthyAt(cam, "follow_angle");
      if follows then
        var h :- Float(cam["heading"]);
        if follow.None? then Err(NameError)
        else
          var newhead := Mod360(h + follow.value + 180.0);
          var extra :- IfSetFloat(cam, "hoffset");
          if extra.Some? then
            Mod360Shift(h + follow.value + 180.0, extra.value);
            Ok(Some(VNum(Round1(Mod360(newhead + extra.value)))))
          else Ok(Some(VNum(newhead)))
      else if first then Ok(Some(cam["heading"]))
      else
        var h :- Float(cam["heading"]);
        Ok(Some(VNum(h)))
  }

  /** A camera placed behind the point with a follow angle looks straight back
      at it: its heading is the bearing it was placed along, turned half a
      circle. */
  lemma CameraFacesPoint(cam: map<string, Value>, model: Result<map<string, Value>>, first: bool)
    requires "longitude" in cam && "latitude" in cam && "heading" in cam && "altitude" in cam && "range" in cam
    requires PlaceBehind(cam, model).Ok?
    requires On(cam, "heading") && On(cam, "follow_angle") && !On(cam, "hoffset")
    requires CameraHeading(cam, Some(PlaceBehind(cam, model).value.1), first).Ok?
    ensures var p := PlaceBehind(cam, model).value;
      CameraHeading(cam, Some(p.1), first).value == Some(VNum(Mod360(p.0.bearing + 180.0)))
  {
    var p := PlaceBehind(cam, model).value;
    var h := Float(cam["heading"]).value;
    Mod360Shift(h + p.1, 180.0);
  }

  /** `if d[k]: ... = d[k]`: the setting is present exactly when the entry
      is truthy, and is then the entry itself. */
  predicate Copies(d: map<string, Value>, k: string, v: Option<Value>) {
    k in d && (v.Some? <==> Truthy(d[k])) && (v.Some? ==> v.value == d[k])
  }

  /** `if d[k]: ... = float(d[k])`: present exactly when the entry is
      truthy, and is then its `float`. */
  predicate Converts(d: map<string, Value>, k: string, v: Option<Value>) {
    k in d && (v.Some? <==> Truthy(d[k])) && (v.Some? ==> Float(d[k]).Ok? && v.value == VNum(Float(d[k]).value))
  }

  /** The settings a camera copies from its directive: altitude and
      gx:horizon when set, the altitude modes the editor names, and roll and
      tilt when set, taken as given on the tour's first camera and through
      `float` on every later one. */
  predicate CameraSettings(cam: map<string, Value>, first: bool, c: Camera) {
    && Copies(cam, "altitude", c.altitude) && Copies(cam, "gxhoriz", c.gxHoriz)
    && "altitudemode" in cam && c.altitudeMode == AltitudeModeOf(cam["altitudemode"])
    && "gxaltitudemode" in cam && c.gxAltitudeMode == GxAltitudeModeOf(cam["gxaltitudemode"])
    && (if first then Copies(cam, "roll", c.roll) && Copies(cam, "tilt", c.tilt)
        else Converts(cam, "roll", c.roll) && Converts(cam, "tilt", c.tilt))
  }

  /** The camera FlyTo of MMExport.py:335-626, filled in setter by setter:
      the duration and mode, the placement, the altitude options, the heading,
      then roll and tilt (converted with `float` except on the tour's first
      camera). The second result is the `follow_angle` variable afterwards. */
  method CameraFlyTo(cam: map<string, Value>, flyto: map<string, Value>, durations: seq<nat>,
                     index: nat, model: Result<map<string, Value>>, follow: Option<real>,
                     first: bool, begin: Moment, end: Moment) returns (r: Result<(FlyTo, Option<real>)>)
    ensures r.Ok? ==> r.value.0.source == index && r.value.0.origin == FromCamera && r.value.0.view.CameraView?
    ensures r.Ok? ==> CameraDuration(flyto, durations, index) == Ok(r.value.0.duration)
    ensures r.Ok? ==> FlyToMode(flyto) == Ok(r.value.0.mode)
    ensures r.Ok? ==> CameraSettings(cam, first, r.value.0.view.camera)
    ensures r.Ok? ==> Place(cam, model, follow).Ok? && r.value.0.view.camera.place == Place(cam, model, follow).value.0
    ensures r.Ok? ==> r.value.1 == Place(cam, model, follow).value.1
    ensures r.Ok? ==> CameraHeading(cam, r.value.1, first) == Ok(r.value.0.view.camera.heading)
    ensures r.Ok? ==> r.value.0.view.camera.begin == begin && r.value.0.view.camera.end == end
  {
    var duration :- CameraDuration(flyto, durations, index);
    var mode :- FlyToMode(flyto);
    var placed :- Place(cam, model, follow);
    var camera :- CameraSetters(cam, placed, first, begin, end);
    return Ok((FlyTo(duration, mode, CameraView(camera), index, FromCamera), placed.1));
  }

  /** The setters of MMExport.py:335-626 that follow the placement, in their
      order: altitude, the altitude modes, gx:horizon, the heading, roll and
      tilt. */
  method CameraSetters(cam: map<string, Value>, placed: (Placement, Option<real>), first: bool,
                       begin: Moment, end: Moment) returns (r: Result<Camera>)
    ensures r.Ok? ==> CameraSettings(cam, first, r.value)
    ensures r.Ok? ==> r.value.place == placed.0
    ensures r.Ok? ==> CameraHeading(cam, placed.1, first) == Ok(r.value.heading)
    ensures r.Ok? ==> r.value.begin == begin && r.value.end == end
  {
    var altitude :- IfSet(cam, "altitude");
    var am :- IfSet(cam, "altitudemode");
    var gx :- IfSet(cam, "gxaltitudemode");
    var horiz :- IfSet(cam, "gxhoriz");
    var heading :- CameraHeading(cam, placed.1, first);
    var roll :- if first then IfSet(cam, "roll") else FloatValue(cam, "roll");
    var tilt :- if first then IfSet(cam, "tilt") else FloatValue(cam, "tilt");
    return Ok(Camera(placed.0, altitude,
                     if am.Some? then AltitudeModeOf(am.value) else None,
                     if gx.Some? then GxAltitudeModeOf(gx.value) else None,
                     horiz, heading, roll, tilt, begin, end));
  }

  /** `if d[k]: ... = float(d[k])`, kept as a directive value. */
  function FloatValue(d: map<string, Value>, k: string): (r: Result<Option<Value>>)
    ensures r.Ok? ==> (r.value.Some? <==> On(d, k))
    ensures r.Ok? && r.value.Some? ==> r.value.value.VNum? && Float(d[k]) == Ok(r.value.value.num)
  {
    var x :- IfSetFloat(d, k);
    Ok(if x.Some? then Some(VNum(x.value)) else None)
  }

  /** The custom (non-orbit) look-at FlyTo of MMExport.py:246-274: made only
      when all six view fields are set; its duration comes from the flyto
      directive alone, never from the derived gaps. */
  function LookAtFlyTo(look: map<string, Value>, flyto: map<string, Value>, index: nat,
                       begin: Moment, end: Moment): (r: Result<Option<FlyTo>>)
    ensures r.Ok? ==> (r.value.Some? <==>
      forall k :: k in ViewFields ==> On(look, k))
    ensures r.Ok? && r.value.Some? ==>
      && r.value.value.source == index && r.value.value.origin == FromLookAt
      && "duration" in flyto
      && (r.value.value.duration.Some? <==> Truthy(flyto["duration"]))
      && (r.value.value.duration.Some? ==> Float(flyto["duration"]) == Ok(r.value.value.duration.value))
      && FlyToMode(flyto) == Ok(r.value.value.mode)
      && r.value.value.view.LookAtView?
      && r.value.value.view.lookAt.longitude == look["longitude"]
      && r.value.value.view.lookAt.latitude == look["latitude"]
      && r.value.value.view.lookAt.altitude == look["altitude"]
      && r.value.value.view.lookAt.heading == look["heading"]
      && r.value.value.view.lookAt.tilt == look["tilt"]
      && r.value.value.view.lookAt.range == look["range"]
      && "altitudemode" in look
      && r.value.value.view.lookAt.altitudeMode == AltitudeModeOf(look["altitudemode"])
      && IfSet(look, "gxaltitudemode") == Ok(r.value.value.view.lookAt.gxAltitudeMode)
      && r.value.value.view.lookAt.begin == begin && r.value.value.view.lookAt.end == end
  {
    var complete :- AllTruthy(look, ["longitude", "latitude", "altitude", "heading", "tilt", "range"]);
    if !complete then Ok(None)
    else
      var duration :- IfSetFloat(flyto, "duration");
      var mode :- FlyToMode(flyto);
      var am :- Get(look, "altitudemode");
      var gx :- IfSet(look, "gxaltitudemode");
      var view := LookAt(look["longitude"], look["latitude"], look["altitude"], AltitudeModeOf(am), gx,
                         look["heading"], look["tilt"], look["range"], begin, end);
      Ok(Some(FlyTo(duration, mode, LookAtView(view), index, FromLookAt)))
  }

  const ViewFields: set<string> := {"longitude", "latitude", "altitude", "heading", "tilt", "range"}
}
