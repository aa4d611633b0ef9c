/** The tour pass of `exportToFile` (MMExport.py:117-631): one walk over the
    points, threading the counter `cc`, the playlist, the tour start time
    `camStartTime`, the last FlyTo made and the `follow_angle` variable from
    point to point. The first qualifying point opens the one tour; each
    look-at point adds its orbit or custom FlyTos, each camera point exactly
    one camera FlyTo. */
module Tour {
  import opened Values
  import opened Text
  import opened Timestamps
  import opened Directives
  import opened Views
  import opened Orbit

  /** A point of the layer, with its directive attributes. The `*Codes`,
      `flyto`, `model`, `iconSettings` and `labelSettings` fields stand for what `eval` makes
      of the corresponding attribute text (EvalError when it is not a
      literal); `modelText`, `iconstyle` and `labelstyle` are the raw texts,
      whose truthiness gates the decoration passes. `x` and `y` are the point
      geometry, `description` is `str()` of attribute 1, and `descriptio` /
      `capDescriptio` are the `descriptio` / `Descriptio` attributes (None when
      the field is missing or is not text). */
  datatype Feature = Feature(
    datetime: string,
    lookat: Value, lookatCodes: Result<map<char, Value>>,
    camera: Value, cameraCodes: Result<map<char, Value>>,
    flyto: Result<map<string, Value>>,
    model: Result<map<string, Value>>,
    modelText: Value,
    iconstyle: Value, iconSettings: Result<map<string, Value>>,
    labelstyle: Value, labelSettings: Result<map<string, Value>>,
    x: real, y: real, description: string,
    descriptio: Option<string>, capDescriptio: Option<string>)

  /** An entry of the tour's playlist. */
  datatype Item = Cue(href: Value, delay: Value) | Fly(flyTo: FlyTo)

  /** A document-level view: a fresh default one, or the view of a playlist
      FlyTo. */
  datatype DocView = Blank | ViewOf(item: nat)

  /** The local state `exportToFile` carries from point to point. */
  datatype Run = Run(
    cc: int,
    name: Option<Value>,          // the tour's name, once it exists
    playlist: seq<Item>,
    start: Moment,                // camStartTime
    lastFly: Option<nat>,         // the playlist position of the `flyto` variable
    follow: Option<real>,         // follow_angle, in degrees
    docLookAt: Option<DocView>, lookAtStreetView: bool,
    docCamera: Option<DocView>, cameraStreetView: bool)

  const Fresh: Run := Run(0, None, [], Moment(DateTime(1, 1, 1, 0, 0, 0, 0), 0.0), None, None,
                          None, false, None, false)

  /** The look-at branch runs for a set look-at other than "circlearound". */
  predicate LooksAt(f: Feature) { Truthy(f.lookat) && f.lookat != VStr("circlearound") }

  predicate Films(f: Feature) { Truthy(f.camera) }

  predicate Qualifies(f: Feature) { LooksAt(f) || Films(f) }

  /** The tour is named after the flyto directive's name when it is set. */
  function TourName(v: Value): (n: Value)
    ensures Truthy(n)
    ensures Truthy(v) ==> n == v
  {
    if Truthy(v) then v else VStr("Tour")
  }

  /** The first qualifying point among the first `i`. */
  function FirstQualifying(features: seq<Feature>, i: nat): (r: Option<nat>)
    requires i <= |features|
    ensures r.Some? ==> r.value < i && Qualifies(features[r.value])
    ensures r.Some? ==> forall j :: 0 <= j < r.value ==> !Qualifies(features[j])
    ensures r.None? ==> forall j :: 0 <= j < i ==> !Qualifies(features[j])
  {
    if i == 0 then None
    else
      var p := FirstQualifying(features, i - 1);
      if p.Some? then p
      else if Qualifies(features[i - 1]) then Some(i - 1)
      else None
  }

  /** The tour start: the opening point's time; a camera point opening the
      tour drops its microseconds. */
  function Opening(f: Feature, stamp: DateTime): Moment {
    if LooksAt(f) then Moment(stamp, 0.0) else Moment(stamp.(micro := 0), 0.0)
  }

  function Begin(fl: FlyTo): Moment {
    match fl.view
    case CameraView(c) => c.begin
    case LookAtView(l) => l.begin
  }

  /** How many FlyTos of the playlist came from point `i` by branch `o`. */
  function Count(items: seq<Item>, i: nat, o: Origin): nat {
    if items == [] then 0
    else (if items[0].Fly? && items[0].flyTo.source == i && items[0].flyTo.origin == o then 1 else 0)
         + Count(items[1..], i, o)
  }

  lemma {:induction false} CountAppend(a: seq<Item>, b: seq<Item>, i: nat, o: Origin)
    ensures Count(a + b, i, o) == Count(a, i, o) + Count(b, i, o)
  {
    if a == [] {
      assert a + b == b;
    } else {
      assert (a + b)[0] == a[0];
      assert (a + b)[1..] == a[1..] + b;
      CountAppend(a[1..], b, i, o);
    }
  }

  lemma {:induction false} CountNone(items: seq<Item>, i: nat, o: Origin)
    requires forall k :: 0 <= k < |items| && items[k].Fly? ==> items[k].flyTo.source != i || items[k].flyTo.origin != o
    ensures Count(items, i, o) == 0
  {
    if items != [] {
      CountNone(items[1..], i, o);
    }
  }

  lemma {:induction false} CountAll(items: seq<Item>, i: nat, o: Origin)
    requires forall k :: 0 <= k < |items| ==> items[k].Fly? && items[k].flyTo.source == i && items[k].flyTo.origin == o
    ensures Count(items, i, o) == |items|
  {
    if items != [] {
      CountAll(items[1..], i, o);
    }
  }

  /** The orbit's FlyTos as playlist entries. */
  function Flies(fs: seq<FlyTo>): (items: seq<Item>)
    ensures |items| == |fs|
    ensures forall k :: 0 <= k < |fs| ==> items[k] == Fly(fs[k])
  {
    if fs == [] then [] else [Fly(fs[0])] + Flies(fs[1..])
  }

  /** The look-at and orbit FlyTos among `items` that came from point `j`,
      in order. */
  function LookPart(items: seq<Item>, j: nat): seq<Item> {
    if items == [] then []
    else (if items[0].Fly? && items[0].flyTo.source == j && items[0].flyTo.origin != FromCamera then [items[0]] else [])
         + LookPart(items[1..], j)
  }

  lemma {:induction false} LookPartAppend(a: seq<Item>, b: seq<Item>, j: nat)
    ensures LookPart(a + b, j) == LookPart(a, j) + LookPart(b, j)
  {
    if a == [] {
      assert a + b == b;
    } else {
      assert (a + b)[0] == a[0];
      assert (a + b)[1..] == a[1..] + b;
      LookPartAppend(a[1..], b, j);
    }
  }

  lemma {:induction false} LookPartNone(items: seq<Item>, j: nat)
    requires forall k :: 0 <= k < |items| && items[k].Fly? ==> items[k].flyTo.source != j || items[k].flyTo.origin == FromCamera
    ensures LookPart(items, j) == []
  {
    if items != [] {
      LookPartNone(items[1..], j);
    }
  }

  lemma {:induction false} LookPartAll(items: seq<Item>, j: nat)
    requires forall k :: 0 <= k < |items| ==> items[k].Fly? && items[k].flyTo.source == j && items[k].flyTo.origin != FromCamera
    ensures LookPart(items, j) == items
  {
    if items != [] {
      LookPartAll(items[1..], j);
    }
  }

  /** A directive attribute after `eval` and decoding, when both succeed. */
  ghost function DirectiveOf(codes: Result<map<char, Value>>, kind: Kind): Option<map<string, Value>> {
    if codes.Ok? && codes.value.Keys <= Back(kind).Keys then Some(Decoded(codes.value, kind)) else None
  }

  /** The look-at FlyTos a decoded look-at directive describes, or None
      when making them fails. With both a starting heading and a rotation
      count set, they are the orbit's FlyTos; otherwise they are the custom
      look-at FlyTo, when all six of its view fields are set. */
  function LookAtItems(look: map<string, Value>, fly: map<string, Value>, i: nat, start: Moment,
                       stamp: DateTime, end: Moment): Option<seq<Item>> {
    match AllTruthy(look, ["startheading", "rotations"])
    case Err(_) => None
    case Ok(orbit) =>
      if orbit then OrbitItems(look, fly, i, start, stamp)
      else match LookAtFlyTo(look, fly, i, start, end)
           case Err(_) => None
           case Ok(one) => Some(if one.Some? then [Fly(one.value)] else [])
  }

  /** The orbit's FlyTos: none unless the five view fields are set and the
      rotation count gives at least one circle; None where reading a field,
      the rotation count or the duration raises. */
  function OrbitItems(look: map<string, Value>, fly: map<string, Value>, i: nat, start: Moment,
                      stamp: DateTime): Option<seq<Item>> {
    match AllTruthy(look, OrbitFields)
    case Err(_) => None
    case Ok(inside) =>
      if !inside then Some([])
      else match OrbitPlan(look)
           case Err(_) => None
           case Ok(plan) =>
             if plan.circles < 1 then Some([])
             else match OrbitSetup(look, fly)
                  case Ok(s) => Some(Flies(OrbitSteps(look, s, plan, start, stamp, i)))
                  case Err(_) => None
  }

  /** The look-at FlyTos point `f` owes, timed from `start` to its own time:
      the ones its own look-at directive describes. */
  ghost function LookOwed(f: Feature, i: nat, start: Moment, stamp: DateTime): Option<seq<Item>> {
    match DirectiveOf(f.lookatCodes, LookAtKind)
    case None => None
    case Some(look) =>
      if f.flyto.Ok? && stamp.year >= 1900 then LookAtItems(look, f.flyto.value, i, start, stamp, Moment(stamp, 0.0))
      else None
  }

  /** The look-at FlyTos owed do not depend on how the start and the
      FlyTos are named. */
  lemma LookOwedKept(f: Feature, i: nat, a: Moment, b: Moment, stamp: DateTime, x: seq<Item>, y: seq<Item>)
    requires a == b && x == y && LookOwed(f, i, a, stamp) == Some(x)
    ensures LookOwed(f, i, b, stamp) == Some(y)
  {
  }

  /** The camera FlyTo of a point, given its decoded camera directive: timed
      from the tour start to the point's time, with the flyto directive's
      mode, the directive's placement and settings, and its heading wherever
      the heading does not depend on the follow angle an earlier point left.
      `first` holds when it is the FlyTo that opens the tour. */
  ghost predicate CameraFrom(cam: map<string, Value>, f: Feature, first: bool, stamp: DateTime, start: Moment, fl: FlyTo) {
    && fl.view.CameraView? && f.flyto.Ok?
    && fl.view.camera.begin == start && fl.view.camera.end == Moment(stamp, 0.0)
    && FlyToMode(f.flyto.value) == Ok(fl.mode)
    && CameraSettings(cam, first, fl.view.camera)
    && Place(cam, f.model, None).Ok? && fl.view.camera.place == Place(cam, f.model, None).value.0
    && (fl.view.camera.heading.Some? <==> On(cam, "heading"))
    && (!On(cam, "follow_angle") || fl.view.camera.place.Behind? ==>
          CameraHeading(cam, Place(cam, f.model, None).value.1, first) == Ok(fl.view.camera.heading))
  }

  /** The camera FlyTo point `f` owes, from its own camera directive. */
  ghost predicate CameraOwed(f: Feature, first: bool, stamp: DateTime, start: Moment, fl: FlyTo) {
    DirectiveOf(f.cameraCodes, CameraKind).Some? && CameraFrom(DirectiveOf(f.cameraCodes, CameraKind).value, f, first, stamp, start, fl)
  }

  /** What every FlyTo owes the point it came from: a camera FlyTo follows the
      camera duration rule, a custom look-at FlyTo takes the flyto duration or
      none, and an orbit FlyTo always carries a duration (its equal share of
      the orbit's duration is `Orbit.StepDuration`). */
  ghost predicate OwedTo(f: Feature, durations: seq<nat>, fl: FlyTo) {
    && f.flyto.Ok?
    && var fly := f.flyto.value;
    match fl.origin
    case FromCamera =>
      Films(f) && CameraDuration(fly, durations, fl.source) == Ok(fl.duration)
    case FromLookAt =>
      && LooksAt(f) && "duration" in fly
      && (fl.duration.Some? <==> Truthy(fly["duration"]))
      && (fl.duration.Some? ==> Float(fly["duration"]) == Ok(fl.duration.value))
    case FromOrbit =>
      LooksAt(f) && fl.duration.Some?
  }

  /** Entries made while handling point `i`: FlyTos of that point, owing it
      what they should and timed from the tour start. */
  ghost predicate Made(f: Feature, durations: seq<nat>, i: nat, start: Moment, items: seq<Item>) {
    forall k :: 0 <= k < |items| ==>
      && items[k].Fly? && items[k].flyTo.source == i
      && OwedTo(f, durations, items[k].flyTo) && Begin(items[k].flyTo) == start
  }

  /** The fresh playlist: the sound cue when an audio file is configured. */
  function Cues(href: Value, offset: Value): seq<Item> {
    if Truthy(href) then [Cue(href, offset)] else []
  }

  /** The playlist a point's FlyTos are appended to: a fresh one when the
      point opens the tour. */
  function Base(run: Run, href: Value, offset: Value): seq<Item> {
    if run.cc == 0 then Cues(href, offset) else run.playlist
  }

  /** Opening the tour on its first qualifying point (MMExport.py:142-166,
      309-333): the tour is named after the flyto directive, its start time
      fixed, and the playlist begins with the sound cue. */
  function OpenTour(run: Run, fly: map<string, Value>, stamp: DateTime, href: Value, offset: Value): (r: Result<Run>)
    ensures r.Ok? <==> "name" in fly && stamp.year >= 1900
    ensures r.Ok? ==> r.value.name == Some(TourName(fly["name"])) && Truthy(r.value.name.value)
    ensures r.Ok? ==> r.value.start == Moment(stamp, 0.0) && r.value.playlist == Cues(href, offset)
    ensures r.Ok? ==> r.value.(name := run.name, start := run.start, playlist := run.playlist) == run
  {
    var title :- Get(fly, "name");
    var start :- KmlTime(stamp);
    Ok(run.(name := Some(TourName(title)), start := start, playlist := Cues(href, offset)))
  }

  /** The FlyTos of a look-at point: an orbit when both a starting heading
      and a rotation count are set (MMExport.py:185-243), otherwise the
      custom look-at (MMExport.py:246-274). */
  method LookAtFlyTos(f: Feature, look: map<string, Value>, fly: map<string, Value>, i: nat,
                      start: Moment, stamp: DateTime, end: Moment, durations: seq<nat>)
    returns (r: Result<seq<Item>>)
    requires LooksAt(f) && f.flyto == Ok(fly)
    ensures r.Ok? ==> Made(f, durations, i, start, r.value)
    ensures r.Ok? ==> forall k :: 0 <= k < |r.value| ==> r.value[k].flyTo.origin != FromCamera
    ensures r.Ok? ==> |r.value| <= 1 || (OrbitPlan(look).Ok? && |r.value| == Steps(OrbitPlan(look).value.circles))
    ensures r.Ok? ==> LookAtItems(look, fly, i, start, stamp, end) == Some(r.value)
    ensures AllTruthy(look, ["startheading", "rotations"]).Err? ==> r.Err?
  {
    var orbit :- AllTruthy(look, ["startheading", "rotations"]);
    if orbit {
      var fs :- MakeOrbit(look, fly, i, start, stamp);
      var added := Flies(fs);
      if fs != [] {
        var s, p := OrbitSetup(look, fly).value, OrbitPlan(look).value;
        assert fs == OrbitSteps(look, s, p, start, stamp, i);
        forall k | 0 <= k < |added|
          ensures added[k].Fly? && added[k].flyTo.source == i && added[k].flyTo.origin == FromOrbit
          ensures OwedTo(f, durations, added[k].flyTo) && Begin(added[k].flyTo) == start
        {
          assert added[k] == Fly(OrbitStep(look, s, p, start, stamp, i, k));
        }
        assert OrbitItems(look, fly, i, start, stamp) == Some(added);
      } else {
        assert OrbitItems(look, fly, i, start, stamp) == Some([]);
      }
      return Ok(added);
    } else {
      var one :- LookAtFlyTo(look, fly, i, start, end);
      return Ok(if one.Some? then [Fly(one.value)] else []);
    }
  }

  /** A camera FlyTo that follows the duration rule is what its point owes. */
  lemma CameraMade(f: Feature, durations: seq<nat>, i: nat, start: Moment, fl: FlyTo)
    requires Films(f) && f.flyto.Ok?
    requires fl.source == i && fl.origin == FromCamera && Begin(fl) == start
    requires CameraDuration(f.flyto.value, durations, i) == Ok(fl.duration)
    ensures Made(f, durations, i, start, [Fly(fl)])
  {
  }
  /** A document view points at a FlyTo of the playlist. */
  predicate DocOk(d: Option<DocView>, playlist: seq<Item>) {
    d.Some? && d.value.ViewOf? ==> d.value.item < |playlist| && playlist[d.value.item].Fly?
  }

  /** The shape of the loop state: nothing exists before the tour is opened,
      and every recorded position is a FlyTo of the playlist. */
  predicate Sane(run: Run) {
    && run.cc >= 0
    && (run.cc == 0 <==> run.lastFly.None?)
    && (run.cc == 0 <==> run.name.None?)
    && (run.cc == 0 ==> run.playlist == [] && run.docLookAt.None? && run.docCamera.None?)
    && (run.lastFly.Some? ==> run.lastFly.value < |run.playlist| && run.playlist[run.lastFly.value].Fly?)
    && DocOk(run.docLookAt, run.playlist) && DocOk(run.docCamera, run.playlist)
  }

  /** Appending to the playlist keeps every recorded view valid. */
  lemma DocKept(d: Option<DocView>, p: seq<Item>, extra: seq<Item>)
    requires DocOk(d, p)
    ensures DocOk(d, p + extra)
  {
  }

  /** The `eval` of a directive attribute followed by its decoding
      (MMExport.py:123-124, 292-293): it fails when the text is not a literal
      or holds a letter the table does not know. */
  method Directive(codes: Result<map<char, Value>>, kind: Kind) returns (r: Result<map<string, Value>>)
    ensures r.Ok? <==> codes.Ok? && codes.value.Keys <= Back(kind).Keys
    ensures codes.Err? ==> r == Err(codes.error)
    ensures r.Ok? ==> DirectiveOf(codes, kind) == Some(r.value)
  {
    var c :- codes;
    r := Decode(c, kind);
  }

  /** The look-at branch for one point (MMExport.py:123-283): the decoding of
      the directive, then the rest of the branch. */
  method LookAtPoint(f: Feature, i: nat, stamp: DateTime, durations: seq<nat>, run: Run,
                     href: Value, offset: Value) returns (r: Result<Run>, added: seq<Item>)
    requires LooksAt(f) && Sane(run)
    ensures r.Ok? ==> f.flyto.Ok?
    ensures r.Ok? ==> LookedAt(run, r.value, added, href, offset)
    ensures r.Ok? && run.cc == 0 ==>
      "name" in f.flyto.value && r.value.name == Some(TourName(f.flyto.value["name"]))
      && r.value.start == Moment(stamp, 0.0)
    ensures r.Ok? && run.cc != 0 ==> r.value.name == run.name && r.value.start == run.start
    ensures r.Ok? ==> Made(f, durations, i, r.value.start, added) && Count(added, i, FromCamera) == 0
    ensures r.Ok? ==> LookOwed(f, i, r.value.start, stamp) == Some(added)
    ensures r.Ok? ==> forall k :: 0 <= k < |added| ==> added[k].Fly? && added[k].flyTo.origin != FromCamera
  {
    added := [];
    var look :- Directive(f.lookatCodes, LookAtKind);
    r, added := LookAtWith(f, look, i, stamp, durations, run, href, offset);
  }

  /** The look-at branch once the directive is decoded: opening the tour at
      cc == 0, the FlyTos, and the document look-at at cc == 1. */
  method LookAtWith(f: Feature, look: map<string, Value>, i: nat, stamp: DateTime, durations: seq<nat>, run: Run,
                    href: Value, offset: Value) returns (r: Result<Run>, added: seq<Item>)
    requires LooksAt(f) && Sane(run)
    ensures r.Ok? ==> f.flyto.Ok?
    ensures r.Ok? ==> LookedAt(run, r.value, added, href, offset)
    ensures r.Ok? && run.cc == 0 ==>
      "name" in f.flyto.value && r.value.name == Some(TourName(f.flyto.value["name"]))
      && r.value.start == Moment(stamp, 0.0)
    ensures r.Ok? && run.cc != 0 ==> r.value.name == run.name && r.value.start == run.start
    ensures r.Ok? ==> Made(f, durations, i, r.value.start, added) && Count(added, i, FromCamera) == 0
    ensures r.Ok? ==> stamp.year >= 1900 && LookAtItems(look, f.flyto.value, i, r.value.start, stamp, Moment(stamp, 0.0)) == Some(added)
    ensures r.Ok? ==> forall k :: 0 <= k < |added| ==> added[k].Fly? && added[k].flyTo.origin != FromCamera
  {
    added := [];
    var fly :- f.flyto;
    var begun :- LookAtOpen(f, look, fly, i, stamp, durations, run, href, offset);
    added := begun.1;
    CountNone(added, i, FromCamera);
    var next :- LookAtClose(run, begun.0, look, added, href, offset);
    return Ok(next), added;
  }

  /** The look-at branch after its FlyTos are made, on the state `tour`
      that `run` became when the branch opened the tour. */
  method LookAtClose(run: Run, tour: Run, look: map<string, Value>, added: seq<Item>, href: Value, offset: Value)
    returns (r: Result<Run>)
    requires Sane(run) && forall k :: 0 <= k < |added| ==> added[k].Fly?
    requires run.cc != 0 ==> tour == run
    requires run.cc == 0 ==>
      && tour.name.Some? && tour.playlist == Cues(href, offset)
      && tour == run.(docLookAt := Some(Blank), name := tour.name, start := tour.start, playlist := tour.playlist)
    ensures r.Ok? ==> LookedAt(run, r.value, added, href, offset)
    ensures r.Ok? ==> r.value.name == tour.name && r.value.start == tour.start
  {
    r := LookAtRecord(tour.(cc := if run.cc == 0 then 1 else run.cc), look, added);
    if r.Ok? {
      LookAtSane(run, r.value, added, href, offset);
    }
  }

  /** The look-at branch up to its FlyTos: the tour opened at cc == 0 (with
      a blank document look-at), then the point's FlyTos, timed from the
      tour start to the point's own time. */
  method LookAtOpen(f: Feature, look: map<string, Value>, fly: map<string, Value>, i: nat, stamp: DateTime,
                    durations: seq<nat>, run: Run, href: Value, offset: Value) returns (r: Result<(Run, seq<Item>)>)
    requires LooksAt(f) && f.flyto == Ok(fly)
    ensures r.Ok? && run.cc == 0 ==> OpenTour(run.(docLookAt := Some(Blank)), fly, stamp, href, offset) == Ok(r.value.0)
    ensures r.Ok? && run.cc != 0 ==> r.value.0 == run
    ensures r.Ok? ==> stamp.year >= 1900 && LookAtItems(look, fly, i, r.value.0.start, stamp, Moment(stamp, 0.0)) == Some(r.value.1)
    ensures r.Ok? ==> Made(f, durations, i, r.value.0.start, r.value.1)
    ensures r.Ok? ==> forall k :: 0 <= k < |r.value.1| ==> r.value.1[k].flyTo.origin != FromCamera
  {
    var tour := run;
    if run.cc == 0 {
      tour :- OpenTour(run.(docLookAt := Some(Blank)), fly, stamp, href, offset);
    }
    var end :- KmlTime(stamp);
    var added :- LookAtFlyTos(f, look, fly, i, tour.start, stamp, end, durations);
    return Ok((tour, added));
  }

  /** The end of the look-at branch (MMExport.py:275-283): the FlyTos join
      the playlist, `flyto` names the newest one, and at cc == 1 the document
      look-at becomes its view (a NameError when no FlyTo was ever made). */
  method LookAtRecord(tour: Run, look: map<string, Value>, added: seq<Item>) returns (r: Result<Run>)
    ensures r.Ok? ==> r.value.lastFly == if added == [] then tour.lastFly else Some(|tour.playlist| + |added| - 1)
    ensures r.Ok? ==> r.value == tour.(cc := tour.cc + 1, playlist := tour.playlist + added, lastFly := r.value.lastFly,
                                       docLookAt := r.value.docLookAt, lookAtStreetView := r.value.lookAtStreetView)
    ensures r.Ok? && tour.cc == 1 ==> r.value.lastFly.Some? && r.value.docLookAt == Some(ViewOf(r.value.lastFly.value))
    ensures r.Ok? && tour.cc != 1 ==> r.value.docLookAt == tour.docLookAt && r.value.lookAtStreetView == tour.lookAtStreetView
    ensures tour.cc == 1 && tour.lastFly.None? && added == [] ==> r == Err(NameError)
  {
    var lastFly := if added != [] then Some(|tour.playlist| + |added| - 1) else tour.lastFly;
    var docLookAt, streetView := tour.docLookAt, tour.lookAtStreetView;
    if tour.cc == 1 {
      if lastFly.None? {
        return Err(NameError);
      }
      var sv :- TruthyAt(look, "streetview");
      docLookAt, streetView := Some(ViewOf(lastFly.value)), sv;
    }
    return Ok(tour.(cc := tour.cc + 1, playlist := tour.playlist + added, lastFly := lastFly,
                    docLookAt := docLookAt, lookAtStreetView := streetView));
  }

  /** How the look-at branch moves the loop state: the counter steps twice
      when the branch opens the tour and once otherwise; the point's FlyTos
      join the playlist; `flyto` names the newest FlyTo, and opening the tour
      without one is a NameError; at cc <= 1 the document look-at becomes
      that FlyTo's view; the follow angle and the document camera stay. */
  ghost predicate LookedAt(run: Run, next: Run, added: seq<Item>, href: Value, offset: Value) {
    && Sane(next)
    && next.cc == (if run.cc == 0 then 2 else run.cc + 1)
    && next.playlist == Base(run, href, offset) + added
    && next.lastFly == (if added == [] then run.lastFly else Some(|next.playlist| - 1))
    && (run.cc == 0 ==> added != [])
    && (run.cc <= 1 ==> next.lastFly.Some? && next.docLookAt == Some(ViewOf(next.lastFly.value)))
    && (run.cc > 1 ==> next.docLookAt == run.docLookAt && next.lookAtStreetView == run.lookAtStreetView)
    && next.follow == run.follow
    && next.docCamera == run.docCamera && next.cameraStreetView == run.cameraStreetView
  }

  /** The look-at branch keeps the loop state sound. */
  lemma LookAtSane(run: Run, next: Run, added: seq<Item>, href: Value, offset: Value)
    requires Sane(run)
    requires next.cc == (if run.cc == 0 then 2 else run.cc + 1)
    requires next.playlist == Base(run, href, offset) + added
    requires forall k :: 0 <= k < |added| ==> added[k].Fly?
    requires run.cc == 0 ==> next.name.Some? && added != []
    requires run.cc != 0 ==> next.name == run.name
    requires next.lastFly == if added == [] then run.lastFly else Some(|next.playlist| - 1)
    requires run.cc <= 1 ==> next.lastFly.Some? && next.docLookAt == Some(ViewOf(next.lastFly.value))
    requires run.cc > 1 ==> next.docLookAt == run.docLookAt && next.lookAtStreetView == run.lookAtStreetView
    requires next.follow == run.follow
    requires next.docCamera == run.docCamera && next.cameraStreetView == run.cameraStreetView
    ensures LookedAt(run, next, added, href, offset)
  {
    var base := Base(run, href, offset);
    DocKept(run.docCamera, base, added);
    DocKept(run.docLookAt, base, added);
    if added != [] {
      assert next.playlist[|next.playlist| - 1] == added[|added| - 1];
    } else if run.lastFly.Some? {
      assert next.playlist[run.lastFly.value] == base[run.lastFly.value];
    }
  }

  /** The camera branch for one point (MMExport.py:285-626): the decoding of
      the camera directive, then the rest of the branch. */
  method CameraPoint(f: Feature, i: nat, stamp: DateTime, durations: seq<nat>, run: Run,
                     href: Value, offset: Value) returns (r: Result<Run>, added: seq<Item>)
    requires Films(f) && Sane(run)
    ensures r.Ok? ==> f.flyto.Ok?
    ensures r.Ok? ==> Filmed(run, r.value, added, href, offset)
    ensures r.Ok? && run.cc == 0 ==>
      "name" in f.flyto.value && r.value.name == Some(TourName(f.flyto.value["name"]))
      && r.value.start == Moment(stamp.(micro := 0), 0.0)
    ensures r.Ok? && run.cc != 0 ==> r.value.name == run.name && r.value.start == run.start
    ensures r.Ok? ==> Made(f, durations, i, r.value.start, added) && Count(added, i, FromCamera) == 1
    ensures r.Ok? ==> CameraOwed(f, run.cc == 0, stamp, r.value.start, added[0].flyTo)
    ensures r.Ok? ==> Follows(f, run.follow, r.value.follow)
  {
    added := [];
    var cam :- Directive(f.cameraCodes, CameraKind);
    r, added := CameraWith(f, cam, i, stamp, durations, run, href, offset);
  }

  /** The `follow_angle` variable after a camera point: the one its
      placement leaves, starting from `before`. */
  ghost predicate Follows(f: Feature, before: Option<real>, after: Option<real>) {
    && DirectiveOf(f.cameraCodes, CameraKind).Some?
    && Place(DirectiveOf(f.cameraCodes, CameraKind).value, f.model, before).Ok?
    && after == Place(DirectiveOf(f.cameraCodes, CameraKind).value, f.model, before).value.1
  }

  /** The camera FlyTo of a point (MMExport.py:335-626): the one the camera
      directive describes, timed from the tour start to the point's own
      time; it is what the point owes. The second result is the
      `follow_angle` variable afterwards. */
  method CameraEntry(f: Feature, cam: map<string, Value>, i: nat, stamp: DateTime, durations: seq<nat>,
                     follow: Option<real>, first: bool, start: Moment)
    returns (r: Result<(FlyTo, Option<real>)>)
    requires Films(f)
    ensures r.Ok? ==> f.flyto.Ok? && stamp.year >= 1900
    ensures r.Ok? ==> r.value.0.origin == FromCamera && Made(f, durations, i, start, [Fly(r.value.0)])
    ensures r.Ok? ==> CameraFrom(cam, f, first, stamp, start, r.value.0)
    ensures r.Ok? ==> Place(cam, f.model, follow).Ok? && r.value.1 == Place(cam, f.model, follow).value.1
  {
    var fly :- f.flyto;
    var end :- KmlTime(stamp);
    r := CameraFlyTo(cam, fly, durations, i, f.model, follow, first, start, end);
    if r.Ok? {
      CameraMade(f, durations, i, start, r.value.0);
      PlaceIgnoresFollow(cam, f.model, follow, None);
      if !On(cam, "follow_angle") {
        HeadingIgnoresFollow(cam, r.value.1, Place(cam, f.model, None).value.1, first);
      }
    }
  }

  /** The camera branch once the directive is decoded: the first qualifying
      point opens the tour and sets the document camera; every camera point
      adds exactly one FlyTo, the one its directive describes. */
  method CameraWith(f: Feature, cam: map<string, Value>, i: nat, stamp: DateTime, durations: seq<nat>, run: Run,
                    href: Value, offset: Value) returns (r: Result<Run>, added: seq<Item>)
    requires Films(f) && Sane(run)
    ensures r.Ok? ==> f.flyto.Ok?
    ensures r.Ok? ==> Filmed(run, r.value, added, href, offset)
    ensures r.Ok? && run.cc == 0 ==>
      "name" in f.flyto.value && r.value.name == Some(TourName(f.flyto.value["name"]))
      && r.value.start == Moment(stamp.(micro := 0), 0.0)
    ensures r.Ok? && run.cc != 0 ==> r.value.name == run.name && r.value.start == run.start
    ensures r.Ok? ==> Made(f, durations, i, r.value.start, added) && Count(added, i, FromCamera) == 1
    ensures r.Ok? ==> CameraFrom(cam, f, run.cc == 0, stamp, r.value.start, added[0].flyTo)
    ensures r.Ok? ==> Place(cam, f.model, run.follow).Ok? && r.value.follow == Place(cam, f.model, run.follow).value.1
  {
    added := [];
    var fly :- f.flyto;
    var tour := run;
    if run.cc == 0 {
      tour :- OpenTour(run.(docCamera := Some(Blank)), fly, stamp.(micro := 0), href, offset);
    }
    var made :- CameraEntry(f, cam, i, stamp, durations, run.follow, run.cc == 0, tour.start);
    added := [Fly(made.0)];
    CountAll(added, i, FromCamera);
    r := CameraRecord(run, tour, cam, made.0, made.1, href, offset);
  }

  /** The end of the camera branch (MMExport.py:614-626), on the state
      `tour` that `run` became when the branch opened the tour: the FlyTo
      joins the playlist, `flyto` names it, and the camera that opens the
      tour makes its view the document camera. */
  method CameraRecord(run: Run, tour: Run, cam: map<string, Value>, fl: FlyTo, follow: Option<real>,
                      href: Value, offset: Value) returns (r: Result<Run>)
    requires Sane(run) && fl.origin == FromCamera
    requires run.cc != 0 ==> tour == run
    requires run.cc == 0 ==>
      && tour.name.Some? && tour.playlist == Cues(href, offset)
      && tour == run.(docCamera := Some(Blank), name := tour.name, start := tour.start, playlist := tour.playlist)
    ensures r.Ok? ==> Filmed(run, r.value, [Fly(fl)], href, offset)
    ensures r.Ok? ==> r.value.name == tour.name && r.value.start == tour.start && r.value.follow == follow
  {
    var position := |tour.playlist|;
    var docCamera, streetView := tour.docCamera, tour.cameraStreetView;
    if run.cc == 0 {
      var sv :- TruthyAt(cam, "streetview");
      docCamera, streetView := Some(ViewOf(position)), sv;
    }
    var next := tour.(cc := run.cc + 1, playlist := tour.playlist + [Fly(fl)], lastFly := Some(position),
                      follow := follow, docCamera := docCamera, cameraStreetView := streetView);
    CameraSane(run, next, [Fly(fl)], href, offset);
    return Ok(next);
  }

  /** How the camera branch moves the loop state: the counter steps once;
      the point's one FlyTo joins the playlist and `flyto` names it; the
      camera that opens the tour makes that FlyTo's view the document camera,
      later ones leave the document camera alone; the document look-at
      stays. */
  ghost predicate Filmed(run: Run, next: Run, added: seq<Item>, href: Value, offset: Value) {
    && Sane(next)
    && next.cc == run.cc + 1
    && next.playlist == Base(run, href, offset) + added
    && |added| == 1 && added[0].Fly? && added[0].flyTo.origin == FromCamera
    && next.lastFly == Some(|next.playlist| - 1)
    && (run.cc == 0 ==> next.docCamera == Some(ViewOf(|next.playlist| - 1)))
    && (run.cc != 0 ==> next.docCamera == run.docCamera && next.cameraStreetView == run.cameraStreetView)
    && next.docLookAt == run.docLookAt && next.lookAtStreetView == run.lookAtStreetView
  }

  /** The camera branch keeps the loop state sound. */
  lemma CameraSane(run: Run, next: Run, added: seq<Item>, href: Value, offset: Value)
    requires Sane(run)
    requires next.cc == run.cc + 1
    requires next.playlist == Base(run, href, offset) + added
    requires |added| == 1 && added[0].Fly? && added[0].flyTo.origin == FromCamera
    requires run.cc == 0 ==> next.name.Some? && next.docCamera == Some(ViewOf(|next.playlist| - 1))
    requires run.cc != 0 ==> next.name == run.name && next.docCamera == run.docCamera
    requires run.cc != 0 ==> next.cameraStreetView == run.cameraStreetView
    requires next.lastFly == Some(|next.playlist| - 1)
    requires next.docLookAt == run.docLookAt && next.lookAtStreetView == run.lookAtStreetView
    ensures Filmed(run, next, added, href, offset)
  {
    DocKept(run.docLookAt, Base(run, href, offset), added);
    DocKept(run.docCamera, Base(run, href, offset), added);
  }

  lemma {:induction false} MadeAppend(f: Feature, durations: seq<nat>, i: nat, start: Moment, a: seq<Item>, b: seq<Item>)
    requires Made(f, durations, i, start, a) && Made(f, durations, i, start, b)
    ensures Made(f, durations, i, start, a + b)
  {
    forall k | 0 <= k < |a + b|
      ensures (a + b)[k].Fly? && (a + b)[k].flyTo.source == i
      ensures OwedTo(f, durations, (a + b)[k].flyTo) && Begin((a + b)[k].flyTo) == start
    {
      if k < |a| {
        assert (a + b)[k] == a[k];
      } else {
        assert (a + b)[k] == b[k - |a|];
      }
    }
  }

  /** One iteration of the point loop (MMExport.py:120-631): the look-at
      branch, then the camera branch, on the same point. `added` is what the
      point appends to the playlist. */
  method Step(f: Feature, i: nat, stamp: DateTime, durations: seq<nat>, run: Run,
              href: Value, offset: Value) returns (r: Result<Run>, added: seq<Item>)
    requires Sane(run)
    ensures r.Ok? ==> Stepped(f, i, stamp, durations, run, r.value, added, href, offset)
  {
    if !Qualifies(f) {
      StepIdle(f, i, stamp, durations, run, href, offset);
      return Ok(run), [];
    } else if !Films(f) {
      r, added := LookAtOnly(f, i, stamp, durations, run, href, offset);
    } else if !LooksAt(f) {
      r, added := CameraOnly(f, i, stamp, durations, run, href, offset);
    } else {
      r, added := LookAtThenCamera(f, i, stamp, durations, run, href, offset);
    }
  }

  /** A point with a look-at directive only. */
  method LookAtOnly(f: Feature, i: nat, stamp: DateTime, durations: seq<nat>, run: Run,
                    href: Value, offset: Value) returns (r: Result<Run>, added: seq<Item>)
    requires LooksAt(f) && !Films(f) && Sane(run)
    ensures r.Ok? ==> Stepped(f, i, stamp, durations, run, r.value, added, href, offset)
  {
    var next;
    next, added :- LookAtPoint(f, i, stamp, durations, run, href, offset);
    LookedShape(f, i, stamp, durations, run, next, added, href, offset);
    LookPartAll(added, i);
    return Ok(next), added;
  }

  /** A point with a camera directive only. */
  method CameraOnly(f: Feature, i: nat, stamp: DateTime, durations: seq<nat>, run: Run,
                    href: Value, offset: Value) returns (r: Result<Run>, added: seq<Item>)
    requires !LooksAt(f) && Films(f) && Sane(run)
    ensures r.Ok? ==> Stepped(f, i, stamp, durations, run, r.value, added, href, offset)
  {
    var next;
    next, added :- CameraPoint(f, i, stamp, durations, run, href, offset);
    FilmedStepped(f, i, stamp, durations, run, next, added, href, offset);
    return Ok(next), added;
  }

  /** A point with both directives: the look-at branch, then the camera
      branch on the state it leaves. */
  method LookAtThenCamera(f: Feature, i: nat, stamp: DateTime, durations: seq<nat>, run: Run,
                          href: Value, offset: Value) returns (r: Result<Run>, added: seq<Item>)
    requires LooksAt(f) && Films(f) && Sane(run)
    ensures r.Ok? ==> Stepped(f, i, stamp, durations, run, r.value, added, href, offset)
  {
    var mid, look;
    added := [];
    mid, look :- LookAtPoint(f, i, stamp, durations, run, href, offset);
    r, added := CameraAfterLookAt(f, i, stamp, durations, run, mid, look, href, offset);
  }

  /** The camera branch of a point whose look-at branch turned `run` into
      `mid`, adding `look`. */
  method CameraAfterLookAt(f: Feature, i: nat, stamp: DateTime, durations: seq<nat>, run: Run, mid: Run,
                           look: seq<Item>, href: Value, offset: Value) returns (r: Result<Run>, added: seq<Item>)
    requires LooksAt(f) && Films(f) && f.flyto.Ok?
    requires LookedAt(run, mid, look, href, offset)
    requires run.cc == 0 ==>
      "name" in f.flyto.value && mid.name == Some(TourName(f.flyto.value["name"])) && mid.start == Moment(stamp, 0.0)
    requires run.cc != 0 ==> mid.name == run.name && mid.start == run.start
    requires Made(f, durations, i, mid.start, look) && Count(look, i, FromCamera) == 0
    requires LookOwed(f, i, mid.start, stamp) == Some(look)
    requires forall k :: 0 <= k < |look| ==> look[k].Fly? && look[k].flyTo.origin != FromCamera
    ensures r.Ok? ==> Stepped(f, i, stamp, durations, run, r.value, added, href, offset)
  {
    var next, cam;
    added := [];
    next, cam :- CameraPoint(f, i, stamp, durations, mid, href, offset);
    BothStepped(f, i, stamp, durations, run, mid, next, look, cam, href, offset);
    return Ok(next), look + cam;
  }

  /** What one point does to the loop state: its shape, its look-at FlyTos
      and its camera FlyTo. */
  ghost predicate Stepped(f: Feature, i: nat, stamp: DateTime, durations: seq<nat>, run: Run, next: Run,
                          added: seq<Item>, href: Value, offset: Value) {
    && SteppedShape(f, i, stamp, durations, run, next, added, href, offset)
    && LookStepped(f, i, stamp, next.start, added)
    && CameraStepped(f, run.cc == 0 && !LooksAt(f), stamp, next.start, added)
  }

  /** A point with neither directive changes nothing; otherwise the counter
      moves on and the point's FlyTos join the playlist (a fresh one when the
      point opens the tour, which names the tour and fixes its start); every
      FlyTo is owed to the point and timed from the tour start; a camera
      point adds one camera FlyTo; the `follow_angle` variable moves only on
      a camera point. */
  ghost predicate SteppedShape(f: Feature, i: nat, stamp: DateTime, durations: seq<nat>, run: Run, next: Run,
                               added: seq<Item>, href: Value, offset: Value) {
    && Sane(next)
    && (!Qualifies(f) ==> next == run && added == [])
    && (Qualifies(f) ==> next.cc > run.cc && next.playlist == Base(run, href, offset) + added)
    && (Qualifies(f) && run.cc == 0 ==>
          && f.flyto.Ok? && "name" in f.flyto.value
          && next.name == Some(TourName(f.flyto.value["name"])) && next.start == Opening(f, stamp))
    && (run.cc != 0 ==> next.name == run.name && next.start == run.start)
    && Made(f, durations, i, next.start, added)
    && Count(added, i, FromCamera) == (if Films(f) then 1 else 0)
    && (if Films(f) then Follows(f, run.follow, next.follow) else next.follow == run.follow)
  }

  /** The look-at FlyTos a point adds are the ones its look-at directive
      describes, in order; a point without one adds none. */
  ghost predicate LookStepped(f: Feature, i: nat, stamp: DateTime, start: Moment, added: seq<Item>) {
    if LooksAt(f) then LookOwed(f, i, start, stamp) == Some(LookPart(added, i)) else LookPart(added, i) == []
  }

  /** The camera FlyTo a point adds is the one its camera directive
      describes; `first` holds when it opens the tour. */
  ghost predicate CameraStepped(f: Feature, first: bool, stamp: DateTime, start: Moment, added: seq<Item>) {
    forall k :: 0 <= k < |added| && added[k].Fly? && added[k].flyTo.origin == FromCamera ==>
      CameraOwed(f, first, stamp, start, added[k].flyTo)
  }

  lemma StepIdle(f: Feature, i: nat, stamp: DateTime, durations: seq<nat>, run: Run, href: Value, offset: Value)
    requires Sane(run) && !Qualifies(f)
    ensures Stepped(f, i, stamp, durations, run, run, [], href, offset)
  {
  }

  lemma LookedShape(f: Feature, i: nat, stamp: DateTime, durations: seq<nat>, run: Run, next: Run,
                    added: seq<Item>, href: Value, offset: Value)
    requires LooksAt(f) && !Films(f) && f.flyto.Ok?
    requires LookedAt(run, next, added, href, offset)
    requires run.cc == 0 ==>
      "name" in f.flyto.value && next.name == Some(TourName(f.flyto.value["name"])) && next.start == Moment(stamp, 0.0)
    requires run.cc != 0 ==> next.name == run.name && next.start == run.start
    requires Made(f, durations, i, next.start, added) && Count(added, i, FromCamera) == 0
    ensures SteppedShape(f, i, stamp, durations, run, next, added, href, offset)
  {
  }

  lemma FilmedShape(f: Feature, i: nat, stamp: DateTime, durations: seq<nat>, run: Run, next: Run,
                    added: seq<Item>, href: Value, offset: Value)
    requires !LooksAt(f) && Films(f) && f.flyto.Ok?
    requires Filmed(run, next, added, href, offset)
    requires run.cc == 0 ==>
      "name" in f.flyto.value && next.name == Some(TourName(f.flyto.value["name"]))
      && next.start == Moment(stamp.(micro := 0), 0.0)
    requires run.cc != 0 ==> next.name == run.name && next.start == run.start
    requires Made(f, durations, i, next.start, added) && Count(added, i, FromCamera) == 1
    requires Follows(f, run.follow, next.follow)
    ensures SteppedShape(f, i, stamp, durations, run, next, added, href, offset)
  {
  }
  lemma FilmedStepped(f: Feature, i: nat, stamp: DateTime, durations: seq<nat>, run: Run, next: Run,
                    added: seq<Item>, href: Value, offset: Value)
    requires !LooksAt(f) && Films(f) && f.flyto.Ok?
    requires Filmed(run, next, added, href, offset)
    requires run.cc == 0 ==>
      "name" in f.flyto.value && next.name == Some(TourName(f.flyto.value["name"]))
      && next.start == Moment(stamp.(micro := 0), 0.0)
    requires run.cc != 0 ==> next.name == run.name && next.start == run.start
    requires Made(f, durations, i, next.start, added) && Count(added, i, FromCamera) == 1
    requires Follows(f, run.follow, next.follow)
    requires CameraOwed(f, run.cc == 0, stamp, next.start, added[0].flyTo)
    ensures Stepped(f, i, stamp, durations, run, next, added, href, offset)
  {
    FilmedShape(f, i, stamp, durations, run, next, added, href, offset);
    CameraAlone(f, i, run.cc == 0, stamp, next.start, added);
  }
  /** The look-at and camera parts of a point with a camera directive only. */
  lemma CameraAlone(f: Feature, i: nat, first: bool, stamp: DateTime, start: Moment, added: seq<Item>)
    requires !LooksAt(f)
    requires |added| == 1 && added[0].Fly? && added[0].flyTo.origin == FromCamera
    requires CameraOwed(f, first, stamp, start, added[0].flyTo)
    ensures LookStepped(f, i, stamp, start, added) && CameraStepped(f, first, stamp, start, added)
  {
    OneCamera(added);
    LookPartNone(added, i);
    CameraJoined(f, first, stamp, start, [], added);
  }


  lemma BothShape(f: Feature, i: nat, stamp: DateTime, durations: seq<nat>, run: Run, mid: Run, next: Run,
                  look: seq<Item>, cam: seq<Item>, href: Value, offset: Value)
    requires LooksAt(f) && Films(f) && f.flyto.Ok?
    requires LookedAt(run, mid, look, href, offset)
    requires run.cc == 0 ==>
      "name" in f.flyto.value && mid.name == Some(TourName(f.flyto.value["name"])) && mid.start == Moment(stamp, 0.0)
    requires run.cc != 0 ==> mid.name == run.name && mid.start == run.start
    requires Made(f, durations, i, mid.start, look) && Count(look, i, FromCamera) == 0
    requires Filmed(mid, next, cam, href, offset)
    requires next.name == mid.name && next.start == mid.start
    requires Made(f, durations, i, next.start, cam) && Count(cam, i, FromCamera) == 1
    requires Follows(f, mid.follow, next.follow)
    ensures SteppedShape(f, i, stamp, durations, run, next, look + cam, href, offset)
  {
    MadeAppend(f, durations, i, next.start, look, cam);
    CountAppend(look, cam, i, FromCamera);
    Joined(Base(run, href, offset), look, cam);
  }
  lemma BothStepped(f: Feature, i: nat, stamp: DateTime, durations: seq<nat>, run: Run, mid: Run, next: Run,
                    look: seq<Item>, cam: seq<Item>, href: Value, offset: Value)
    requires LooksAt(f) && Films(f) && f.flyto.Ok?
    requires LookedAt(run, mid, look, href, offset)
    requires run.cc == 0 ==>
      "name" in f.flyto.value && mid.name == Some(TourName(f.flyto.value["name"])) && mid.start == Moment(stamp, 0.0)
    requires run.cc != 0 ==> mid.name == run.name && mid.start == run.start
    requires Made(f, durations, i, mid.start, look) && Count(look, i, FromCamera) == 0
    requires LookOwed(f, i, mid.start, stamp) == Some(look)
    requires forall k :: 0 <= k < |look| ==> look[k].Fly? && look[k].flyTo.origin != FromCamera
    requires Filmed(mid, next, cam, href, offset)
    requires next.name == mid.name && next.start == mid.start
    requires Made(f, durations, i, next.start, cam) && Count(cam, i, FromCamera) == 1
    requires Follows(f, mid.follow, next.follow)
    requires CameraOwed(f, false, stamp, next.start, cam[0].flyTo)
    ensures Stepped(f, i, stamp, durations, run, next, look + cam, href, offset)
  {
    BothShape(f, i, stamp, durations, run, mid, next, look, cam, href, offset);
    assert forall k :: 0 <= k < |look| ==> look[k].flyTo.source == i;
    JoinedStepped(f, i, stamp, next.start, look, cam);
  }

  lemma OneCamera(cam: seq<Item>)
    requires |cam| == 1 && cam[0].Fly? && cam[0].flyTo.origin == FromCamera
    ensures forall k :: 0 <= k < |cam| ==> cam[k].Fly? && cam[k].flyTo.origin == FromCamera
  {
  }

  /** The look-at and camera parts of a point with both directives. */
  lemma JoinedStepped(f: Feature, i: nat, stamp: DateTime, start: Moment, look: seq<Item>, cam: seq<Item>)
    requires LooksAt(f) && LookOwed(f, i, start, stamp) == Some(look)
    requires forall k :: 0 <= k < |look| ==> look[k].Fly? && look[k].flyTo.source == i && look[k].flyTo.origin != FromCamera
    requires |cam| == 1 && cam[0].Fly? && cam[0].flyTo.origin == FromCamera
    requires CameraOwed(f, false, stamp, start, cam[0].flyTo)
    ensures LookStepped(f, i, stamp, start, look + cam) && CameraStepped(f, false, stamp, start, look + cam)
  {
    OneCamera(cam);
    LookJoined(f, i, stamp, start, look, cam);
    CameraJoined(f, false, stamp, start, look, cam);
  }



  /** The look-at FlyTos followed by the camera FlyTo: the look-at part is
      still the look-at FlyTos. */
  lemma LookJoined(f: Feature, i: nat, stamp: DateTime, start: Moment, look: seq<Item>, cam: seq<Item>)
    requires LooksAt(f) && LookOwed(f, i, start, stamp) == Some(look)
    requires forall k :: 0 <= k < |look| ==> look[k].Fly? && look[k].flyTo.source == i && look[k].flyTo.origin != FromCamera
    requires forall k :: 0 <= k < |cam| ==> cam[k].Fly? && cam[k].flyTo.origin == FromCamera
    ensures LookStepped(f, i, stamp, start, look + cam)
  {
    LookPartAll(look, i);
    LookPartNone(cam, i);
    LookPartAppend(look, cam, i);
    assert LookPart(look + cam, i) == look;
  }

  /** Look-at FlyTos followed by the camera FlyTo: the camera part is
      still the camera FlyTo. */
  lemma CameraJoined(f: Feature, first: bool, stamp: DateTime, start: Moment, look: seq<Item>, cam: seq<Item>)
    requires forall k :: 0 <= k < |look| ==> look[k].Fly? && look[k].flyTo.origin != FromCamera
    requires |cam| == 1 && cam[0].Fly? && CameraOwed(f, first, stamp, start, cam[0].flyTo)
    ensures CameraStepped(f, first, stamp, start, look + cam)
  {
    forall k | 0 <= k < |look + cam| && (look + cam)[k].Fly? && (look + cam)[k].flyTo.origin == FromCamera
      ensures CameraOwed(f, first, stamp, start, (look + cam)[k].flyTo)
    {
      OnlyCamera(look, cam, k);
    }
  }

  /** After look-at FlyTos, the one camera FlyTo is the only one from the
      camera branch. */
  lemma OnlyCamera(look: seq<Item>, cam: seq<Item>, k: nat)
    requires forall j :: 0 <= j < |look| ==> look[j].Fly? && look[j].flyTo.origin != FromCamera
    requires |cam| == 1 && k < |look + cam| && (look + cam)[k].Fly? && (look + cam)[k].flyTo.origin == FromCamera
    ensures (look + cam)[k] == cam[0]
  {
    if k < |look| {
      assert false;
    }
  }

  lemma Joined(base: seq<Item>, look: seq<Item>, cam: seq<Item>)
    ensures (base + look) + cam == base + (look + cam)
  {
  }
}
