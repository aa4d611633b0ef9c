/** The driving loops of `exportToFile` (MMExport.py:76-799): the pre-pass
    that parses every point's datetime and derives the `Durations` list, the
    point loop that threads the tour state through `Tour.Step`, and then the
    decoration passes and the choice of output format. */
module Export {
  import opened Values
  import opened Timestamps
  import opened Views
  import opened Tour
  import opened Decoration

  /** The pre-pass over the points (MMExport.py:88-99): each point's datetime
      text is parsed in turn, and the first text that does not parse aborts
      the export. */
  method ParseStamps(features: seq<Feature>) returns (r: Result<seq<DateTime>>)
    ensures r.Ok? <==> forall k :: 0 <= k < |features| ==> ParseStamp(features[k].datetime).Ok?
    ensures r.Ok? ==> |r.value| == |features|
    ensures r.Ok? ==> forall k {:trigger ParseStamp(features[k].datetime)} :: 0 <= k < |features| ==> ParseStamp(features[k].datetime) == Ok(r.value[k])
    ensures r.Err? ==> exists k :: 0 <= k < |features| && ParseStamp(features[k].datetime) == Err(r.error)
  {
    var time1: seq<DateTime> := [];
    var i := 0;
    while i < |features|
      invariant 0 <= i <= |features|
      invariant |time1| == i
      invariant forall k {:trigger ParseStamp(features[k].datetime)} :: 0 <= k < i ==> ParseStamp(features[k].datetime) == Ok(time1[k])
    {
      var current := ParseStamp(features[i].datetime);
      if current.Err? {
        return Err(current.error);
      }
      time1 := time1 + [current.value];
      i := i + 1;
    }
    return Ok(time1);
  }

  /** Every parsed datetime is one `datetime` accepts. */
  lemma StampsValid(features: seq<Feature>, stamps: seq<DateTime>)
    requires |stamps| == |features|
    requires forall k {:trigger ParseStamp(features[k].datetime)} :: 0 <= k < |features| ==> ParseStamp(features[k].datetime) == Ok(stamps[k])
    ensures forall k :: 0 <= k < |stamps| ==> Valid(stamps[k])
  {
    forall k | 0 <= k < |stamps| ensures Valid(stamps[k]) {
      assert ParseStamp(features[k].datetime).Ok?;
    }
  }

  /** The first qualifying point opened the tour: the tour carries its
      flyto name and its opening time. */
  ghost predicate Opened(f: Feature, stamp: DateTime, run: Run) {
    && f.flyto.Ok? && "name" in f.flyto.value
    && run.name == Some(TourName(f.flyto.value["name"]))
    && run.start == Opening(f, stamp)
  }

  /** The only sound cue is the first playlist entry, present exactly when an
      audio file is configured and the tour exists. */
  predicate Cued(playlist: seq<Item>, href: Value, offset: Value, cc: int) {
    && (forall k :: 0 <= k < |playlist| && playlist[k].Cue? ==> k == 0 && Truthy(href) && playlist[k] == Cue(href, offset))
    && (cc != 0 && Truthy(href) ==> |playlist| > 0 && playlist[0] == Cue(href, offset))
  }

  /** Every FlyTo of the playlist came from one of the first `i` points, is
      what that point owes, and is timed from the tour start. */
  ghost predicate Owed(features: seq<Feature>, durations: seq<nat>, i: nat, playlist: seq<Item>, start: Moment)
    requires i <= |features|
  {
    forall k :: 0 <= k < |playlist| && playlist[k].Fly? ==>
      && playlist[k].flyTo.source < i
      && OwedTo(features[playlist[k].flyTo.source], durations, playlist[k].flyTo)
      && Begin(playlist[k].flyTo) == start
  }

  /** The loop state after the first `i` points: the tour exists exactly when
      one of them qualifies and is the one the first of them opened, its
      playlist holds at most the cue and the FlyTos the points owe, and each
      camera point has exactly one camera FlyTo in it. */
  ghost predicate Built(features: seq<Feature>, stamps: seq<DateTime>, durations: seq<nat>,
                        href: Value, offset: Value, i: nat, run: Run)
    requires i <= |features| == |stamps|
  {
    && Sane(run)
    && (run.cc == 0 <==> FirstQualifying(features, i).None?)
    && (FirstQualifying(features, i).Some? ==>
          Opened(features[FirstQualifying(features, i).value], stamps[FirstQualifying(features, i).value], run))
    && Cued(run.playlist, href, offset, run.cc)
    && Owed(features, durations, i, run.playlist, run.start)
    && (forall j {:trigger Count(run.playlist, j, FromCamera)} :: 0 <= j < i ==> Count(run.playlist, j, FromCamera) == if Films(features[j]) then 1 else 0)
    && Looked(features, stamps, i, run.playlist, run.start)
    && Shot(features, stamps, run.playlist, run.start)
  }

  /** The look-at FlyTos of each of the first `i` points are exactly the
      ones its look-at directive describes, in order; a point without a
      look-at directive has none. */
  ghost predicate Looked(features: seq<Feature>, stamps: seq<DateTime>, i: nat, playlist: seq<Item>, start: Moment)
    requires i <= |features| == |stamps|
  {
    forall j {:trigger LookPart(playlist, j)} :: 0 <= j < i ==>
      if LooksAt(features[j]) then LookOwed(features[j], j, start, stamps[j]) == Some(LookPart(playlist, j))
      else LookPart(playlist, j) == []
  }

  /** Point `j` opens the tour with its camera FlyTo: it is the first
      qualifying point and has no look-at directive. */
  predicate OpensWithCamera(features: seq<Feature>, j: nat)
    requires j < |features|
  {
    FirstQualifying(features, j).None? && !LooksAt(features[j])
  }

  /** Every camera FlyTo of the playlist is the one its point's camera
      directive describes. */
  ghost predicate Shot(features: seq<Feature>, stamps: seq<DateTime>, playlist: seq<Item>, start: Moment)
    requires |features| == |stamps|
  {
    forall k :: 0 <= k < |playlist| && playlist[k].Fly? && playlist[k].flyTo.origin == FromCamera
                && playlist[k].flyTo.source < |features| ==>
      CameraOwed(features[playlist[k].flyTo.source], OpensWithCamera(features, playlist[k].flyTo.source),
                 stamps[playlist[k].flyTo.source], start, playlist[k].flyTo)
  }

  /** A point's FlyTos keep the earlier points' look-at FlyTos and add its
      own. */
  lemma LookedStep(features: seq<Feature>, stamps: seq<DateTime>, href: Value, offset: Value,
                   i: nat, run: Run, next: Run, added: seq<Item>)
    requires i < |features| == |stamps|
    requires run.cc == 0 ==> run.playlist == [] && forall j :: 0 <= j < i ==> !Qualifies(features[j])
    requires forall k :: 0 <= k < |run.playlist| && run.playlist[k].Fly? ==> run.playlist[k].flyTo.source < i
    requires Looked(features, stamps, i, run.playlist, run.start)
    requires !Qualifies(features[i]) ==> next == run && added == []
    requires Qualifies(features[i]) ==> next.playlist == Base(run, href, offset) + added
    requires run.cc != 0 ==> next.start == run.start
    requires forall k :: 0 <= k < |added| ==> added[k].Fly? && added[k].flyTo.source == i
    requires LookStepped(features[i], i, stamps[i], next.start, added)
    ensures Looked(features, stamps, i + 1, next.playlist, next.start)
  {
    var base := Base(run, href, offset);
    forall j {:trigger LookPart(next.playlist, j)} | 0 <= j < i + 1
      ensures if LooksAt(features[j]) then LookOwed(features[j], j, next.start, stamps[j]) == Some(LookPart(next.playlist, j))
              else LookPart(next.playlist, j) == []
    {
      if Qualifies(features[i]) {
        LookPartGrown(base, added, i, j);
        if run.cc == 0 {
          LookPartNone(base, j);
        }
      } else if j == i {
        LookPartNone(run.playlist, i);
      }
      if j < i && LooksAt(features[j]) {
        LookOwedKept(features[j], j, run.start, next.start, stamps[j], LookPart(run.playlist, j), LookPart(next.playlist, j));
      }
    }
  }

  /** Appending point `i`'s FlyTos to earlier points' ones: an earlier
      point's look-at FlyTos stay, and point `i`'s are the ones it added. */
  lemma LookPartGrown(base: seq<Item>, added: seq<Item>, i: nat, j: nat)
    requires j <= i
    requires forall k :: 0 <= k < |base| && base[k].Fly? ==> base[k].flyTo.source < i
    requires forall k :: 0 <= k < |added| ==> added[k].Fly? && added[k].flyTo.source == i
    ensures LookPart(base + added, j) == if j == i then LookPart(added, i) else LookPart(base, j)
  {
    LookPartAppend(base, added, j);
    if j == i {
      LookPartNone(base, i);
    } else {
      LookPartNone(added, j);
    }
  }

  /** A point's camera FlyTo is the one its directive describes, opening
      the tour exactly when the point does so without a look-at. */
  lemma ShotStep(features: seq<Feature>, stamps: seq<DateTime>, href: Value, offset: Value,
                 i: nat, run: Run, next: Run, added: seq<Item>)
    requires i < |features| == |stamps|
    requires run.cc >= 0 && (run.cc == 0 <==> FirstQualifying(features, i).None?)
    requires run.cc == 0 ==> run.playlist == []
    requires Shot(features, stamps, run.playlist, run.start)
    requires !Qualifies(features[i]) ==> next == run && added == []
    requires Qualifies(features[i]) ==> next.playlist == Base(run, href, offset) + added
    requires run.cc != 0 ==> next.start == run.start
    requires forall k :: 0 <= k < |added| ==> added[k].Fly? && added[k].flyTo.source == i
    requires CameraStepped(features[i], run.cc == 0 && !LooksAt(features[i]), stamps[i], next.start, added)
    ensures Shot(features, stamps, next.playlist, next.start)
  {
    var base := Base(run, href, offset);
    forall k | 0 <= k < |next.playlist| && next.playlist[k].Fly? && next.playlist[k].flyTo.origin == FromCamera
               && next.playlist[k].flyTo.source < |features|
      ensures CameraOwed(features[next.playlist[k].flyTo.source], OpensWithCamera(features, next.playlist[k].flyTo.source),
                         stamps[next.playlist[k].flyTo.source], next.start, next.playlist[k].flyTo)
    {
      if Qualifies(features[i]) {
        if k < |base| {
          assert next.playlist[k] == base[k];
        } else {
          assert next.playlist[k] == added[k - |base|];
        }
      }
    }
  }

  /** The tour is opened by the first qualifying point and by no later one. */
  lemma OpenedStep(features: seq<Feature>, stamps: seq<DateTime>, i: nat, run: Run, next: Run)
    requires i < |features| == |stamps|
    requires run.cc >= 0 && (run.cc == 0 <==> FirstQualifying(features, i).None?)
    requires FirstQualifying(features, i).Some? ==>
      Opened(features[FirstQualifying(features, i).value], stamps[FirstQualifying(features, i).value], run)
    requires !Qualifies(features[i]) ==> next == run
    requires Qualifies(features[i]) ==> next.cc > run.cc
    requires Qualifies(features[i]) && run.cc == 0 ==> Opened(features[i], stamps[i], next)
    requires run.cc != 0 ==> next.name == run.name && next.start == run.start
    ensures next.cc == 0 <==> FirstQualifying(features, i + 1).None?
    ensures FirstQualifying(features, i + 1).Some? ==>
      Opened(features[FirstQualifying(features, i + 1).value], stamps[FirstQualifying(features, i + 1).value], next)
  {
    var p := FirstQualifying(features, i);
    assert FirstQualifying(features, i + 1) == if p.Some? then p else if Qualifies(features[i]) then Some(i) else None;
  }

  /** The point's FlyTos keep the playlist's FlyTos owed and timed. */
  lemma OwedStep(features: seq<Feature>, durations: seq<nat>, i: nat, run: Run, next: Run,
                 added: seq<Item>, href: Value, offset: Value)
    requires i < |features|
    requires run.cc == 0 ==> run.playlist == []
    requires run.cc != 0 ==> next.start == run.start
    requires Owed(features, durations, i, run.playlist, run.start)
    requires Made(features[i], durations, i, next.start, added)
    requires next.playlist == Base(run, href, offset) + added
    ensures Owed(features, durations, i + 1, next.playlist, next.start)
  {
    var base := Base(run, href, offset);
    forall k | 0 <= k < |next.playlist| && next.playlist[k].Fly?
      ensures next.playlist[k].flyTo.source < i + 1
      ensures OwedTo(features[next.playlist[k].flyTo.source], durations, next.playlist[k].flyTo)
      ensures Begin(next.playlist[k].flyTo) == next.start
    {
      if k < |base| {
        assert next.playlist[k] == base[k];
      } else {
        assert next.playlist[k] == added[k - |base|];
      }
    }
  }

  /** The cue stays the only cue, at the front. */
  lemma CuedStep(run: Run, next: Run, added: seq<Item>, href: Value, offset: Value)
    requires run.cc >= 0 && (run.cc == 0 ==> run.playlist == [])
    requires Cued(run.playlist, href, offset, run.cc)
    requires forall k :: 0 <= k < |added| ==> added[k].Fly?
    requires next.playlist == Base(run, href, offset) + added
    requires next.cc >= run.cc
    ensures Cued(next.playlist, href, offset, next.cc)
  {
    var base := Base(run, href, offset);
    forall k | 0 <= k < |next.playlist| && next.playlist[k].Cue?
      ensures k == 0 && Truthy(href) && next.playlist[k] == Cue(href, offset)
    {
      if k < |base| {
        assert next.playlist[k] == base[k];
      }
    }
    if next.cc != 0 && Truthy(href) {
      assert base[0] == Cue(href, offset);
      assert next.playlist[0] == base[0];
    }
  }

  /** Each camera point keeps exactly one camera FlyTo in the playlist. */
  lemma CountStep(features: seq<Feature>, durations: seq<nat>, i: nat, run: Run, next: Run,
                  added: seq<Item>, href: Value, offset: Value)
    requires i < |features|
    requires run.cc == 0 ==> run.playlist == [] && forall j :: 0 <= j < i ==> !Qualifies(features[j])
    requires Owed(features, durations, i, run.playlist, run.start)
    requires forall j {:trigger Count(run.playlist, j, FromCamera)} :: 0 <= j < i ==> Count(run.playlist, j, FromCamera) == if Films(features[j]) then 1 else 0
    requires !Qualifies(features[i]) ==> next == run && added == []
    requires Qualifies(features[i]) ==> next.playlist == Base(run, href, offset) + added
    requires Made(features[i], durations, i, next.start, added)
    requires Count(added, i, FromCamera) == if Films(features[i]) then 1 else 0
    ensures forall j {:trigger Count(next.playlist, j, FromCamera)} :: 0 <= j < i + 1 ==> Count(next.playlist, j, FromCamera) == if Films(features[j]) then 1 else 0
  {
    var base := Base(run, href, offset);
    CountNone(run.playlist, i, FromCamera);
    CountNone(Cues(href, offset), i, FromCamera);
    forall j {:trigger Count(next.playlist, j, FromCamera)} | 0 <= j < i + 1
      ensures Count(next.playlist, j, FromCamera) == if Films(features[j]) then 1 else 0
    {
      if Qualifies(features[i]) {
        CountAppend(base, added, j, FromCamera);
        if j < i {
          CountNone(added, j, FromCamera);
          CountNone(Cues(href, offset), j, FromCamera);
        }
      }
    }
  }

  /** One point of the loop keeps the loop state `Built`. */
  lemma BuiltStep(features: seq<Feature>, stamps: seq<DateTime>, durations: seq<nat>, href: Value, offset: Value,
                  i: nat, run: Run, next: Run, added: seq<Item>)
    requires i < |features| == |stamps|
    requires Built(features, stamps, durations, href, offset, i, run)
    requires Stepped(features[i], i, stamps[i], durations, run, next, added, href, offset)
    ensures Built(features, stamps, durations, href, offset, i + 1, next)
  {
    OpenedStep(features, stamps, i, run, next);
    if Qualifies(features[i]) {
      OwedStep(features, durations, i, run, next, added, href, offset);
      CuedStep(run, next, added, href, offset);
    }
    CountStep(features, durations, i, run, next, added, href, offset);
    LookedStep(features, stamps, href, offset, i, run, next, added);
    ShotStep(features, stamps, href, offset, i, run, next, added);
  }

  /** The point loop of `exportToFile` (MMExport.py:117-631): every point in
      turn, with its index as `globalcounter`; the first point that raises
      aborts the export. */
  method BuildTour(features: seq<Feature>, stamps: seq<DateTime>, durations: seq<nat>, href: Value, offset: Value)
    returns (r: Result<Run>)
    requires |stamps| == |features|
    ensures r.Ok? ==> Built(features, stamps, durations, href, offset, |features|, r.value)
  {
    var run := Fresh;
    var globalcounter := 0;
    while globalcounter < |features|
      invariant globalcounter <= |features|
      invariant Built(features, stamps, durations, href, offset, globalcounter, run)
    {
      var f := features[globalcounter];
      var next, added :- Step(f, globalcounter, stamps[globalcounter], durations, run, href, offset);
      BuiltStep(features, stamps, durations, href, offset, globalcounter, run, next, added);
      run := next;
      globalcounter := globalcounter + 1;
    }
    return Ok(run);
  }

  /** What the pre-pass leaves behind: every point's datetime, parsed, and
      the `Durations` list derived from them. */
  ghost predicate PrePass(features: seq<Feature>, stamps: seq<DateTime>, durations: seq<nat>) {
    && |stamps| == |features|
    && (forall k {:trigger ParseStamp(features[k].datetime)} :: 0 <= k < |features| ==> ParseStamp(features[k].datetime) == Ok(stamps[k]))
    && (forall k :: 0 <= k < |stamps| ==> Valid(stamps[k]))
    && (|features| == 0 ==> durations == [])
    && (|features| >= 2 ==>
          && |durations| == |features| && durations[|features| - 1] == durations[|features| - 2]
          && forall k {:trigger durations[k]} :: 0 <= k < |features| - 1 ==>
               durations[k] == DayWrap(Ticks(stamps[k + 1]) - Ticks(stamps[k])))
  }

  /** The tour half of `exportToFile`: the datetime pre-pass, the
      `Durations` list, then the point loop. Also returns the parsed
      datetimes (`time1`) and `Durations`. */
  method ExportTour(features: seq<Feature>, href: Value, offset: Value)
    returns (r: Result<Run>, stamps: seq<DateTime>, durations: seq<nat>)
    ensures |features| == 1 ==> r.Err?
    ensures r.Ok? ==> PrePass(features, stamps, durations)
    ensures r.Ok? ==> Built(features, stamps, durations, href, offset, |features|, r.value)
  {
    stamps, durations := [], [];
    var time1 :- ParseStamps(features);
    stamps := time1;
    StampsValid(features, stamps);
    var gaps :- DeriveDurations(stamps);
    durations := gaps;
    assert PrePass(features, stamps, durations);
    r := BuildTour(features, stamps, durations, href, offset);
  }

  /** What `exportToFile` builds: the tour, the "Points" and "Models"
      folders, and the format the document is written in (None: no file). */
  datatype Document = Document(tour: Run, points: seq<Placemark>, models: seq<ModelMark>, format: Option<Format>)

  /** `exportToFile`: the tour, then the points pass, the models pass and the
      output dispatch, each over the datetimes the pre-pass parsed. The
      simplekml colour table is the `palette` parameter; `reading` chooses
      between the code as written and its evident intent for the icon alpha
      and the output format. */
  method ExportToFile(features: seq<Feature>, href: Value, offset: Value, path: string,
                      palette: map<string, string>, reading: Reading)
    returns (r: Result<Document>, stamps: seq<DateTime>, durations: seq<nat>)
    ensures |features| == 1 ==> r.Err?
    ensures r.Ok? ==> PrePass(features, stamps, durations)
    ensures r.Ok? ==> Built(features, stamps, durations, href, offset, |features|, r.value.tour)
    ensures r.Ok? ==> Points(features, stamps, palette, reading, |features|) == Ok(r.value.points)
    ensures r.Ok? ==> Models(features, stamps, |features|) == Ok(r.value.models)
    ensures r.Ok? && reading == AsWritten ==> OutputFormatAsWritten(path) == Ok(r.value.format)
    ensures r.Ok? && reading == Intended ==> OutputFormat(path) == Ok(r.value.format)
  {
    var tour;
    tour, stamps, durations := ExportTour(features, href, offset);
    if tour.Err? {
      return Err(tour.error), stamps, durations;
    }
    var points :- PointsPass(features, stamps, palette, reading);
    var models :- ModelsPass(features, stamps);
    var format :- if reading == AsWritten then OutputFormatAsWritten(path) else OutputFormat(path);
    return Ok(Document(tour.value, points, models, format)), stamps, durations;
  }
}

/** What a built tour holds for each kind of look-at point. */
module TourContent {
  import opened Values
  import opened Timestamps
  import opened Views
  import opened Directives
  import opened Orbit
  import opened Tour
  import opened Export

  /** In a built tour, a look-at point with both a starting heading and a
      rotation count, whose orbit is made, contributes the whole orbit:
      `Steps` FlyTos, the k-th being the k-th orbit step. */
  lemma LookedOrbit(features: seq<Feature>, stamps: seq<DateTime>, i: nat, playlist: seq<Item>, start: Moment, j: nat)
    requires i <= |features| == |stamps| && j < i
    requires Looked(features, stamps, i, playlist, start)
    requires LooksAt(features[j]) && features[j].flyto.Ok?
    requires DirectiveOf(features[j].lookatCodes, LookAtKind).Some?
    requires var look := DirectiveOf(features[j].lookatCodes, LookAtKind).value;
      && AllTruthy(look, ["startheading", "rotations"]) == Ok(true) && AllTruthy(look, OrbitFields) == Ok(true)
      && OrbitPlan(look).Ok? && OrbitPlan(look).value.circles >= 1 && OrbitSetup(look, features[j].flyto.value).Ok?
    ensures var look := DirectiveOf(features[j].lookatCodes, LookAtKind).value;
      var part := LookPart(playlist, j);
      && |part| == Steps(OrbitPlan(look).value.circles)
      && forall k :: 0 <= k < |part| ==>
           part[k] == Fly(OrbitStep(look, OrbitSetup(look, features[j].flyto.value).value, OrbitPlan(look).value,
                                    start, stamps[j], j, k))
  {
    var look := DirectiveOf(features[j].lookatCodes, LookAtKind).value;
    var fly := features[j].flyto.value;
    assert LookOwed(features[j], j, start, stamps[j]) == Some(LookPart(playlist, j));
    assert OrbitItems(look, fly, j, start, stamps[j]) == Some(LookPart(playlist, j));
  }

  /** In a built tour, a look-at point without an orbit whose custom FlyTo is
      made contributes exactly that FlyTo. */
  lemma LookedCustom(features: seq<Feature>, stamps: seq<DateTime>, i: nat, playlist: seq<Item>, start: Moment, j: nat,
                     fl: FlyTo)
    requires i <= |features| == |stamps| && j < i
    requires Looked(features, stamps, i, playlist, start)
    requires LooksAt(features[j]) && features[j].flyto.Ok?
    requires DirectiveOf(features[j].lookatCodes, LookAtKind).Some?
    requires var look := DirectiveOf(features[j].lookatCodes, LookAtKind).value;
      && AllTruthy(look, ["startheading", "rotations"]) == Ok(false)
      && LookAtFlyTo(look, features[j].flyto.value, j, start, Moment(stamps[j], 0.0)) == Ok(Some(fl))
    ensures LookPart(playlist, j) == [Fly(fl)]
  {
    assert LookOwed(features[j], j, start, stamps[j]) == Some(LookPart(playlist, j));
  }
}
