/** The look-at orbit ("circle around") of MMExport.py:185-243: a run of FlyTos
    around one look-at point, ten degrees of heading apart, the first circle
    closing back on its starting heading. */
module Orbit {
  import opened Values
  import opened Text
  import opened Timestamps
  import opened Views

  /** FlyTos emitted for `c` circles: 37 on the first circle, 36 on each later
      one. */
  function Steps(c: int): (n: int)
    ensures c >= 1 ==> n == 36 * c + 1
    ensures c < 1 ==> n == 0
  {
    if c >= 1 then 37 + 36 * (c - 1) else 0
  }

  /** One heading step: ten degrees either way, or none for any other
      direction. */
  function Turn(h: real, direction: Value): real {
    if direction == VStr("clockwise") then Mod360(h + 10.0)
    else if direction == VStr("counterclockwise") then Mod360(h - 10.0)
    else h
  }

  /** The heading of the k-th FlyTo of the orbit. */
  function HeadingAt(start: real, direction: Value, k: nat): real {
    if k == 0 then start else Turn(HeadingAt(start, direction, k - 1), direction)
  }

  /** Clockwise, the k-th heading is the start turned k times ten degrees. */
  lemma {:induction false} ClockwiseHeading(start: real, k: nat)
    requires k >= 1
    ensures HeadingAt(start, VStr("clockwise"), k) == Mod360(start + 10.0 * k as real)
  {
    if k > 1 {
      ClockwiseHeading(start, k - 1);
      Mod360Shift(start + 10.0 * (k - 1) as real, 10.0);
    }
  }

  /** Counterclockwise, the k-th heading is the start turned back k times ten
      degrees. */
  lemma {:induction false} CounterclockwiseHeading(start: real, k: nat)
    requires k >= 1
    ensures HeadingAt(start, VStr("counterclockwise"), k) == Mod360(start - 10.0 * k as real)
  {
    if k > 1 {
      CounterclockwiseHeading(start, k - 1);
      Mod360Shift(start - 10.0 * (k - 1) as real, -10.0);
    }
  }

  /** Any other direction keeps the starting heading throughout. */
  lemma {:induction false} StillHeading(start: real, direction: Value, k: nat)
    requires direction != VStr("clockwise") && direction != VStr("counterclockwise")
    ensures HeadingAt(start, direction, k) == start
  {
    if k > 0 { StillHeading(start, direction, k - 1); }
  }

  /** The first circle closes: after 36 steps either way the heading is back
      where it started, so the 37th FlyTo repeats the first. */
  lemma CircleCloses(start: real, direction: Value)
    requires 0.0 <= start < 360.0
    ensures HeadingAt(start, direction, 36) == start
  {
    if direction == VStr("clockwise") {
      ClockwiseHeading(start, 36);
      Mod360Unique(start + 360.0, start, 1);
    } else if direction == VStr("counterclockwise") {
      CounterclockwiseHeading(start, 36);
      Mod360Unique(start - 360.0, start, -1);
    } else {
      StillHeading(start, direction, 36);
    }
  }

  /** Every later circle repeats the headings of the one before. */
  lemma Periodic(start: real, direction: Value, k: nat)
    requires k >= 1
    ensures HeadingAt(start, direction, k + 36) == HeadingAt(start, direction, k)
  {
    if direction == VStr("clockwise") {
      ClockwiseHeading(start, k);
      ClockwiseHeading(start, k + 36);
      assert start + 10.0 * (k + 36) as real == (start + 10.0 * k as real) + 360.0;
      Mod360Turn(start + 10.0 * k as real);
    } else if direction == VStr("counterclockwise") {
      CounterclockwiseHeading(start, k);
      CounterclockwiseHeading(start, k + 36);
      assert start - 10.0 * (k + 36) as real == (start - 10.0 * k as real) - 360.0;
      Mod360Turn(start - 10.0 * k as real);
    } else {
      StillHeading(start, direction, k);
      StillHeading(start, direction, k + 36);
    }
  }

  /** The orbit's size and length: `int(float(rotations))` circles over
      `float(duration)` seconds. No circles at all divides by zero. */
  datatype Plan = Plan(circles: int, total: real)

  function OrbitPlan(look: map<string, Value>): (r: Result<Plan>)
    ensures r.Ok? ==> r.value.circles != 0
    ensures r.Ok? ==> "rotations" in look && Float(look["rotations"]).Ok?
                      && r.value.circles == Trunc(Float(look["rotations"]).value)
    ensures r.Ok? ==> "duration" in look && Float(look["duration"]) == Ok(r.value.total)
  {
    var rv :- Get(look, "rotations");
    var rotations :- Float(rv);
    var c := Trunc(rotations);
    var dv :- Get(look, "duration");
    var total :- Float(dv);
    if c == 0 then Err(ZeroDivision) else Ok(Plan(c, total))
  }

  /** What the first step reads besides the plan: the starting heading, the
      FlyTo mode, the altitude mode and the direction. */
  datatype Setup = Setup(start: real, mode: Option<Value>, altitudeMode: Value, direction: Value)

  function OrbitSetup(look: map<string, Value>, flyto: map<string, Value>): (r: Result<Setup>)
    ensures r.Ok? ==> "startheading" in look && Float(look["startheading"]) == Ok(r.value.start)
    ensures r.Ok? ==> "direction" in look && r.value.direction == look["direction"]
    ensures r.Ok? ==> FlyToMode(flyto) == Ok(r.value.mode)
  {
    var sh :- Get(look, "startheading");
    var start :- Float(sh);
    var mode :- FlyToMode(flyto);
    var am :- Get(look, "altitudemode");
    var direction :- Get(look, "direction");
    Ok(Setup(start, mode, am, direction))
  }

  const OrbitFields: seq<string> := ["longitude", "latitude", "altitude", "tilt", "range"]

  /** The k-th FlyTo of the orbit: an equal share of the duration, the k-th
      heading, and a time span ending k span-steps after the point's time,
      where a span-step is the duration over 36 per circle. */
  function OrbitStep(look: map<string, Value>, s: Setup, p: Plan, begin: Moment, end: DateTime,
                     index: nat, k: nat): FlyTo
    requires forall f :: f in OrbitFields ==> f in look
    requires p.circles >= 1
  {
    var view := LookAt(look["longitude"], look["latitude"], look["altitude"], AltitudeModeOf(s.altitudeMode),
                       None, VNum(HeadingAt(s.start, s.direction, k)), look["tilt"], look["range"], begin,
                       Moment(end, k as real * (p.total / (p.circles * 36) as real)));
    FlyTo(Some(p.total / Steps(p.circles) as real), s.mode, LookAtView(view), index, FromOrbit)
  }

  /** All the FlyTos of an orbit of `p.circles` circles, in order. */
  function OrbitSteps(look: map<string, Value>, s: Setup, p: Plan, begin: Moment, end: DateTime,
                      index: nat): (fs: seq<FlyTo>)
    requires forall f :: f in OrbitFields ==> f in look
    requires p.circles >= 1
    ensures |fs| == Steps(p.circles)
    ensures forall k :: 0 <= k < |fs| ==> fs[k] == OrbitStep(look, s, p, begin, end, index, k)
  {
    seq(Steps(p.circles), k requires 0 <= k => OrbitStep(look, s, p, begin, end, index, k))
  }

  /** The orbit branch, entered when the look-at sets both a starting heading
      and a rotation count. Nothing is emitted unless the five view fields are
      set, or when the rotation count truncates to a negative number. */
  method MakeOrbit(look: map<string, Value>, flyto: map<string, Value>, index: nat,
                   begin: Moment, end: DateTime) returns (r: Result<seq<FlyTo>>)
    ensures AllTruthy(look, OrbitFields).Err? ==> r == Err(AllTruthy(look, OrbitFields).error)
    ensures r.Ok? && r.value == [] ==>
      || AllTruthy(look, OrbitFields) == Ok(false)
      || (AllTruthy(look, OrbitFields) == Ok(true) && OrbitPlan(look).Ok? && OrbitPlan(look).value.circles < 0)
    ensures AllTruthy(look, OrbitFields) == Ok(true) && OrbitPlan(look).Err? ==> r == Err(OrbitPlan(look).error)
    ensures r.Ok? && r.value != [] ==>
      && AllTruthy(look, OrbitFields) == Ok(true)
      && OrbitPlan(look).Ok? && OrbitPlan(look).value.circles >= 1 && OrbitSetup(look, flyto).Ok?
      && |r.value| == Steps(OrbitPlan(look).value.circles)
      && forall k :: 0 <= k < |r.value| ==>
           r.value[k] == OrbitStep(look, OrbitSetup(look, flyto).value, OrbitPlan(look).value, begin, end, index, k)
    ensures (AllTruthy(look, OrbitFields) == Ok(true) && OrbitPlan(look).Ok? && OrbitPlan(look).value.circles >= 1
             && OrbitSetup(look, flyto).Ok?) ==> r.Ok? && r.value != []
  {
    var inside :- AllTruthy(look, OrbitFields);
    if !inside {
      return Ok([]);
    }
    var plan :- OrbitPlan(look);
    r := Circles(look, flyto, plan, index, begin, end);
  }

  /** The outer loop of the orbit, once the view fields are known to be set
      and the plan has been read. */
  method Circles(look: map<string, Value>, flyto: map<string, Value>, plan: Plan, index: nat,
                 begin: Moment, end: DateTime) returns (r: Result<seq<FlyTo>>)
    requires AllTruthy(look, OrbitFields) == Ok(true) && OrbitPlan(look) == Ok(plan)
    ensures r.Ok? && r.value == [] ==> plan.circles < 0
    ensures r.Ok? && r.value != [] ==>
      && plan.circles >= 1 && OrbitSetup(look, flyto).Ok?
      && |r.value| == Steps(plan.circles)
      && forall k :: 0 <= k < |r.value| ==>
           r.value[k] == OrbitStep(look, OrbitSetup(look, flyto).value, plan, begin, end, index, k)
    ensures plan.circles >= 1 && OrbitSetup(look, flyto).Ok? ==> r.Ok? && r.value != []
  {
    var c, total := plan.circles, plan.total;
    var duration: real;
    if c > 1 {
      duration := total / (37 + (c - 1) * 36) as real;
    } else {
      duration := total / (c * 37) as real;
    }
    var span := plan.total / (plan.circles * 36) as real;
    if c >= 1 {
      PerStep(c, total, duration);
    }
    var out: seq<FlyTo> := [];
    var setup := Setup(0.0, None, VNone, VNone);
    var heading := 0.0;
    var elapsed := 0.0;
    var x := 0;
    while x < c
      invariant 0 <= x && (x <= c || x == 0)
      invariant x >= 1 ==> OrbitSetup(look, flyto) == Ok(setup)
      invariant |out| == Steps(x)
      invariant x == 0 ==> out == [] && elapsed == 0.0
      invariant x >= 1 ==> Tracking(look, setup, plan, begin, end, index, out, heading, elapsed)
      decreases c - x
    {
      var divisor: int;
      if x == 0 {
        setup :- OrbitSetup(look, flyto);
        heading := setup.start;
        divisor := 37;
        assert elapsed == |out| as real * span by {
          assert |out| as real * span == 0.0 * span;
        }
      } else {
        divisor := 36;
        Elapsed(look, setup, plan, begin, end, index, out, heading, elapsed, span);
      }
      out, heading, elapsed := Circle(look, setup, plan, begin, end, index, out, heading, elapsed,
                                      duration, span, divisor);
      x := x + 1;
    }
    return Ok(out);
  }

  /** The time-keeper of a tracked loop state is one span per FlyTo. */
  lemma Elapsed(look: map<string, Value>, s: Setup, p: Plan, begin: Moment, end: DateTime,
                index: nat, out: seq<FlyTo>, heading: real, elapsed: real, span: real)
    requires Tracking(look, s, p, begin, end, index, out, heading, elapsed)
    requires span == p.total / (p.circles * 36) as real
    ensures elapsed == |out| as real * span
  {
  }

  /** Both ways the source divides the orbit's duration give the time of one
      of its `Steps` FlyTos. */
  lemma PerStep(c: int, total: real, duration: real)
    requires c >= 1
    requires duration == if c > 1 then total / (37 + (c - 1) * 36) as real else total / (c * 37) as real
    ensures duration == total / Steps(c) as real
  {
    if c > 1 {
      assert 37 + (c - 1) * 36 == Steps(c);
    } else {
      assert c * 37 == Steps(c);
    }
  }

  /** The loop state agrees with the step function: every emitted FlyTo is
      the step of its position, and heading and time-keeper are ready for the
      next one. */
  ghost predicate Tracking(look: map<string, Value>, s: Setup, p: Plan, begin: Moment, end: DateTime,
                           index: nat, out: seq<FlyTo>, heading: real, elapsed: real)
  {
    && (forall f :: f in OrbitFields ==> f in look)
    && p.circles >= 1
    && heading == HeadingAt(s.start, s.direction, |out|)
    && elapsed == |out| as real * (p.total / (p.circles * 36) as real)
    && forall k :: 0 <= k < |out| ==> out[k] == OrbitStep(look, s, p, begin, end, index, k)
  }

  /** The inner loop: `divisor` more FlyTos, turning the heading and advancing
      the time-keeper after each. */
  method Circle(look: map<string, Value>, s: Setup, p: Plan, begin: Moment, end: DateTime, index: nat,
                out0: seq<FlyTo>, heading0: real, elapsed0: real, duration: real, span: real, divisor: int)
    returns (out: seq<FlyTo>, heading: real, elapsed: real)
    requires forall f :: f in OrbitFields ==> f in look
    requires p.circles >= 1 && duration == p.total / Steps(p.circles) as real
    requires span == p.total / (p.circles * 36) as real && divisor >= 0
    requires heading0 == HeadingAt(s.start, s.direction, |out0|)
    requires elapsed0 == |out0| as real * span
    requires forall k :: 0 <= k < |out0| ==> out0[k] == OrbitStep(look, s, p, begin, end, index, k)
    ensures |out| == |out0| + divisor
    ensures Tracking(look, s, p, begin, end, index, out, heading, elapsed)
  {
    out, heading, elapsed := out0, heading0, elapsed0;
    var y := 0;
    while y < divisor
      invariant 0 <= y <= divisor
      invariant |out| == |out0| + y
      invariant Tracking(look, s, p, begin, end, index, out, heading, elapsed)
    {
      var view := LookAt(look["longitude"], look["latitude"], look["altitude"],
                         AltitudeModeOf(s.altitudeMode), None, VNum(heading),
                         look["tilt"], look["range"], begin, Moment(end, elapsed));
      Advance(look, s, p, begin, end, index, out, heading, elapsed, duration, span);
      out := out + [FlyTo(Some(duration), s.mode, LookAtView(view), index, FromOrbit)];
      elapsed := elapsed + span;
      if s.direction == VStr("clockwise") {
        heading := Mod360(heading + 10.0);
      }
      if s.direction == VStr("counterclockwise") {
        heading := Mod360(heading - 10.0);
      }
      y := y + 1;
    }
  }

  /** One more FlyTo keeps the loop state in step: the FlyTo built from the
      current heading and time-keeper is the next step, and both advance. */
  lemma Advance(look: map<string, Value>, s: Setup, p: Plan, begin: Moment, end: DateTime, index: nat,
                out: seq<FlyTo>, heading: real, elapsed: real, duration: real, span: real)
    requires Tracking(look, s, p, begin, end, index, out, heading, elapsed)
    requires duration == p.total / Steps(p.circles) as real && span == p.total / (p.circles * 36) as real
    ensures var view := LookAt(look["longitude"], look["latitude"], look["altitude"],
                               AltitudeModeOf(s.altitudeMode), None, VNum(heading),
                               look["tilt"], look["range"], begin, Moment(end, elapsed));
      Tracking(look, s, p, begin, end, index, out + [FlyTo(Some(duration), s.mode, LookAtView(view), index, FromOrbit)],
               Turn(heading, s.direction), elapsed + span)
  {
    NextSpan(|out|, span);
    var next := OrbitStep(look, s, p, begin, end, index, |out|);
    var out' := out + [next];
    forall k | 0 <= k < |out'| ensures out'[k] == OrbitStep(look, s, p, begin, end, index, k) {
      if k < |out| { assert out'[k] == out[k]; }
    }
  }

  lemma NextSpan(n: nat, span: real)
    ensures (n + 1) as real * span == n as real * span + span
  {
  }

  /** Sum of the FlyTo durations of a playlist stretch (unset counts as 0). */
  function TotalDuration(fs: seq<FlyTo>): real {
    if fs == [] then 0.0
    else (if fs[0].duration.Some? then fs[0].duration.value else 0.0) + TotalDuration(fs[1..])
  }

  /** Played one after another, the orbit's FlyTos last exactly the look-at's
      duration. */
  lemma {:induction false} OrbitLastsDuration(look: map<string, Value>, s: Setup, p: Plan, begin: Moment, end: DateTime,
                           index: nat, fs: seq<FlyTo>)
    requires forall f :: f in OrbitFields ==> f in look
    requires p.circles >= 1 && |fs| == Steps(p.circles)
    requires forall k :: 0 <= k < |fs| ==> fs[k] == OrbitStep(look, s, p, begin, end, index, k)
    ensures TotalDuration(fs) == p.total
  {
    var n := Steps(p.circles);
    var d := p.total / n as real;
    StepsDurations(look, s, p, begin, end, index, fs);
    EqualShares(fs, d);
    assert TotalDuration(fs) == n as real * d;
    Shares(n, p.total);
  }

  lemma {:induction false} StepsDurations(look: map<string, Value>, s: Setup, p: Plan, begin: Moment, end: DateTime,
                       index: nat, fs: seq<FlyTo>)
    requires forall f :: f in OrbitFields ==> f in look
    requires p.circles >= 1
    requires forall k :: 0 <= k < |fs| ==> fs[k] == OrbitStep(look, s, p, begin, end, index, k)
    ensures forall k :: 0 <= k < |fs| ==> fs[k].duration == Some(p.total / Steps(p.circles) as real)
  {
    forall k | 0 <= k < |fs| ensures fs[k].duration == Some(p.total / Steps(p.circles) as real) {
      StepDuration(look, s, p, begin, end, index, k);
    }
  }

  lemma StepDuration(look: map<string, Value>, s: Setup, p: Plan, begin: Moment, end: DateTime,
                     index: nat, k: nat)
    requires forall f :: f in OrbitFields ==> f in look
    requires p.circles >= 1
    ensures OrbitStep(look, s, p, begin, end, index, k).duration == Some(p.total / Steps(p.circles) as real)
  {
  }

  lemma Shares(n: int, total: real)
    requires n > 0
    ensures n as real * (total / n as real) == total
  {
  }

  lemma {:induction false} EqualShares(fs: seq<FlyTo>, d: real)
    requires forall k :: 0 <= k < |fs| ==> fs[k].duration == Some(d)
    ensures TotalDuration(fs) == |fs| as real * d
  {
    if fs != [] {
      EqualShares(fs[1..], d);
    }
  }

  /** The last FlyTo's time span ends exactly the look-at's duration after the
      point's own time. */
  lemma OrbitEndsAfterDuration(look: map<string, Value>, s: Setup, p: Plan, begin: Moment, end: DateTime,
                               index: nat)
    requires forall f :: f in OrbitFields ==> f in look
    requires p.circles >= 1
    ensures var last := OrbitStep(look, s, p, begin, end, index, Steps(p.circles) - 1);
      last.view.lookAt.end == Moment(end, p.total)
  {
    var c := p.circles;
    assert (Steps(c) - 1) as real == (c * 36) as real;
  }
}
