/** Track time: the datetime text stored on each point by the import
    ("%Y/%m/%d %H:%M:%S %f"), the parser the export uses to read it back
    (MMExport.py:92-98), and the derivation of FlyTo durations from
    consecutive timestamps (MMExport.py:103-113). */
module Timestamps {
  import opened Values
  import opened Text

  /** A Python `datetime.datetime` value. */
  datatype DateTime = DateTime(year: int, month: int, day: int,
                               hour: int, minute: int, second: int, micro: int)

  predicate IsLeap(y: int) { y % 4 == 0 && (y % 100 != 0 || y % 400 == 0) }

  function DaysInMonth(y: int, m: int): int
    requires 1 <= m <= 12
  {
    if m == 2 then (if IsLeap(y) then 29 else 28)
    else if m in {4, 6, 9, 11} then 30
    else 31
  }

  /** The ranges `datetime.datetime(...)` accepts; anything else is ValueError. */
  predicate Valid(dt: DateTime) {
    && 1 <= dt.year <= 9999
    && 1 <= dt.month <= 12
    && 1 <= dt.day <= DaysInMonth(dt.year, dt.month)
    && 0 <= dt.hour < 24 && 0 <= dt.minute < 60 && 0 <= dt.second < 60
    && 0 <= dt.micro < 1000000
  }

  function MakeDateTime(y: int, mo: int, d: int, h: int, mi: int, s: int, us: int): (r: Result<DateTime>)
    ensures r.Ok? <==> Valid(DateTime(y, mo, d, h, mi, s, us))
    ensures r.Ok? ==> r.value == DateTime(y, mo, d, h, mi, s, us)
  {
    var dt := DateTime(y, mo, d, h, mi, s, us);
    if Valid(dt) then Ok(dt) else Err(ValueError)
  }

  function DaysBeforeMonth(y: int, m: int): int
    requires 1 <= m <= 12
  {
    if m == 1 then 0 else DaysBeforeMonth(y, m - 1) + DaysInMonth(y, m - 1)
  }

  function DaysBeforeYear(y: int): int {
    var p := y - 1;
    365 * p + p / 4 - p / 100 + p / 400
  }

  const DayMicros: int := 86400 * 1000000

  /** Microseconds since 0001-01-01 00:00 in the proleptic Gregorian
      calendar: the quantity `datetime` subtraction works on. */
  function Ticks(dt: DateTime): int
    requires Valid(dt)
  {
    var days := DaysBeforeYear(dt.year) + DaysBeforeMonth(dt.year, dt.month) + dt.day - 1;
    days * DayMicros + ((dt.hour * 60 + dt.minute) * 60 + dt.second) * 1000000 + dt.micro
  }

  /** Within one day, later clock readings have larger tick counts. */
  lemma TicksWithinDay(a: DateTime, b: DateTime)
    requires Valid(a) && Valid(b)
    requires a.year == b.year && a.month == b.month && a.day == b.day
    ensures Ticks(b) - Ticks(a) ==
      ((b.hour - a.hour) * 3600 + (b.minute - a.minute) * 60 + (b.second - a.second)) * 1000000
      + (b.micro - a.micro)
  {
  }

  /** `s[i]` followed by `int(...)`. */
  function IntField(parts: seq<string>, i: nat): (r: Result<int>)
    ensures i < |parts| ==> r == ParseInt(parts[i])
    ensures i >= |parts| ==> r == Err(IndexError)
  {
    if i < |parts| then ParseInt(parts[i]) else Err(IndexError)
  }

  /** The first three `c`-separated fields of a word, each read with `int`,
      left to right. */
  function Triple(word: string, c: char): (r: Result<(int, int, int)>)
    ensures r.Ok? ==> |Split(word, c)| >= 3
  {
    var parts := Split(word, c);
    var x :- IntField(parts, 0);
    var y :- IntField(parts, 1);
    var z :- IntField(parts, 2);
    Ok((x, y, z))
  }

  /** The export's reading of a point's datetime text: the first space-separated
      word is Y/M/D, the second H:M:S, and an optional third word holds the
      microseconds (a missing third word counts as 0). */
  function ParseStamp(s: string): (r: Result<DateTime>)
    ensures r.Ok? ==> Valid(r.value)
    ensures |Split(s, ' ')| < 2 ==> r == Err(IndexError)
  {
    var words := Split(s, ' ');
    if |words| < 2 then Err(IndexError)
    else
      var date :- Triple(words[0], '/');
      var time :- Triple(words[1], ':');
      var us :- if |words| >= 3 then ParseInt(words[2]) else Ok(0);
      MakeDateTime(date.0, date.1, date.2, time.0, time.1, time.2, us)
  }

  /** `dt.strftime("%Y/%m/%d %H:%M:%S %f")` as the import writes it. Python 2's
      strftime refuses years before 1900. */
  function FormatStamp(dt: DateTime): (r: Result<string>)
    requires Valid(dt)
    ensures r.Err? <==> dt.year < 1900
  {
    if dt.year < 1900 then Err(ValueError)
    else Ok(DateText(dt) + " " + TimeText(dt) + " " + Pad(dt.micro, 6))
  }

  function DateText(dt: DateTime): string
    requires Valid(dt)
  {
    Pad(dt.year, 4) + "/" + Pad(dt.month, 2) + "/" + Pad(dt.day, 2)
  }

  function TimeText(dt: DateTime): string
    requires Valid(dt)
  {
    Pad(dt.hour, 2) + ":" + Pad(dt.minute, 2) + ":" + Pad(dt.second, 2)
  }

  lemma NotInDigits(s: string, c: char)
    requires AllDigits(s) && !IsDigit(c)
    ensures c !in s
  {
  }

  lemma {:induction false} ThreeFields(a: string, b: string, d: string, c: char)
    requires c !in a && c !in b && c !in d
    ensures Split(a + [c] + b + [c] + d, c) == [a, b, d]
  {
    assert a + [c] + b + [c] + d == a + [c] + (b + [c] + d);
    SplitAt(a, c, b + [c] + d);
    SplitAt(b, c, d);
    SplitNone(d, c);
  }

  lemma PaddedTriple(x: nat, y: nat, z: nat, wx: nat, c: char)
    requires !IsDigit(c)
    ensures Triple(Pad(x, wx) + [c] + Pad(y, 2) + [c] + Pad(z, 2), c) == Ok((x, y, z))
  {
    NotInDigits(Pad(x, wx), c);
    NotInDigits(Pad(y, 2), c);
    NotInDigits(Pad(z, 2), c);
    ThreeFields(Pad(x, wx), Pad(y, 2), Pad(z, 2), c);
    PadRoundTrip(x, wx);
    PadRoundTrip(y, 2);
    PadRoundTrip(z, 2);
  }

  lemma StampWords(dt: DateTime)
    requires Valid(dt) && dt.year >= 1900
    ensures Split(FormatStamp(dt).value, ' ') == [DateText(dt), TimeText(dt), Pad(dt.micro, 6)]
  {
    var date, time, us := DateText(dt), TimeText(dt), Pad(dt.micro, 6);
    assert FormatStamp(dt).value == date + [' '] + time + [' '] + us;
    assert ' ' !in date by {
      NotInDigits(Pad(dt.year, 4), ' ');
      NotInDigits(Pad(dt.month, 2), ' ');
      NotInDigits(Pad(dt.day, 2), ' ');
    }
    assert ' ' !in time by {
      NotInDigits(Pad(dt.hour, 2), ' ');
      NotInDigits(Pad(dt.minute, 2), ' ');
      NotInDigits(Pad(dt.second, 2), ' ');
    }
    NotInDigits(us, ' ');
    ThreeFields(date, time, us, ' ');
  }

  /** What the import stores, the export reads back as the same datetime. */
  lemma StampRoundTrip(dt: DateTime)
    requires Valid(dt) && dt.year >= 1900
    ensures FormatStamp(dt).Ok? && ParseStamp(FormatStamp(dt).value) == Ok(dt)
  {
    StampWords(dt);
    assert DateText(dt) == Pad(dt.year, 4) + ['/'] + Pad(dt.month, 2) + ['/'] + Pad(dt.day, 2);
    assert TimeText(dt) == Pad(dt.hour, 2) + [':'] + Pad(dt.minute, 2) + [':'] + Pad(dt.second, 2);
    PaddedTriple(dt.year, dt.month, dt.day, 4, '/');
    PaddedTriple(dt.hour, dt.minute, dt.second, 2, ':');
    PadRoundTrip(dt.micro, 6);
  }

  /** `timedelta.seconds` plus `timedelta.microseconds`: the difference
      reduced into one day, because the `days` part is dropped. */
  function DayWrap(delta: int): (d: int)
    ensures 0 <= d < DayMicros
    ensures (delta - d) % DayMicros == 0
  {
    delta % DayMicros
  }

  /** The `Durations` list, in microseconds: one entry per point, each the
      wrapped gap to the next point's datetime, the last repeating the one
      before it. */
  method DeriveDurations(times: seq<DateTime>) returns (r: Result<seq<nat>>)
    requires forall k :: 0 <= k < |times| ==> Valid(times[k])
    ensures |times| == 0 ==> r == Ok([])
    ensures |times| == 1 ==> r == Err(IndexError)
    ensures |times| >= 2 ==> r.Ok? && |r.value| == |times|
    ensures |times| >= 2 ==> forall i {:trigger r.value[i]} :: 0 <= i < |times| - 1 ==> r.value[i] == DayWrap(Ticks(times[i + 1]) - Ticks(times[i]))
    ensures |times| >= 2 ==> r.value[|times| - 1] == r.value[|times| - 2]
  {
    var endRow := |times| - 1;
    var durations: seq<nat> := [];
    var i := 0;
    while i < |times|
      invariant 0 <= i <= |times|
      invariant |durations| == i
      invariant i > 0 ==> i < endRow
      invariant forall k {:trigger durations[k]} :: 0 <= k < i ==> durations[k] == DayWrap(Ticks(times[k + 1]) - Ticks(times[k]))
    {
      if i + 1 >= |times| {
        return Err(IndexError);
      }
      var d := DayWrap(Ticks(times[i + 1]) - Ticks(times[i]));
      durations := durations + [d];
      if i + 1 == endRow {
        durations := durations + [d];
        return Ok(durations);
      }
      i := i + 1;
    }
    return Ok(durations);
  }

  /** For a time-ordered track whose gaps are each under a day, the durations
      are exactly the gaps. */
  lemma DurationIsGap(delta: int)
    requires 0 <= delta < DayMicros
    ensures DayWrap(delta) == delta
  {
  }

  /** A gap of a day and a second shows as one second, and a step backwards
      in time as almost a full day. */
  lemma DurationDropsDays()
    ensures DayWrap(DayMicros + 1000000) == 1000000
    ensures DayWrap(-1000000) == DayMicros - 1000000
  {
  }
}
