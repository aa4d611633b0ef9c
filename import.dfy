/** The part of `loadCSVLayer` (MMImport.py:20-110) that decides whether a
    GPS track is accepted and writes each point's `datetime` attribute: the
    required-column check on the header row, the short-track warning, the
    layer name and working shapefile path, and the conversion of each row's
    date and time into the "%Y/%m/%d %H:%M:%S %f" text the export reads. */
module Import {
  import opened Values
  import opened Text
  import opened Timestamps

  /** The columns a track must have, in the order they are searched for. */
  const Required: seq<string> := ["date", "time", "x", "y", "altitude"]

  // ---------------------------------------------------------------- header

  /** The header text a name matches ignoring case, if it occurs. */
  function MatchOf(name: string, header: string): (r: Option<string>)
    ensures r.Some? <==> FindCI(name, header).Some?
    ensures r.Some? ==> |r.value| == |name| && forall j :: 0 <= j < |name| ==> Lower(r.value[j]) == Lower(name[j])
  {
    match FindCI(name, header)
    case None => None
    case Some(i) =>
      MatchSpelled(name, header, i);
      Some(header[i..i + |name|])
  }

  /** A match taken from the header spells its name up to case. */
  lemma MatchSpelled(name: string, header: string, i: nat)
    requires i + |name| <= |header| && MatchesAt(name, header, i)
    ensures |header[i..i + |name|]| == |name|
    ensures forall j :: 0 <= j < |name| ==> Lower(header[i..i + |name|][j]) == Lower(name[j])
  {
    var m := header[i..i + |name|];
    assert forall j :: 0 <= j < |name| ==> m[j] == header[i + j];
  }

  /** The present entries among the first `n`, in order. */
  function Kept(ms: seq<Option<string>>, n: nat): seq<string>
    requires n <= |ms|
  {
    if n == 0 then []
    else if ms[n - 1].Some? then Kept(ms, n - 1) + [ms[n - 1].value]
    else Kept(ms, n - 1)
  }

  /** At most one entry is kept per position. */
  lemma {:induction false} KeptAtMost(ms: seq<Option<string>>, n: nat)
    requires n <= |ms|
    ensures |Kept(ms, n)| <= n
  {
    if n > 0 {
      KeptAtMost(ms, n - 1);
    }
  }

  /** All `n` entries are kept exactly when none is absent. */
  lemma {:induction false} KeptAll(ms: seq<Option<string>>, n: nat)
    requires n <= |ms|
    ensures |Kept(ms, n)| == n <==> forall k :: 0 <= k < n ==> ms[k].Some?
  {
    if n > 0 {
      KeptAtMost(ms, n - 1);
      KeptAll(ms, n - 1);
    }
  }

  /** When none is absent, kept entry `k` is entry `k`. */
  lemma {:induction false} KeptAt(ms: seq<Option<string>>, n: nat, k: nat)
    requires k < n <= |ms|
    requires |Kept(ms, n)| == n
    ensures ms[k].Some? && Kept(ms, n)[k] == ms[k].value
    decreases n
  {
    KeptAtMost(ms, n - 1);
    if k < n - 1 {
      KeptAt(ms, n - 1, k);
    }
  }

  /** Each name's match in the header, in order. */
  function Matches(names: seq<string>, header: string): (r: seq<Option<string>>)
    ensures |r| == |names|
    ensures forall k :: 0 <= k < |names| ==> r[k] == MatchOf(names[k], header)
  {
    seq(|names|, k requires 0 <= k < |names| => MatchOf(names[k], header))
  }

  /** The header text matched by each of the first `n` names that occurs in
      it, case-insensitively, in order; names that do not occur are skipped. */
  function Found(names: seq<string>, header: string, n: nat): seq<string>
    requires n <= |names|
  {
    Kept(Matches(names, header), n)
  }

  /** Every name is found exactly when none is skipped, and each match spells
      its name up to case. */
  lemma FoundAll(names: seq<string>, header: string, n: nat)
    requires n <= |names|
    ensures |Found(names, header, n)| <= n
    ensures |Found(names, header, n)| == n <==> forall k :: 0 <= k < n ==> FindCI(names[k], header).Some?
    ensures |Found(names, header, n)| == n ==> forall k :: 0 <= k < n ==>
      var m := Found(names, header, n)[k];
      |m| == |names[k]| && forall j :: 0 <= j < |m| ==> Lower(m[j]) == Lower(names[k][j])
  {
    var ms := Matches(names, header);
    KeptAtMost(ms, n);
    KeptAll(ms, n);
    assert forall k :: 0 <= k < n ==> (ms[k].Some? <==> FindCI(names[k], header).Some?);
    if |Found(names, header, n)| == n {
      forall k | 0 <= k < n
        ensures var m := Found(names, header, n)[k];
          |m| == |names[k]| && forall j :: 0 <= j < |m| ==> Lower(m[j]) == Lower(names[k][j])
      {
        KeptAt(ms, n, k);
      }
    }
  }

  /** The header check (MMImport.py:29-36): each required name is searched
      for in the text of the header row, and each match is kept. */
  method CheckHeader(header: string) returns (userfields: seq<string>)
    ensures userfields == Found(Required, header, |Required|)
    ensures |userfields| == |Required| <==> forall k :: 0 <= k < |Required| ==> FindCI(Required[k], header).Some?
  {
    userfields := [];
    ghost var ms := Matches(Required, header);
    var i := 0;
    while i < |Required|
      invariant i <= |Required|
      invariant userfields == Kept(ms, i)
    {
      assert ms[i] == MatchOf(Required[i], header);
      var f := Required[i];
      var fre := FindCI(f, header);
      if fre.Some? {
        userfields := userfields + [header[fre.value..fre.value + |f|]];
      }
      i := i + 1;
    }
    FoundAll(Required, header, |Required|);
  }

  /** The row loop (MMImport.py:25-39): the header row is checked, and every
      row is counted. `rowTexts` are the rows as `str(row)` prints them. */
  method ReadRows(rowTexts: seq<string>) returns (userfields: seq<string>, count: nat)
    ensures count == |rowTexts|
    ensures userfields == if |rowTexts| == 0 then [] else Found(Required, rowTexts[0], |Required|)
  {
    userfields := [];
    var i := 0;
    while i < |rowTexts|
      invariant i <= |rowTexts|
      invariant userfields == if i == 0 then [] else Found(Required, rowTexts[0], |Required|)
    {
      if i == 0 {
        userfields := CheckHeader(rowTexts[i]);
      }
      i := i + 1;
    }
    count := i;
  }

  // ---------------------------------------------------------------- paths

  /** `gpsPath.split(".")[0].split('/')[-1]`. */
  function LayerName(path: string): string {
    var parts := Split(Split(path, '.')[0], '/');
    parts[|parts| - 1]
  }

  /** `gpsPath.split(".")[0] + '.shp'`. */
  function ShapePath(path: string): string {
    Split(path, '.')[0] + ".shp"
  }

  /** For a file in a folder whose path has no dot, the layer is named after
      the file, and the working shapefile sits beside the track. */
  lemma LayerOfPath(dir: string, name: string, ext: string)
    requires '.' !in dir && '.' !in name && '/' !in name
    ensures LayerName(dir + "/" + name + "." + ext) == name
    ensures ShapePath(dir + "/" + name + "." + ext) == dir + "/" + name + ".shp"
  {
    var stem := dir + "/" + name;
    assert '.' !in stem;
    assert dir + "/" + name + "." + ext == stem + ['.'] + ext;
    SplitAt(stem, '.', ext);
    assert stem == dir + ['/'] + name;
    SplitLast(dir, '/', name);
  }

  // ---------------------------------------------------------------- rows

  /** The (year, month, day) positions in the '/'-separated date for each
      date format the user can choose (MMImport.py:89-95). Any other format
      assigns no datetime, so the conversion fails with NameError. */
  function DateOrder(dateFormat: string): (r: Result<(nat, nat, nat)>)
    ensures r.Err? ==> r.error == NameError
  {
    if dateFormat == "mm/dd/yyyy" then Ok((2, 0, 1))
    else if dateFormat == "dd/mm/yyyy" then Ok((2, 1, 0))
    else if dateFormat == "yyyy/mm/dd" then Ok((0, 1, 2))
    else Err(NameError)
  }

  /** The year, month and day of a row (MMImport.py:89-95): the date format
      is chosen first, then the three fields are read with `int()` in that
      order. */
  function RowDate(date: string, dateFormat: string): (r: Result<(int, int, int)>)
    ensures DateOrder(dateFormat).Err? ==> r == Err(NameError)
  {
    var order :- DateOrder(dateFormat);
    var dparts := Split(date, '/');
    var y :- IntField(dparts, order.0);
    var mo :- IntField(dparts, order.1);
    var d :- IntField(dparts, order.2);
    Ok((y, mo, d))
  }

  /** Day-first and month-first dates read as the same date written year
      first. */
  lemma DateOrderRearranges(p0: string, p1: string, p2: string)
    requires '/' !in p0 && '/' !in p1 && '/' !in p2
    ensures RowDate(p0 + "/" + p1 + "/" + p2, "mm/dd/yyyy") == RowDate(p2 + "/" + p0 + "/" + p1, "yyyy/mm/dd")
    ensures RowDate(p0 + "/" + p1 + "/" + p2, "dd/mm/yyyy") == RowDate(p2 + "/" + p1 + "/" + p0, "yyyy/mm/dd")
  {
    MonthFirst(p0, p1, p2);
    DayFirst(p0, p1, p2);
  }

  lemma MonthFirst(p0: string, p1: string, p2: string)
    requires '/' !in p0 && '/' !in p1 && '/' !in p2
    ensures RowDate(p0 + "/" + p1 + "/" + p2, "mm/dd/yyyy") == RowDate(p2 + "/" + p0 + "/" + p1, "yyyy/mm/dd")
  {
    DateWords(p0, p1, p2);
    DateWords(p2, p0, p1);
    var a, b := Split(p0 + "/" + p1 + "/" + p2, '/'), Split(p2 + "/" + p0 + "/" + p1, '/');
    assert IntField(a, 2) == IntField(b, 0) && IntField(a, 0) == IntField(b, 1) && IntField(a, 1) == IntField(b, 2);
  }

  lemma DayFirst(p0: string, p1: string, p2: string)
    requires '/' !in p0 && '/' !in p1 && '/' !in p2
    ensures RowDate(p0 + "/" + p1 + "/" + p2, "dd/mm/yyyy") == RowDate(p2 + "/" + p1 + "/" + p0, "yyyy/mm/dd")
  {
    DateWords(p0, p1, p2);
    DateWords(p2, p1, p0);
    var a, b := Split(p0 + "/" + p1 + "/" + p2, '/'), Split(p2 + "/" + p1 + "/" + p0, '/');
    assert IntField(a, 2) == IntField(b, 0) && IntField(a, 1) == IntField(b, 1) && IntField(a, 0) == IntField(b, 2);
  }

  lemma DateWords(a: string, b: string, c: string)
    requires '/' !in a && '/' !in b && '/' !in c
    ensures Split(a + "/" + b + "/" + c, '/') == [a, b, c]
  {
    ThreeFields(a, b, c, '/');
    assert a + "/" + b + "/" + c == a + ['/'] + b + ['/'] + c;
  }

  /** A year-first date as the export writes it reads back as its own fields. */
  lemma DateFields(dt: DateTime)
    requires Valid(dt)
    ensures RowDate(DateText(dt), "yyyy/mm/dd") == Ok((dt.year, dt.month, dt.day))
  {
    assert DateText(dt) == Pad(dt.year, 4) + "/" + Pad(dt.month, 2) + "/" + Pad(dt.day, 2);
    NotInDigits(Pad(dt.year, 4), '/');
    NotInDigits(Pad(dt.month, 2), '/');
    NotInDigits(Pad(dt.day, 2), '/');
    PadRoundTrip(dt.year, 4);
    PadRoundTrip(dt.month, 2);
    PadRoundTrip(dt.day, 2);
    YearFirst(Pad(dt.year, 4), Pad(dt.month, 2), Pad(dt.day, 2));
  }

  lemma YearFirst(a: string, b: string, c: string)
    requires '/' !in a && '/' !in b && '/' !in c
    requires ParseInt(a).Ok? && ParseInt(b).Ok? && ParseInt(c).Ok?
    ensures RowDate(a + "/" + b + "/" + c, "yyyy/mm/dd") == Ok((ParseInt(a).value, ParseInt(b).value, ParseInt(c).value))
  {
    DateWords(a, b, c);
  }

  /** The microsecond split as written (MMImport.py:83-87): whole seconds
      give 0, one fractional part gives that fraction in microseconds, and
      more parts leave `microsec` unassigned (None). */
  function MicrosecondsAsWritten(pieces: seq<string>): Result<Option<int>>
    requires |pieces| > 0
  {
    if |pieces| == 1 then Ok(Some(0))
    else if |pieces| == 2 then
      var x :- ParseDecimal("0." + pieces[1]);
      Ok(Some(Trunc(x * 1000000.0)))
    else Ok(None)
  }

  /** A row's date and time as written (MMImport.py:79-95): the seconds are
      read with `int(pointtime.split(':')[2])`, the whole field, fraction
      included. */
  function RowTimeAsWritten(date: string, time: string, dateFormat: string): (r: Result<DateTime>)
    ensures r.Ok? ==> Valid(r.value)
  {
    var tparts := Split(time, ':');
    if |tparts| < 3 then Err(IndexError)
    else
      var micro :- MicrosecondsAsWritten(Split(tparts[2], '.'));
      var ymd :- RowDate(date, dateFormat);
      var h :- IntField(tparts, 0);
      var mi :- IntField(tparts, 1);
      var s :- IntField(tparts, 2);
      match micro
      case Some(us) => MakeDateTime(ymd.0, ymd.1, ymd.2, h, mi, s, us)
      case None => Err(NameError)
  }

  /** Digits, a point and more text do not make an integer. */
  lemma DotNotInt(a: string, b: string)
    requires |a| > 0 && AllDigits(a)
    ensures ParseInt(a + "." + b) == Err(ValueError)
  {
    var s := a + "." + b;
    assert s[|a|] == '.';
    var t := Strip(s);
    StripKeeps(s);
    assert '.' in t;
    assert !AllDigits(t) by { var k :| 0 <= k < |t| && t[k] == '.'; }
    if |t| > 0 && (t[0] == '-' || t[0] == '+') {
      assert t[0] in s;
      assert t[0] == a[0] || t[0] == '.' || t[0] in b;
    }
  }

  /** As written, a row converts only when its seconds have no fraction, so
      every converted time has microsecond 0. */
  lemma AsWrittenWholeSeconds(date: string, time: string, dateFormat: string)
    requires RowTimeAsWritten(date, time, dateFormat).Ok?
    ensures RowTimeAsWritten(date, time, dateFormat).value.micro == 0
  {
    var tparts := Split(time, ':');
    IntHasNoDot(tparts[2]);
    SplitNone(tparts[2], '.');
  }

  /** Text that `int()` accepts holds no '.'. */
  lemma IntHasNoDot(s: string)
    requires ParseInt(s).Ok?
    ensures '.' !in s
  {
    StripKeeps(s);
  }

  /** The microsecond split as intended: the fraction in microseconds, and
      ValueError for more than one point. */
  function Microseconds(pieces: seq<string>): (r: Result<int>)
    requires |pieces| > 0
    ensures |pieces| == 1 ==> r == Ok(0)
    ensures |pieces| > 2 ==> r == Err(ValueError)
  {
    if |pieces| == 1 then Ok(0)
    else if |pieces| == 2 then
      var x :- ParseDecimal("0." + pieces[1]);
      Ok(Trunc(x * 1000000.0))
    else Err(ValueError)
  }

  /** A row's date and time as intended: the seconds are the whole part of
      the seconds field. */
  function RowTime(date: string, time: string, dateFormat: string): (r: Result<DateTime>)
    ensures r.Ok? ==> Valid(r.value)
  {
    var tparts := Split(time, ':');
    if |tparts| < 3 then Err(IndexError)
    else
      var pieces := Split(tparts[2], '.');
      var micro :- Microseconds(pieces);
      var ymd :- RowDate(date, dateFormat);
      var h :- IntField(tparts, 0);
      var mi :- IntField(tparts, 1);
      var s :- ParseInt(pieces[0]);
      MakeDateTime(ymd.0, ymd.1, ymd.2, h, mi, s, micro)
  }

  /** "0." followed by digits reads as their fraction. */
  lemma PointFraction(p: string)
    requires AllDigits(p)
    ensures ParseDecimal("0." + p) == Ok(Fraction(p))
  {
    var t := "0." + p;
    assert t == "0" + ['.'] + p;
    FindFirst("0", '.', p);
    assert t[..1] == "0" && t[2..] == p;
    assert ValueOf("0") == 0 by {
      assert "0"[..0] == [];
    }
  }

  /** The clock text "HH:MM:SS.ffffff" of a datetime. */
  function ClockText(dt: DateTime): string
    requires Valid(dt)
  {
    TimeText(dt) + "." + Pad(dt.micro, 6)
  }

  lemma ClockFields(dt: DateTime)
    requires Valid(dt)
    ensures Split(ClockText(dt), ':') == [Pad(dt.hour, 2), Pad(dt.minute, 2), Pad(dt.second, 2) + "." + Pad(dt.micro, 6)]
    ensures Split(Pad(dt.second, 2) + "." + Pad(dt.micro, 6), '.') == [Pad(dt.second, 2), Pad(dt.micro, 6)]
  {
    var sec, us := Pad(dt.second, 2), Pad(dt.micro, 6);
    NotInDigits(Pad(dt.hour, 2), ':');
    NotInDigits(Pad(dt.minute, 2), ':');
    NotInDigits(sec, ':');
    NotInDigits(us, ':');
    NotInDigits(sec, '.');
    NotInDigits(us, '.');
    assert ':' !in sec + "." + us;
    assert ClockText(dt) == Pad(dt.hour, 2) + [':'] + Pad(dt.minute, 2) + [':'] + (sec + "." + us);
    ThreeFields(Pad(dt.hour, 2), Pad(dt.minute, 2), sec + "." + us, ':');
    SplitAt(sec, '.', us);
    SplitNone(us, '.');
  }

  /** A year-first date with a clock time to the microsecond converts back to
      the same datetime. */
  lemma RowTimeRoundTrip(dt: DateTime)
    requires Valid(dt)
    ensures RowTime(DateText(dt), ClockText(dt), "yyyy/mm/dd") == Ok(dt)
  {
    ClockFields(dt);
    DateFields(dt);
    MicroFraction(Pad(dt.second, 2), dt.micro);
    PadRoundTrip(dt.hour, 2);
    PadRoundTrip(dt.minute, 2);
    PadRoundTrip(dt.second, 2);
  }

  /** Microseconds padded to six places are six digits spelling the number. */
  lemma SixDigits(us: nat)
    requires us < 1000000
    ensures AllDigits(Pad(us, 6)) && |Pad(us, 6)| == 6 && ValueOf(Pad(us, 6)) == us
    ensures Pow10(|Pad(us, 6)|) == 1000000
  {
    PadRoundTrip(us, 6);
    assert Pow10(6) == 1000000 by {
      assert Pow10(0) == 1;
    }
    DigitsLength(us, 6);
  }

  /** Six zero-padded digits of fraction give back the microseconds. */
  lemma MicroFraction(sec: string, us: nat)
    requires us < 1000000
    ensures Microseconds([sec, Pad(us, 6)]) == Ok(us)
  {
    var p := Pad(us, 6);
    SixDigits(us);
    PointFraction(p);
    var x := Fraction(p);
    assert x == us as real / 1000000.0;
    assert x * 1000000.0 == us as real;
    assert Trunc(us as real) == us;
  }

  /** As written, the same text is refused: the fraction reaches `int()`. */
  lemma RowTimeAsWrittenRefuses(dt: DateTime)
    requires Valid(dt)
    ensures RowTimeAsWritten(DateText(dt), ClockText(dt), "yyyy/mm/dd") == Err(ValueError)
  {
    ClockFields(dt);
    DateFields(dt);
    PointFraction(Pad(dt.micro, 6));
    PadRoundTrip(dt.hour, 2);
    PadRoundTrip(dt.minute, 2);
    DotNotInt(Pad(dt.second, 2), Pad(dt.micro, 6));
  }

  // ---------------------------------------------------------------- datetimes

  /** A row's datetime, read as the code is written or as intended. */
  function RowDateTime(row: (string, string), dateFormat: string, reading: Reading): (r: Result<DateTime>)
    ensures r.Ok? ==> Valid(r.value)
  {
    match reading
    case AsWritten => RowTimeAsWritten(row.0, row.1, dateFormat)
    case Intended => RowTime(row.0, row.1, dateFormat)
  }

  /** The `datetime` text one row gets (MMImport.py:79-96): its datetime
      written "%Y/%m/%d %H:%M:%S %f". */
  function StampText(row: (string, string), dateFormat: string, reading: Reading): Result<string> {
    var dt :- RowDateTime(row, dateFormat, reading);
    FormatStamp(dt)
  }

  /** The values of the first `n` results in order, or the first error
      among them. */
  function Collect(results: seq<Result<string>>, n: nat): (r: Result<seq<string>>)
    requires n <= |results|
    ensures r.Ok? ==> |r.value| == n
  {
    if n == 0 then Ok([])
    else
      match Collect(results, n - 1)
      case Err(e) => Err(e)
      case Ok(before) =>
        match results[n - 1]
        case Err(e) => Err(e)
        case Ok(text) => Ok(before + [text])
  }

  /** Once a result fails, every longer prefix fails with the same error. */
  lemma {:induction false} CollectFailed(results: seq<Result<string>>, n: nat, m: nat)
    requires n <= m <= |results|
    requires Collect(results, n).Err?
    ensures Collect(results, m) == Collect(results, n)
    decreases m
  {
    if m > n {
      CollectFailed(results, n, m - 1);
    }
  }

  /** When the first `n` results succeed, entry `k` is result `k`'s value. */
  lemma {:induction false} CollectAt(results: seq<Result<string>>, n: nat, k: nat)
    requires k < n <= |results|
    requires Collect(results, n).Ok?
    ensures results[k] == Ok(Collect(results, n).value[k])
    decreases n
  {
    if k < n - 1 {
      CollectAt(results, n - 1, k);
    }
  }

  /** One more result either ends the collection with its error or adds its
      value. */
  lemma CollectNext(results: seq<Result<string>>, n: nat)
    requires n < |results|
    requires Collect(results, n).Ok?
    ensures results[n].Err? ==> Collect(results, |results|) == Err(results[n].error)
    ensures results[n].Ok? ==> Collect(results, n + 1) == Ok(Collect(results, n).value + [results[n].value])
  {
    if results[n].Err? {
      CollectFailed(results, n + 1, |results|);
    }
  }

  /** Each row's text, in row order. */
  function StampTexts(rows: seq<(string, string)>, dateFormat: string, reading: Reading): (r: seq<Result<string>>)
    ensures |r| == |rows|
    ensures forall k :: 0 <= k < |rows| ==> r[k] == StampText(rows[k], dateFormat, reading)
  {
    seq(|rows|, k requires 0 <= k < |rows| => StampText(rows[k], dateFormat, reading))
  }

  /** The `datetime` texts of the first `n` rows; the first failure is the
      outcome. */
  function Stamps(rows: seq<(string, string)>, dateFormat: string, reading: Reading, n: nat): (r: Result<seq<string>>)
    requires n <= |rows|
    ensures r.Ok? ==> |r.value| == n
  {
    Collect(StampTexts(rows, dateFormat, reading), n)
  }

  /** The export's parser reads `text` back as the row's own datetime. */
  ghost predicate ReadsBack(row: (string, string), dateFormat: string, reading: Reading, text: string) {
    RowDateTime(row, dateFormat, reading).Ok? && ParseStamp(text) == Ok(RowDateTime(row, dateFormat, reading).value)
  }

  /** A row's text, once written, reads back as that row's datetime. */
  lemma TextReadsBack(row: (string, string), dateFormat: string, reading: Reading)
    requires StampText(row, dateFormat, reading).Ok?
    ensures ReadsBack(row, dateFormat, reading, StampText(row, dateFormat, reading).value)
  {
    StampRoundTrip(RowDateTime(row, dateFormat, reading).value);
  }

  /** What the import writes, the export's parser reads back as each row's
      own datetime. */
  lemma StampsReadBack(rows: seq<(string, string)>, dateFormat: string, reading: Reading)
    requires Stamps(rows, dateFormat, reading, |rows|).Ok?
    ensures forall k :: 0 <= k < |rows| ==> ReadsBack(rows[k], dateFormat, reading, Stamps(rows, dateFormat, reading, |rows|).value[k])
  {
    forall k | 0 <= k < |rows|
      ensures ReadsBack(rows[k], dateFormat, reading, Stamps(rows, dateFormat, reading, |rows|).value[k])
    {
      CollectAt(StampTexts(rows, dateFormat, reading), |rows|, k);
      TextReadsBack(rows[k], dateFormat, reading);
    }
  }

  /** As written, a single row in the form the export writes, fraction of a
      second included, leaves the conversion failing, so the import yields
      no layer; as intended, that row reads as its own datetime. */
  lemma ExportedRowRefused(rows: seq<(string, string)>, k: nat, dt: DateTime)
    requires k < |rows| && Valid(dt) && rows[k] == (DateText(dt), ClockText(dt))
    ensures Stamps(rows, "yyyy/mm/dd", AsWritten, |rows|).Err?
    ensures RowDateTime(rows[k], "yyyy/mm/dd", Intended) == Ok(dt)
  {
    RowTimeAsWrittenRefuses(dt);
    RowTimeRoundTrip(dt);
    if Stamps(rows, "yyyy/mm/dd", AsWritten, |rows|).Ok? {
      CollectAt(StampTexts(rows, "yyyy/mm/dd", AsWritten), |rows|, k);
    }
  }

  /** The datetime loop (MMImport.py:77-97): one text per row, `fid_dt`. */
  method ImportTimes(rows: seq<(string, string)>, dateFormat: string, reading: Reading) returns (r: Result<seq<string>>)
    ensures r == Stamps(rows, dateFormat, reading, |rows|)
  {
    r := CollectTexts(StampTexts(rows, dateFormat, reading));
  }

  /** The loop over the rows' results: each text is appended in turn, and
      the first failure ends the loop as the outcome. */
  method CollectTexts(texts: seq<Result<string>>) returns (r: Result<seq<string>>)
    ensures r == Collect(texts, |texts|)
  {
    var fidDt: seq<string> := [];
    var i := 0;
    while i < |texts|
      invariant i <= |texts|
      invariant Collect(texts, i) == Ok(fidDt)
    {
      CollectNext(texts, i);
      var text :- texts[i];
      fidDt := fidDt + [text];
      i := i + 1;
    }
    return Ok(fidDt);
  }

  // ---------------------------------------------------------------- layer

  /** The layer `loadCSVLayer` returns: its name, its working shapefile and
      the `datetime` text written on each point. */
  datatype Layer = Layer(name: string, shapePath: string, datetimes: seq<string>)

  /** The import's outcome: whether the short-track warning is shown, and the
      layer, if any. */
  datatype Outcome = Outcome(shortWarning: bool, layer: Option<Layer>)

  /** `loadCSVLayer` (MMImport.py:20-110). `rowTexts` are the CSV rows as
      `str(row)` prints them and `rows` the (date, time) attributes of the
      points read back from the working shapefile; any failure while
      converting them is caught and yields no layer. `reading` chooses
      between the seconds field as written and as intended. */
  method LoadCsvLayer(path: string, rowTexts: seq<string>, rows: seq<(string, string)>, dateFormat: string, reading: Reading)
    returns (r: Outcome)
    ensures r.shortWarning <==> |rowTexts| < 10
    ensures r.layer.Some? <==>
      && |rowTexts| > 0
      && (forall k :: 0 <= k < |Required| ==> FindCI(Required[k], rowTexts[0]).Some?)
      && Stamps(rows, dateFormat, reading, |rows|).Ok?
    ensures r.layer.Some? ==> r.layer.value == Layer(LayerName(path), ShapePath(path), Stamps(rows, dateFormat, reading, |rows|).value)
  {
    var userfields, i := ReadRows(rowTexts);
    var shortWarning := i < 10;
    if |rowTexts| > 0 {
      FoundAll(Required, rowTexts[0], |Required|);
    }
    if |userfields| != 5 {
      return Outcome(shortWarning, None);
    }
    var layername := LayerName(path);
    var shapepath := ShapePath(path);
    var fidDt := ImportTimes(rows, dateFormat, reading);
    if fidDt.Err? {
      return Outcome(shortWarning, None);
    }
    return Outcome(shortWarning, Some(Layer(layername, shapepath, fidDt.value)));
  }
}
