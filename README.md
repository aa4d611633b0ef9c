# MilkMachine tour export and CSV import, modelled in Dafny

MilkMachine is a QGIS plugin that turns a GPS track into a Google Earth tour.
Each point of the track carries per-point directives as Python dictionary
literals: a `lookat`, a `camera`, a `flyto`, an `iconstyle`, a `labelstyle` and
a `model`. `exportToFile` writes those directives out as KML. `loadCSVLayer`
reads a CSV track and computes each point's `datetime` text. This project models
those two functions and proves what they guarantee:

- `Values`: Python values as they appear in the directive dictionaries (`None`,
  numbers, text). It covers Python truthiness, dictionary lookup that raises
  `KeyError`, `% 360` on degrees and `int()` truncation. Python exceptions
  become the `Err` case of a `Result`.
- `Text`: the string built-ins the code relies on. These are `str.split`,
  `int()`, `float()` on plain decimal text, zero padding for `strftime`, and a
  case-insensitive search standing in for `re.search(f, s, re.I)`.
- `Utm`: `wgs84LatLonToUTMZone` and the proj4 text of
  `makeCoordinateReferenceSystem`.
- `Timestamps`: the datetime text of a point (`yyyy/mm/dd HH:MM:SS ffffff`),
  how it is parsed and formatted, and the FlyTo durations derived from
  consecutive points.
- `Directives`: the one-letter key tables (`lookatBack`, `cameraBack`) that
  expand a stored directive back to field names.
- `Views`: one camera FlyTo or one custom look-at FlyTo: placement, heading,
  altitude modes, duration and time span.
- `Orbit`: the "circle around" look-at, a run of `36 * rotations + 1` FlyTos
  that turn 10 degrees each.
- `Tour`: one iteration of the tour loop, and the tour state it updates.
- `Export`: the pre-pass over datetimes, the tour loop, and `exportToFile` as
  a whole.
- `Decoration`: the Points folder (icon and label styles), the Models folder,
  and the choice of output format.
- `Import`: `loadCSVLayer`: the header check, the layer and shapefile names,
  and the per-row datetime loop.

The loops of the source are methods. `Export.BuildTour`, `Export.ExportTour`,
`Export.ExportToFile`, `Decoration.PointsPass`, `Decoration.ModelsPass`,
`Import.CheckHeader`, `Import.ReadRows`, `Import.ImportTimes` and
`Import.LoadCsvLayer` are each proved against a recursive specification
function. Further lemmas prove what that function promises.

Several operations take a `Reading`. `AsWritten` follows the code exactly,
including the three defects listed under "## Findings"; `Intended` uses the
corrected definitions instead. `Decoration.IconColor`, `Import.StampTexts`,
`Import.ImportTimes`, `Import.LoadCsvLayer` and `Export.ExportToFile` are
stated for both readings, so the code as written is what they model at
`AsWritten`.

A few behaviours of the code are modelled as they are:

- `math.sqrt` of a negative number raises `ValueError`.
- The UTM zone handed to the proj4 string is a Python 2 float, so the text
  reads `+zone=48.0`.
- When a FlyTo's `duration` is `None`, the camera FlyTo takes the derived
  duration of its point.
- When no description attribute can be read, the altitude recovery path names
  the unimported `traceback` module and raises `NameError`.

## Model

| member | source | states |
|---|---|---|
| Values.AllTruthy | src/MilkMachine/MMExport.py:186 | a chained `and` of dictionary lookups is true exactly when every key is present and truthy, and fails with KeyError only when a key is missing before the chain settles |
| Values.AnyTruthy | src/MilkMachine/MMExport.py:352 | a chained `or` of lookups is true exactly when some key, reached after only present keys, is truthy; false means all keys are present and falsy |
| Values.Mod360 | src/MilkMachine/MMExport.py:241-243 | Python's `% 360` on degrees lands in [0, 360) and differs from its argument by whole turns |
| Values.Mod360Shift | src/MilkMachine/MMExport.py:241-243 | reducing before adding a turn gives the same heading as reducing afterwards |
| Values.Trunc | src/MilkMachine/MMExport.py:187 | `int()` of a float truncates toward zero |
| Text.IntToStringRoundTrip | src/MilkMachine/MMExport.py:654 | `int()` reads back what `str()` wrote for every integer |
| Text.PadRoundTrip | src/MilkMachine/MMImport.py:97 | `int()` reads back a zero-padded strftime field |
| Text.ParseInt | src/MilkMachine/MMImport.py:89-95 | `int()` of text ignores surrounding white space; digit text is its decimal value, and text that strips to nothing fails |
| Text.ParseIntSpaced | src/MilkMachine/MMImport.py:89-95 | a white-space character before or after the text does not change what `int()` reads, so `int(' 2014')` is 2014 |
| Text.StripKeeps | src/MilkMachine/MMImport.py:89-95 | stripping removes white space only |
| Text.Float | src/MilkMachine/MMExport.py:249 | `float()` of a number is itself, of `None` a TypeError, of text its decimal reading |
| Text.ParseDecimalWhole | src/MilkMachine/MMExport.py:249 | `float()` of digits, bare or after `+`, is their value, and after `-` its negation |
| Text.ParseDecimalPointed | src/MilkMachine/MMExport.py:249 | `float()` of digits, a point and digits (either side may be empty, not both), bare or after `+`, is the whole part plus the fraction, and after `-` its negation |
| Text.SplitJoin | src/MilkMachine/MMExport.py:92-93 | joining the pieces of `str.split` with the separator gives back the text |
| Text.JoinSplit | src/MilkMachine/MMExport.py:750 | splitting a join of separator-free pieces gives back the pieces |
| Text.SplitLast | src/MilkMachine/MMImport.py:49 | `split(c)[-1]` is the text after the last separator |
| Text.FindCI | src/MilkMachine/MMImport.py:30 | a case-insensitive search that succeeds names a position where the pattern matches |
| Text.FindCIFirst | src/MilkMachine/MMImport.py:30 | that position is the first match, and a failed search means no position matches |
| Utm.PyIndex | src/MilkMachine/MMExport.py:29-30 | Python indexing: negative indices count from the end, out-of-range indices raise IndexError |
| Utm.AdjustZone | src/MilkMachine/MMExport.py:31-48 | only bands V and X move a zone, by one: 31V east of 3E becomes 32, and zones 32, 34 and 36 never occur in band X |
| Utm.Resolve | src/MilkMachine/MMExport.py:10-50 | the result exists exactly when the band index is a valid Python index; the band is a letter of the band table and the zone is the adjusted longitude zone |
| Utm.ResolveInDomain | src/MilkMachine/MMExport.py:10-50 | for latitudes in [-80, 84] and longitudes in [-180, 180) the zone is in 1..60 and the band is the one the latitude selects |
| Utm.ResolveAt | src/MilkMachine/MMExport.py:10-50 | the zone and band follow from the floor of the longitude and latitude bins |
| Utm.KnownPoints | src/MilkMachine/MMExport.py:10-50 | known cities resolve to their published zones (48P, 18S, 31U, 56H, 23K, 32V) |
| Utm.OutOfDomain | src/MilkMachine/MMExport.py:29-30 | south of -80 the negative index wraps to band X, and north of 84 the lookup raises IndexError |
| Utm.Proj4String | src/MilkMachine/MMExport.py:64-72 | the text starts with the fixed UTM/WGS84 prefix and ends in ` +south` exactly for southern latitudes |
| Utm.Proj4ZoneRoundTrip | src/MilkMachine/MMExport.py:64-72 | the zone can be read back from the proj4 text |
| Timestamps.MakeDateTime | src/MilkMachine/MMExport.py:98 | `datetime(...)` succeeds exactly on a valid calendar date and time of day |
| Timestamps.ParseStamp | src/MilkMachine/MMExport.py:92-98 | a parsed datetime is valid, and text without a space fails with IndexError |
| Timestamps.FormatStamp | src/MilkMachine/MMImport.py:97 | Python 2 `strftime` refuses years before 1900 and formats all others |
| Timestamps.StampRoundTrip | src/MilkMachine/MMExport.py:92-98 | the export's parser reads back exactly the datetime that the import formatted |
| Timestamps.TicksWithinDay | src/MilkMachine/MMExport.py:105 | within one day, the difference of two datetimes is the difference of their clock fields in microseconds |
| Timestamps.DayWrap | src/MilkMachine/MMExport.py:107 | `timedelta.seconds` with microseconds lies within one day and differs from the true gap by whole days |
| Timestamps.DeriveDurations | src/MilkMachine/MMExport.py:103-113 | one duration per point: each is the day-wrapped gap to the next point, the last repeats the one before, and a single point is an IndexError |
| Timestamps.DurationIsGap | src/MilkMachine/MMExport.py:107 | a gap shorter than a day is its own duration |
| Timestamps.DurationDropsDays | src/MilkMachine/MMExport.py:107 | a gap of a day and a second lasts one second, and a backwards second lasts almost a day |
| Directives.Decode | src/MilkMachine/MMExport.py:124-130 | expanding one-letter keys fails with KeyError exactly on an unknown key; otherwise it keeps every value and the number of entries |
| Directives.Rename | src/MilkMachine/MMExport.py:293-299 | renaming through an injective table succeeds exactly when all keys are known, and then gives the renamed map |
| Directives.RenamingAt | src/MilkMachine/MMExport.py:296-298 | each value lands under the expanded name of its key, and the keys are exactly the expanded names |
| Directives.RenamingSize | src/MilkMachine/MMExport.py:296-298 | renaming loses no entry |
| Directives.BackInjective | src/MilkMachine/MMExport.py:124 | no two short keys expand to the same field name, in either table |
| Directives.CameraRoundTrip | src/MilkMachine/MMExport.py:484-491 | expanding what the camera editor encoded gives back the original dictionary |
| Views.AltitudeModeOf | src/MilkMachine/MMExport.py:257-266 | `absolute` and `clampToGround` map to themselves; `relativeToGround`, `relativeToPoint` and `relativeToModel` all map to relative-to-ground; anything else sets no mode |
| Views.AltitudeModeKnown | src/MilkMachine/MMExport.py:429-439 | an altitude mode is set exactly for the five known names |
| Views.GxAltitudeModeOf | src/MilkMachine/MMExport.py:450-454 | only the two sea-floor modes are recognised |
| Views.KmlTime | src/MilkMachine/MMExport.py:182 | a KML time is the point's datetime, and strftime refuses years before 1900 |
| Views.FlyToMode | src/MilkMachine/MMExport.py:345-346 | the fly-to mode is set exactly when the directive's value is truthy, to that value |
| Views.CameraDuration | src/MilkMachine/MMExport.py:338-344 | a truthy duration is read with `float()`, `None` takes the point's derived duration (IndexError past the end), and any other falsy value leaves the duration unset |
| Views.IfSetFloat | src/MilkMachine/MMExport.py:612-615 | a setting is copied through `float()` exactly when it is truthy |
| Views.PlaceOffset | src/MilkMachine/MMExport.py:352-376 | an offset placement keeps the point's coordinates and their UTM zone, and applies each offset exactly when it is set |
| Views.PlaceBehind | src/MilkMachine/MMExport.py:378-414 | a follow placement projects the camera behind the point, along the heading plus the follow angle (180 by default) reduced mod 360, with a non-negative squared leg |
| Views.Place | src/MilkMachine/MMExport.py:351-421 | the camera is placed exactly when longitude and latitude are both set; otherwise the follow angle is left as it was |
| Views.PlaceLocated | src/MilkMachine/MMExport.py:351-421 | an offset wins when either offset is set; otherwise range, heading and altitude together mean follow, and anything else copies the coordinates; only following updates the follow angle |
| Views.CameraHeading | src/MilkMachine/MMExport.py:457-465 | a heading is set exactly when given; with a follow angle it is turned by the angle plus 180 and reduced mod 360, and with a heading offset the offset is added, reduced mod 360 and rounded to one decimal, so it lies in [0, 360] (a NameError if no angle was ever computed); without a follow angle the first camera copies it and later cameras read it with `float()` |
| Views.CameraFacesPoint | src/MilkMachine/MMExport.py:457-463 | a follow camera without heading offset faces back along its bearing to the point |
| Views.CameraFlyTo | src/MilkMachine/MMExport.py:335-473 | the camera FlyTo has the duration rule's duration and the flyto directive's mode; its placement, new follow angle and heading are those above; its altitude, altitude modes (through the editor's names), gx:horizon, roll and tilt are the directive's when set, roll and tilt through `float()` after the first camera; it spans from the tour start to the point's time |
| Views.CameraSetters | src/MilkMachine/MMExport.py:427-469 | the setters after the placement, in order: the camera gets the directive's settings and the heading above, keeps the placement, and spans the given times |
| Views.PlaceIgnoresFollow | src/MilkMachine/MMExport.py:351-421 | the placement itself does not depend on the follow angle left by an earlier point |
| Views.HeadingIgnoresFollow | src/MilkMachine/MMExport.py:457-465 | without a follow angle in the directive, the heading does not depend on the follow angle variable |
| Views.FloatValue | src/MilkMachine/MMExport.py:466-469 | a camera setting is present exactly when truthy, and then is its `float()` reading |
| Views.LookAtFlyTo | src/MilkMachine/MMExport.py:246-274 | a custom look-at FlyTo is made exactly when all six view fields are truthy; it copies longitude, latitude, altitude, heading, tilt and range from the directive, takes its altitude mode from the directive's `altitudemode`, keeps `gxaltitudemode` exactly when it is truthy, takes the flyto directive's mode, and spans the given time; its duration is set exactly when the flyto's duration is truthy, and is then its `float()` |
| Orbit.Steps | src/MilkMachine/MMExport.py:188-211 | an orbit of c circles has 36c + 1 FlyTos, and none when c < 1 |
| Orbit.ClockwiseHeading | src/MilkMachine/MMExport.py:240-241 | clockwise, the k-th heading is the start plus 10k degrees, mod 360 |
| Orbit.CounterclockwiseHeading | src/MilkMachine/MMExport.py:242-243 | counterclockwise, the k-th heading is the start minus 10k degrees, mod 360 |
| Orbit.StillHeading | src/MilkMachine/MMExport.py:240-243 | any other direction keeps the start heading |
| Orbit.CircleCloses | src/MilkMachine/MMExport.py:240-243 | after 36 turns the heading is back at the start |
| Orbit.Periodic | src/MilkMachine/MMExport.py:240-243 | headings repeat every 36 steps |
| Orbit.OrbitPlan | src/MilkMachine/MMExport.py:186-197 | the circle count is `int(float(rotations))` and the total is the `float()` of the duration |
| Orbit.OrbitSetup | src/MilkMachine/MMExport.py:203-215 | the start heading, the direction and the fly-to mode come from the directives |
| Orbit.MakeOrbit | src/MilkMachine/MMExport.py:185-243 | reading a view field that is missing fails; the orbit is empty when a view field is falsy or the rotation count truncates below zero, and non-empty exactly when the view fields are truthy, the plan reads and there is at least one circle; it then has `Steps` FlyTos, each the specified orbit step |
| Orbit.Circles | src/MilkMachine/MMExport.py:186-243 | once the fields are set and the plan read: empty only for a negative circle count, otherwise `Steps` FlyTos, each the specified orbit step, whenever the start heading and mode read |
| Orbit.PerStep | src/MilkMachine/MMExport.py:187-195 | both of the source's divisions of the orbit's duration give the duration over `Steps` FlyTos |
| Orbit.Circle | src/MilkMachine/MMExport.py:198-243 | the loop appends one FlyTo per step while the heading and elapsed time track the specification |
| Orbit.OrbitLastsDuration | src/MilkMachine/MMExport.py:188-197 | the FlyTo durations of an orbit add up to the requested duration |
| Orbit.StepsDurations | src/MilkMachine/MMExport.py:188-213 | every orbit FlyTo lasts the total divided by the number of steps |
| Orbit.OrbitEndsAfterDuration | src/MilkMachine/MMExport.py:192-237 | the last orbit view's time span ends the requested duration after the point's time |
| Tour.TourName | src/MilkMachine/MMExport.py:144-147 | the tour takes the FlyTo's name when truthy and "Tour" otherwise, so the name is never empty |
| Tour.FirstQualifying | src/MilkMachine/MMExport.py:120-134 | finds the first point with a look-at or camera before a bound, and reports none only when no earlier point has one |
| Tour.OpenTour | src/MilkMachine/MMExport.py:134-168 | opening the tour names it, fixes its start at the point's time, cues the sound, and changes nothing else |
| Tour.LookAtFlyTos | src/MilkMachine/MMExport.py:184-274 | the orbit branch runs exactly when both a starting heading and a rotation count are set; the FlyTos are then the orbit's (`Steps` of them, the k-th being the k-th orbit step, as `Orbit.MakeOrbit` makes them), and otherwise the custom FlyTo when one is made; none is from a camera, and each is owed to the point |
| Tour.LookAtOpen | src/MilkMachine/MMExport.py:134-274 | at the first qualifying point the tour is opened; the FlyTos made are exactly the ones the directive describes, timed from the tour start |
| Tour.LookAtClose | src/MilkMachine/MMExport.py:275-283 | the FlyTos join the playlist, the counter moves on and the document look-at is set the first time |
| Tour.Directive | src/MilkMachine/MMExport.py:123-130 | decoding a stored directive succeeds exactly when it parses and all its keys are known |
| Tour.LookAtRecord | src/MilkMachine/MMExport.py:275-283 | the FlyTos join the playlist; the first look-at becomes the document view, which is a NameError when no FlyTo was ever made |
| Tour.LookAtWith | src/MilkMachine/MMExport.py:123-283 | a look-at point opens the tour if needed, appends exactly the look-at FlyTos its directive describes and advances the counter, keeping the tour state consistent |
| Tour.LookAtPoint | src/MilkMachine/MMExport.py:123-283 | decodes the point's look-at directive and then does what `Tour.LookAtWith` does; the FlyTos it appends are exactly the ones the decoded directive describes |
| Tour.CameraEntry | src/MilkMachine/MMExport.py:286-626 | a camera point yields one camera FlyTo that its point owes: the duration rule, the flyto mode, the placement, the settings and the heading of its directive, timed from the tour start to the point's time; the follow angle afterwards is the one its placement leaves |
| Tour.CameraWith | src/MilkMachine/MMExport.py:286-626 | a camera point opens the tour if needed (start with zero microseconds), appends exactly one camera FlyTo, the one its directive describes, records it as the document camera the first time, and updates the follow angle as its placement says |
| Tour.CameraRecord | src/MilkMachine/MMExport.py:473-626 | the camera FlyTo joins the playlist, the counter moves on, and the first camera becomes the document camera |
| Tour.CameraPoint | src/MilkMachine/MMExport.py:286-626 | decodes the point's camera directive and then does what `Tour.CameraWith` does |
| Tour.Step | src/MilkMachine/MMExport.py:120-631 | a point without directives changes nothing; otherwise the counter grows, the playlist is extended by what the point made, the first point opens the tour, the look-at FlyTos added are exactly those its look-at directive describes, and a camera point adds exactly one camera FlyTo, the one its camera directive describes, and moves the follow angle |
| Tour.CountAppend | src/MilkMachine/MMExport.py:120-631 | counting a point's FlyTos distributes over the playlist |
| Export.ParseStamps | src/MilkMachine/MMExport.py:88-100 | the pre-pass succeeds exactly when every datetime parses, with one valid datetime per point, and otherwise fails with some point's error |
| Export.StampsValid | src/MilkMachine/MMExport.py:88-100 | every datetime from the pre-pass is valid |
| Export.BuildTour | src/MilkMachine/MMExport.py:117-631 | the loop's tour is the one built point by point: named after the first point with directives, every FlyTo owed to the point it came from, each point's look-at FlyTos exactly those its directive describes, and exactly one camera FlyTo per camera point, the one its directive describes |
| Export.LookedStep | src/MilkMachine/MMExport.py:120-631 | after one more point, every earlier point's look-at FlyTos are unchanged and the new point's are its own |
| Export.ShotStep | src/MilkMachine/MMExport.py:120-631 | after one more point, every camera FlyTo is still the one its point's directive describes |
| TourContent.LookedOrbit | src/MilkMachine/MMExport.py:184-243 | in a built tour, an orbiting look-at point contributes `Steps` FlyTos, the k-th being the k-th orbit step |
| TourContent.LookedCustom | src/MilkMachine/MMExport.py:246-274 | in a built tour, a non-orbiting look-at point whose custom FlyTo is made contributes exactly that FlyTo |
| Export.ExportTour | src/MilkMachine/MMExport.py:76-631 | a one-point layer always fails; a tour that is built comes from a successful pre-pass |
| Export.ExportToFile | src/MilkMachine/MMExport.py:76-799 | a finished export has that tour, the Points and Models folders of the specification in the chosen reading, and the output format the path names, read with `split('.')[1]` as written and from the last dot when corrected |
| Decoration.HexOf | src/MilkMachine/MMExport.py:662 | `hex()` gives one digit below 16 and two digits below 256 |
| Decoration.KmlAlpha | src/MilkMachine/MMExport.py:657-662 | the intended alpha is two hex digits that read back as the value |
| Decoration.KmlAlphaInjective | src/MilkMachine/MMExport.py:657-662 | distinct alpha values give distinct alpha text |
| Decoration.TransToKmlHexAgrees | src/MilkMachine/MMExport.py:657-662 | the code as written agrees with the intended alpha below 10 and from 16 up |
| Decoration.TransToKmlHexShort | src/MilkMachine/MMExport.py:657-662 | from 10 to 15 the code as written gives one digit, so the colour has seven characters |
| Decoration.TransToKmlHexAt10 | src/MilkMachine/MMExport.py:657-662 | 10 is written as `a` instead of `0a` |
| Decoration.PaletteColor | src/MilkMachine/MMExport.py:670 | a colour name is looked up in the palette and is a KeyError when missing |
| Decoration.IconColor | src/MilkMachine/MMExport.py:669-674 | the icon colour is set exactly when a colour is given: the palette colour, with its alpha replaced by `transtokmlhex` of the transparency (as written) or the two-digit alpha (corrected) when one is set |
| Decoration.IconColorKeepsHue | src/MilkMachine/MMExport.py:671-674 | replacing the alpha keeps the colour's last six digits, and the new alpha reads back as the transparency value; as written this holds for every alpha outside 10..15 |
| Decoration.IconColorShort | src/MilkMachine/MMExport.py:657-674 | as written, a transparency giving an alpha from 10 to 15 yields a seven-character colour |
| Decoration.IconOf | src/MilkMachine/MMExport.py:667-682 | each icon setting is copied exactly when truthy |
| Decoration.LabelOf | src/MilkMachine/MMExport.py:687-694 | each label setting is copied exactly when truthy, the colour through the palette |
| Decoration.PointOf | src/MilkMachine/MMExport.py:644-694 | a point is made exactly for an icon style; it has its counter as name, the point's coordinates, description and time, and a label exactly when a label style is set |
| Decoration.PointsPass | src/MilkMachine/MMExport.py:636-696 | the Points loop gives the Points folder of the specification |
| Decoration.PointsFailed | src/MilkMachine/MMExport.py:636-696 | the first failing point ends the Points loop with its error |
| Decoration.PointsNamed | src/MilkMachine/MMExport.py:654 | there is one point per styled point, each named after its own index, in increasing order |
| Decoration.PointNamesDistinct | src/MilkMachine/MMExport.py:654 | no two points share a name |
| Decoration.ModelTitle | src/MilkMachine/MMExport.py:719-720 | the title is the time and the month/day/year of the point, refused before 1900 |
| Decoration.TitleReadsBack | src/MilkMachine/MMExport.py:719-720 | the title's two words read back as the point's time and date |
| Decoration.AltitudeField | src/MilkMachine/MMExport.py:750 | a recorded altitude needs a fifth comma field holding a `": "` |
| Decoration.AltitudeFromDescription | src/MilkMachine/MMExport.py:750 | the value of the fifth `name: value` field of the description is what is read |
| Decoration.DescribedAltitude | src/MilkMachine/MMExport.py:747-757 | reads `descriptio`, then `Descriptio`, and raises NameError when both fail |
| Decoration.ModelLocation | src/MilkMachine/MMExport.py:735-762 | longitude and latitude default to the point's coordinates, and the altitude is set exactly when given, with `altitude` meaning the recorded one |
| Decoration.ScaleOf | src/MilkMachine/MMExport.py:769-772 | a given scale applies equally on all three axes |
| Decoration.ModelOf | src/MilkMachine/MMExport.py:707-772 | only a point with a model directive gets a model |
| Decoration.ModelDescribed | src/MilkMachine/MMExport.py:707-772 | the model has the title, its link when set, and a location and time exactly when linked; it is relative to ground exactly when located with an altitude; the scale is the directive's |
| Decoration.ModelsPass | src/MilkMachine/MMExport.py:700-775 | the Models loop gives the Models folder of the specification |
| Decoration.ModelsNext | src/MilkMachine/MMExport.py:700-775 | each point's model error ends the loop, its model is appended, or nothing happens |
| Decoration.ModelsCounted | src/MilkMachine/MMExport.py:700-775 | one model per point with a model directive, each with a uniform scale |
| Decoration.FormatNamed | src/MilkMachine/MMExport.py:782-797 | exactly six extensions name an output format |
| Decoration.OutputFormatNoDot | src/MilkMachine/MMExport.py:782 | a path without a dot raises IndexError |
| Decoration.OutputFormatAsWrittenOneDot | src/MilkMachine/MMExport.py:782-797 | with a single dot the code as written reads the extension |
| Decoration.OutputFormatAsWrittenDottedFolder | src/MilkMachine/MMExport.py:782-797 | with a dot in the folder the code as written reads the text after the first dot instead |
| Decoration.OutputFormatAsWrittenExample | src/MilkMachine/MMExport.py:782-797 | `v1.2/walk.kml` is not saved as written, and is saved as KML by the corrected reading |
| Decoration.OutputFormatIsExtension | src/MilkMachine/MMExport.py:779-799 | the corrected format is the one named by the text after the last dot |
| Import.MatchOf | src/MilkMachine/MMImport.py:30-32 | a column is found exactly when the search succeeds, and the kept text is the column name as spelled in the header |
| Import.FoundAll | src/MilkMachine/MMImport.py:29-36 | at most one column per name; all five are kept exactly when every name occurs, each in its header spelling |
| Import.CheckHeader | src/MilkMachine/MMImport.py:29-36 | the loop keeps the found columns in order, and keeps all of them exactly when each name occurs |
| Import.ReadRows | src/MilkMachine/MMImport.py:23-39 | the row count is the number of rows, and only the first row is checked as a header |
| Import.LayerOfPath | src/MilkMachine/MMImport.py:49-61 | for `dir/name.ext` the layer is `name` and the shapefile is `dir/name.shp` |
| Import.RowDate | src/MilkMachine/MMImport.py:89-95 | an unknown date format never binds the datetime, so the row fails with NameError |
| Import.DateOrderRearranges | src/MilkMachine/MMImport.py:89-95 | month-first and day-first dates read as the same year, month and day rearranged to year-first |
| Import.DateFields | src/MilkMachine/MMImport.py:95-97 | a written date reads back as its year, month and day |
| Import.Microseconds | src/MilkMachine/MMImport.py:83-87 | whole seconds mean zero microseconds, and a second dot is a ValueError |
| Import.MicroFraction | src/MilkMachine/MMImport.py:83-87 | six fraction digits read back as the same microseconds |
| Import.RowTime | src/MilkMachine/MMImport.py:79-95 | a row's datetime, when it exists, is valid |
| Import.RowTimeRoundTrip | src/MilkMachine/MMImport.py:79-97 | with the seconds read correctly, a row written as date and time with microseconds reads back as that datetime |
| Import.RowTimeAsWritten | src/MilkMachine/MMImport.py:79-95 | as written, a row's datetime is valid whenever it exists |
| Import.AsWrittenWholeSeconds | src/MilkMachine/MMImport.py:91-95 | as written, every datetime that is read has zero microseconds |
| Import.RowTimeAsWrittenRefuses | src/MilkMachine/MMImport.py:91-95 | as written, a time with a fractional second is a ValueError |
| Import.Collect | src/MilkMachine/MMImport.py:76-97 | collecting per-row texts gives one text per row |
| Import.CollectFailed | src/MilkMachine/MMImport.py:76-97 | the first failing row ends the loop with its error |
| Import.CollectAt | src/MilkMachine/MMImport.py:76-97 | each collected text is that row's own result |
| Import.StampTexts | src/MilkMachine/MMImport.py:79-97 | the k-th datetime text is the k-th row's, converted with the seconds as written or as intended |
| Import.ExportedRowRefused | src/MilkMachine/MMImport.py:91-95 | a row written with its microseconds fails the whole loop as written, and converts back to its datetime when corrected |
| Import.CollectTexts | src/MilkMachine/MMImport.py:76-97 | the loop over the rows' results appends each text in turn and ends with the first failure |
| Import.StampsReadBack | src/MilkMachine/MMImport.py:97 | every stored datetime text reads back, through the export's parser, as its row's datetime |
| Import.ImportTimes | src/MilkMachine/MMImport.py:76-97 | the loop computes the datetime texts of the specification in the chosen reading |
| Import.LoadCsvLayer | src/MilkMachine/MMImport.py:20-110 | the short-track warning shows exactly below ten rows; a layer is returned exactly when the header has all five columns and every row's datetime converts in the chosen reading, with the layer name, the shapefile path and the datetime texts |

## Left out

- File reading, the QGIS layer objects, the message bar, message boxes and the logger are left out. The CSV rows come in as a header text plus per-row date and time texts, and the layer's features come in as a sequence of records.
- Writing the shapefile, the `uri` text and `shapepath_line` are not modelled; only the shapefile path is.
- `eval` of the stored directive text is not modelled. Each feature carries the directive's parse result (a map or an error).
- The header search runs on `str(row)`, Python's printed form of the row's list. The model takes the header text as given.
- simplekml is not modelled. The output is a value (a playlist of FlyTos with their views, points and models) rather than KML text, and the `save`/`savekmz`/vector-writer calls become a format choice.
- `lastDirectory` is computed and then dropped by the source, so it is not modelled.
- Trigonometry, `math.sqrt`, `math.degrees` and the UTM projection (QgsCoordinateTransform) are kept symbolic. `Views.PlaceOffset` and `Views.PlaceBehind` record their inputs (coordinates, zone, offsets, bearing and squared leg) rather than computing projected coordinates.
- Floating point: degrees, durations and transparency are exact reals. The 2.55 scaling in `transtokmlhex` is exact, and so is the `float()` step of the microsecond reading.
- `Text.Float` reads only an optional sign, digits and one point. Exponents, `inf`, `nan` and digit-group underscores are not modelled.
- The six-decimal text rendering of `Durations` and its `float()` read-back are left out. Durations are integer microseconds, and `Views.CameraDuration` divides by 10^6.
- `%X` in the model title is taken in the C locale (`HH:MM:SS`).
- The orbit's time-keeper is exact real seconds; `timedelta` rounding to microseconds is not modelled.
- Tour.OwedTo: states each FlyTo's provenance and duration only. The look-at FlyTos themselves are stated one by one by `Export.Looked` through `Tour.LookOwed`, and the camera FlyTos by `Export.Shot` through `Tour.CameraOwed`.
- Tour.CameraEntry: when a camera directive sets `follow_angle` but its placement is not the follow placement, the heading depends on the follow angle an earlier point left. `Tour.CameraFrom`, and so `Export.BuildTour`, then state only that a heading is set exactly when given; `Views.CameraFlyTo` states it in terms of that angle.
- Import.ImportTimes: each row's text is computed before the loop, which appends the texts in turn and stops at the first failure. A row's text depends only on that row, so the outcome is the one the source's loop has.
- Import.Microseconds: in the corrected reading a seconds field with two dots is a ValueError. As written, `microsec` is left unbound, but `int()` of the same field fails first with ValueError, so the unbound (or stale) value is never used.
- Decoration.ModelOf: its `ensures` says only when a model exists. Its content is stated by `Decoration.ModelDescribed`.

## Findings

| source | as written | input that shows it | evidently intended | confidence | as-written member | corrected member |
|---|---|---|---|---|---|---|
| src/MilkMachine/MMExport.py:657-662 | `transtokmlhex` pads to two digits only below 10, and otherwise writes `hex(dec)[2:4]` | a transparency giving dec = 10 (about 4) yields `a` and a seven-character colour | a two-digit hex alpha for every value in 0..255 | not executed | Decoration.TransToKmlHexAt10, Decoration.TransToKmlHexShort, Decoration.IconColorShort | Decoration.KmlAlpha (with Decoration.TransToKmlHexAgrees, Decoration.KmlAlphaInjective, Decoration.IconColorKeepsHue) |
| src/MilkMachine/MMImport.py:91-95 | seconds read with `int(pointtime.split(':')[2])` after the fraction was split off separately | time `10:38:48.5` raises ValueError, so no layer is returned | seconds read from `sec_pieces[0]`, so fractional seconds import as microseconds | not executed | Import.RowTimeAsWrittenRefuses, Import.AsWrittenWholeSeconds, Import.ExportedRowRefused | Import.RowTime (with Import.RowTimeRoundTrip) |
| src/MilkMachine/MMExport.py:782-797 | the format is read from `exportPath.split('.')[1]` | `v1.2/walk.kml` reads `2/walk`, so nothing is written | the extension after the last dot | not executed | Decoration.OutputFormatAsWrittenExample, Decoration.OutputFormatAsWrittenDottedFolder | Decoration.OutputFormatIsExtension (with Decoration.OutputFormat) |
