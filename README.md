# Earth-on-web satellite viewer: a Dafny model of its discrete core

The viewer shows satellites on a 3-D globe and on a 2-D Mercator map. A Java
exporter builds its satellite catalogue from CelesTrak TLE feeds. This project
models the parts of that system that are discrete or algebraic, and proves
what they promise:

- **The TLE catalogue exporter** (`satellite_data_exporter.dfy`, with the Java
  string library it relies on in `java_text.dfy`). This covers:
  - the company name taken from a feed URL's `GROUP=` parameter;
  - the orbit class taken from the mean motion on TLE line 2;
  - the NORAD id taken from TLE line 1;
  - the `"no data"` defaults;
  - the scan that cuts a feed into 3-line blocks;
  - the launch-date lookup by NORAD id;
  - the two-digit month of the launch-date pages.
- **The footprint loader** (`footprint_loader.dfy`). This covers:
  - GeoJSON features turned into [lat, lon] paths;
  - flat point arrays grouped by `beamId ?? 'eirp'` in a Map, in first-appearance order;
  - the beam palette;
  - the per-satellite cache: each entry is built once, every update hides the others.
- **The configuration loader** (`configuration_loader.dfy`). This covers:
  - asset-URL resolution;
  - the `fetchJSON` fallback value;
  - the remote → local → built-in fallback chain of `loadConfigs`;
  - its `||=` / `??=` default fills;
  - the global scene scale.
- **The Mercator map** (`mercator_map.dfy`). This covers:
  - the linear longitude → x map and latitude clamping;
  - the day/night terminator sampling and which edge closes the night polygon;
  - the greedy label placer: draw data sorted by y, eight candidate rectangles
    tried in a fixed order, the first free one kept.
- **The LVLH orbit frame** (`orbit_frame.dfy`). This covers:
  - the cross-product construction of the three axes over the reals;
  - the degenerate-input guard that leaves the previous frame alone.
  The frame is a class holding three arrows.

State the source changes in place is modelled as classes:
- the footprint cache `FootprintCache`;
- the module-level configuration slots `ConfigLoader`;
- the orbit frame's arrows `Frame` / `Arrow`.

Loops become methods proved against specification functions, such as
`ExportBlocks`, `GetLaunchDateByNorad`, `GroupFlatPoints`, `PlaceLabel`,
`LayoutLabels` and `SampleTerminator`. Properties of those functions are
proved as lemmas.

I/O and the browser are parameters:
- HTTP fetches are given as their outcomes (`FetchOutcome`, `TleFetch`). A TLE
  feed's outcome is its whole text, which the model splits into lines as Java's
  `split("\\r?\\n")` does (`JavaText.SplitLines`).
- The launch-dates file is given as its parsed contents (`LaunchDatesFile`).
- Propagation results are given as `Propagation`.
- Text widths and leader-line ends are given as `DrawDatum`.
- Vector lengths are supplied with a proof obligation that they square to the
  squared norm.

A JavaScript exception is an explicit outcome value (`None`, `Throws`,
`Rejected` or `Threw`).

`ll2merc` in js/satelliteFootprintLoader.js:34-35 computes x and the latitude
clamp with the same expressions as `latLonToMercator`. Both are modelled once,
by `MercatorMap.LonToX` and `MercatorMap.ClampLat`.

## Model

| member | source | states |
|---|---|---|
| JavaText.IndexOf | src/com/openbexi/satellites/SatelliteDataExporter.java:215-218 | `indexOf(pat, from)` is -1 exactly when `pat` occurs nowhere at or after `from`; otherwise it is the first such occurrence |
| JavaText.ContainsIffOccurs | js/SatelliteConfigurationLoader.js:39 | `includes` holds exactly when the pattern occurs at some position |
| JavaText.TrimEmptyIffAllTrimmable | src/com/openbexi/satellites/SatelliteDataExporter.java:64 | `trim().isEmpty()` holds exactly when every character is at most U+0020 |
| JavaText.TrimIsInfix | src/com/openbexi/satellites/SatelliteDataExporter.java:68-70 | the trimmed line is the infix that starts after the leading blanks |
| JavaText.TrimEnds | src/com/openbexi/satellites/SatelliteDataExporter.java:68-70 | a non-empty trimmed line neither starts nor ends with a character up to U+0020 |
| JavaText.TrimDropsOnlyTrimmable | src/com/openbexi/satellites/SatelliteDataExporter.java:68-70 | every character trim removes is at most U+0020 |
| JavaText.LeadingCountIsLongestPrefix | src/com/openbexi/satellites/SatelliteDataExporter.java:64 | the leading count is the longest prefix of trimmable characters |
| JavaText.TrailingCountIsLongestSuffix | src/com/openbexi/satellites/SatelliteDataExporter.java:64 | the trailing count is the longest suffix of trimmable characters |
| JavaText.Trim | src/com/openbexi/satellites/SatelliteDataExporter.java:68-70 | `trim()` never lengthens a string; the four lemmas above pin down what it removes |
| JavaText.ToUpper | src/com/openbexi/satellites/SatelliteDataExporter.java:224 | ASCII upper-casing: the length is kept, a–z become A–Z and every other character is left alone (see Left out) |
| JavaText.ToUpperIdempotent | src/com/openbexi/satellites/SatelliteDataExporter.java:224 | no letter a–z is left after upper-casing, so upper-casing twice is upper-casing once |
| JavaText.SplitWhitespace | src/com/openbexi/satellites/SatelliteDataExporter.java:297 | `split("\\s+")` of a trimmed line yields non-empty tokens containing no `\s` character |
| JavaText.SplitSingleWord | src/com/openbexi/satellites/SatelliteDataExporter.java:297 | a word without whitespace splits into itself alone |
| JavaText.SplitJoinedWords | src/com/openbexi/satellites/SatelliteDataExporter.java:297 | words without `\s`, separated by non-empty runs of `\s` (the last optionally followed by more), split back into exactly those words in order: the tokens are the maximal non-`\s` runs |
| JavaText.LineLengthOfLine | src/com/openbexi/satellites/SatelliteDataExporter.java:61 | a line without `\n`, followed by `\n` or the end, is measured exactly |
| JavaText.DropTrailingEmpty | src/com/openbexi/satellites/SatelliteDataExporter.java:61 | the result is a prefix of the pieces that does not end in an empty string, and only empty strings were removed |
| JavaText.LinePiecesNoNewline | src/com/openbexi/satellites/SatelliteDataExporter.java:61 | no piece between line breaks contains `\n` |
| JavaText.SplitLinesShape | src/com/openbexi/satellites/SatelliteDataExporter.java:61 | `split("\\r?\\n")` yields lines without `\n`; when the text has a break, the last line is not empty |
| JavaText.FirstLinePiece | src/com/openbexi/satellites/SatelliteDataExporter.java:61 | a plain line followed by `\n` or `\r\n` is the first piece, the break removed |
| JavaText.LinePiecesOfJoined | src/com/openbexi/satellites/SatelliteDataExporter.java:61 | lines joined by `\n` or `\r\n` give back those lines as pieces, plus one empty piece when the text ends in a break |
| JavaText.SplitJoinedLines | src/com/openbexi/satellites/SatelliteDataExporter.java:61 | splitting plain lines joined by `\n` or `\r\n`, the last non-empty and optionally followed by a break, gives back exactly the lines |
| JavaText.SplitLines | src/com/openbexi/satellites/SatelliteDataExporter.java:61 | `split("\\r?\\n")`: the pieces between `\n` or `\r\n` breaks, with trailing empty pieces removed unless the text has no break; SplitLinesShape and SplitJoinedLines state what it returns |
| JavaText.SplitDropsTrailingBlankLines | src/com/openbexi/satellites/SatelliteDataExporter.java:61 | two plain lines followed by `"\n\n"` (as in `"NAME\nLINE1\n\n"`) split into exactly those two lines: the trailing empty strings are removed |
| JavaText.TwoLinesTwoBreaksPieces | src/com/openbexi/satellites/SatelliteDataExporter.java:61 | before the removal, that text has four pieces, the last two empty |
| JavaText.NatToDecimal | src/com/openbexi/satellites/SatelliteDataExporter.java:104 | `String.valueOf(n)` is a non-empty digit string, a single digit exactly below 10, with no leading zero |
| JavaText.DecimalRoundTrip | src/com/openbexi/satellites/SatelliteDataExporter.java:104 | reading back the digits `String.valueOf` writes gives the number |
| JavaText.ParseDecimalOfNat | src/com/openbexi/satellites/SatelliteDataExporter.java:301 | `Double.parseDouble` of a decimal integer gives that integer |
| JavaText.UnsignedDigits | src/com/openbexi/satellites/SatelliteDataExporter.java:301 | a plain digit string parses to the integer it spells |
| JavaText.DecimalFractionValue | src/com/openbexi/satellites/SatelliteDataExporter.java:301 | an unsigned decimal `d1.d2` reads as d1 + d2/10^\|d2\| |
| JavaText.ParseSignedDecimal | src/com/openbexi/satellites/SatelliteDataExporter.java:301 | a `+` or no sign keeps an unsigned decimal's value and a `-` negates it |
| JavaText.ParseDecimalFraction | src/com/openbexi/satellites/SatelliteDataExporter.java:301 | `Double.parseDouble("±d1.d2")`, the form of every TLE mean motion, gives ±(d1 + d2/10^\|d2\|) |
| JavaText.ParseDouble | src/com/openbexi/satellites/SatelliteDataExporter.java:301 | an empty or blank token never parses (a NumberFormatException) |
| SatelliteDataExporter.ExtractGroupFromUrl | src/com/openbexi/satellites/SatelliteDataExporter.java:213-225 | the company name never contains `&` |
| SatelliteDataExporter.GroupIsValueAfterKey | src/com/openbexi/satellites/SatelliteDataExporter.java:215-224 | with `GROUP=` first at k, the name is the upper-cased text after it up to the next `&` or the end |
| SatelliteDataExporter.GroupAbsentIsUpperCasedDefault | src/com/openbexi/satellites/SatelliteDataExporter.java:214-224 | without `GROUP=` the name is `"NO DATA"`, because the default is upper-cased too |
| SatelliteDataExporter.MeanMotionToken | src/com/openbexi/satellites/SatelliteDataExporter.java:297-298 | a token exists exactly when the trimmed line has at least 8 whitespace tokens; it is non-empty and has no whitespace |
| SatelliteDataExporter.ClassifyMeanMotion | src/com/openbexi/satellites/SatelliteDataExporter.java:302-308 | every parsed mean motion gets one of GEO, MEO, LEO |
| SatelliteDataExporter.DetermineOrbit | src/com/openbexi/satellites/SatelliteDataExporter.java:292-312 | `"no data"` exactly for a null or empty line, fewer than 8 tokens or an unparseable 8th token; otherwise the class of the parsed mean motion |
| SatelliteDataExporter.ClassifyThresholds | src/com/openbexi/satellites/SatelliteDataExporter.java:302-308 | GEO iff below 2.5, LEO iff above 11.0, and MEO iff in [2.5, 11.0] with both ends included |
| SatelliteDataExporter.ClassifyByPeriod | src/com/openbexi/satellites/SatelliteDataExporter.java:302-308 | the same classes read as orbital periods: GEO above 576 minutes, LEO below 1440/11 minutes |
| SatelliteDataExporter.OrNoData | src/com/openbexi/satellites/SatelliteDataExporter.java:265 | a name or TLE line is kept unchanged unless null or empty, which gives `"no data"` |
| SatelliteDataExporter.NoradIdOf | src/com/openbexi/satellites/SatelliteDataExporter.java:267-270 | `"no data"` for a null line or one shorter than 7; otherwise the trimmed characters [2, 7) |
| SatelliteDataExporter.NoradIdOfDigitColumns | src/com/openbexi/satellites/SatelliteDataExporter.java:267-270 | when columns 3–7 are digits, the NORAD id is exactly those five digits |
| SatelliteDataExporter.LaunchDateFirstMatch | src/com/openbexi/satellites/SatelliteDataExporter.java:191-197 | the first entry with the queried id gives its launch date, when every earlier entry reads cleanly |
| SatelliteDataExporter.LaunchDateNoMatch | src/com/openbexi/satellites/SatelliteDataExporter.java:182-203 | with no matching id in a well-formed file the result is `"no data"` |
| SatelliteDataExporter.LaunchDateComesFromFirstMatch | src/com/openbexi/satellites/SatelliteDataExporter.java:191-197 | a result other than `"no data"` is the date of the first entry with that id, every earlier entry being well formed |
| SatelliteDataExporter.LaunchDateLookup | src/com/openbexi/satellites/SatelliteDataExporter.java:181-204 | a missing or unreadable file, or one that is not a JSON array, gives `"no data"` |
| SatelliteDataExporter.LaunchDateIn | src/com/openbexi/satellites/SatelliteDataExporter.java:189-197 | the scan of the array in order: the first entry with the id gives its date, an unreadable entry before it ends the scan with `"no data"`; LaunchDateFirstMatch, LaunchDateNoMatch and LaunchDateComesFromFirstMatch state its results |
| SatelliteDataExporter.GetLaunchDateByNorad | src/com/openbexi/satellites/SatelliteDataExporter.java:181-204 | the scan with `break` returns the lookup function's value for every file state: absent, unreadable, not an array, or entries |
| SatelliteDataExporter.LaunchDateTestCases | src/test/java/com/openbexi/satellites/SatelliteDataExporterTest.java:37-62 | the unit test's cases: a found id gives its date; a missing id or a missing file gives `"no data"` |
| SatelliteDataExporter.TransformSatelliteTleObject | src/com/openbexi/satellites/SatelliteDataExporter.java:262-283 | each field of the record: the company as given, the defaulted name and lines, the NORAD id, its launch date, and the orbit class |
| SatelliteDataExporter.BlankIffTrimEmpty | src/com/openbexi/satellites/SatelliteDataExporter.java:64 | a line made only of characters up to U+0020 is exactly one that `trim()` empties, the test the loop skips on |
| SatelliteDataExporter.Blanks | src/com/openbexi/satellites/SatelliteDataExporter.java:64 | one blank flag per line, in order |
| SatelliteDataExporter.BlockStartsFit | src/com/openbexi/satellites/SatelliteDataExporter.java:66-70 | every block start has both successor lines |
| SatelliteDataExporter.BlockStarts | src/com/openbexi/satellites/SatelliteDataExporter.java:63-74 | where blocks start: blank lines are skipped, a non-blank line with two successors starts a block and the scan resumes 3 lines on; the BlockStarts lemmas state its properties |
| SatelliteDataExporter.BlockStartsNonBlank | src/com/openbexi/satellites/SatelliteDataExporter.java:63-65 | every block starts on a non-blank line at or after the scan position |
| SatelliteDataExporter.BlockStartsSpaced | src/com/openbexi/satellites/SatelliteDataExporter.java:73 | each block starts at least 3 lines after the one before, so blocks never share lines |
| SatelliteDataExporter.BlockCountBound | src/com/openbexi/satellites/SatelliteDataExporter.java:63-74 | there are at most ⌊(lines − i)/3⌋ blocks |
| SatelliteDataExporter.UncoveredOnlyAtTail | src/com/openbexi/satellites/SatelliteDataExporter.java:66-67 | a non-blank line outside every block is among the last two lines |
| SatelliteDataExporter.RecordsAt | src/com/openbexi/satellites/SatelliteDataExporter.java:68-72 | the k-th record is built from the three lines at the k-th block start |
| SatelliteDataExporter.RecordsAtCons | src/com/openbexi/satellites/SatelliteDataExporter.java:72 | one more block in front adds its record in front |
| SatelliteDataExporter.ScanFromIsBlockRecords | src/com/openbexi/satellites/SatelliteDataExporter.java:63-74 | the pass-by-pass loop from any line reads exactly the blocks that start from there on |
| SatelliteDataExporter.ScanFrom | src/com/openbexi/satellites/SatelliteDataExporter.java:63-74 | the loop pass by pass: skip a blank line, stop at a non-blank line without two successors, otherwise read a block and go on 3 lines later; ScanFromIsBlockRecords gives its value |
| SatelliteDataExporter.ExportedRecords | src/com/openbexi/satellites/SatelliteDataExporter.java:63-74 | one record per block, in block order |
| SatelliteDataExporter.ExportBlocks | src/com/openbexi/satellites/SatelliteDataExporter.java:63-74 | the loop (skip a line that `trim()` empties, stop without two successors, jump by 3) appends exactly one record per block, in input order, each built from that block's three lines |
| SatelliteDataExporter.RecordCountBound | src/com/openbexi/satellites/SatelliteDataExporter.java:63-74 | a feed of n lines yields at most ⌊n/3⌋ records |
| SatelliteDataExporter.ExportSource | src/com/openbexi/satellites/SatelliteDataExporter.java:58-78 | one feed's text, split into lines, contributes its blocks under its GROUP name, or nothing on an IOException |
| SatelliteDataExporter.TruncatedFeedGivesNoRecord | src/com/openbexi/satellites/SatelliteDataExporter.java:61-67 | a feed that stops after a name and line 1, followed by blank lines, gives no record, because the split removes the trailing empty lines |
| SatelliteDataExporter.ExportAll | src/com/openbexi/satellites/SatelliteDataExporter.java:56-79 | all feeds' records, concatenated in feed order |
| SatelliteDataExporter.SourceRecords | src/com/openbexi/satellites/SatelliteDataExporter.java:58-78 | one URL's records: the blocks of its split text under its GROUP name, or none when the fetch throws; ExportSource is proved to compute it |
| SatelliteDataExporter.AllRecords | src/com/openbexi/satellites/SatelliteDataExporter.java:56-79 | the records of all URLs concatenated in URL order; AllRecordsStep gives one step and ExportAll is proved to compute it |
| SatelliteDataExporter.MonthString | src/com/openbexi/satellites/SatelliteDataExporter.java:104 | the month is always two digits, zero-padded below 10, and reads back as the month |
| SatelliteFootprintLoader.PaletteRem | js/satelliteFootprintLoader.js:23 | JavaScript's truncating `id % 7`: strictly between −7 and 7, the Euclidean remainder for id ≥ 0, and the remainder with the sign of a negative id |
| SatelliteFootprintLoader.BeamColour | js/satelliteFootprintLoader.js:22-23 | a non-negative id picks palette entry id mod 7; the `'eirp'` key and every negative id not divisible by 7 index outside the palette and give `undefined` |
| SatelliteFootprintLoader.EirpColourOf | js/satelliteFootprintLoader.js:24 | a defined EIRP gives an EIRP colour of that value; `null` counts as 0 |
| SatelliteFootprintLoader.PickColour | js/satelliteFootprintLoader.js:100 | the EIRP colour when `eirp_dBW` is not `undefined`, else the beam colour of the key |
| SatelliteFootprintLoader.RingPath | js/satelliteFootprintLoader.js:111-113 | each [lon, lat] position becomes [lat, lon]; the length is kept |
| SatelliteFootprintLoader.FeatureShapes | js/satelliteFootprintLoader.js:107-117 | a feature without geometry throws, and every shape of a feature has the feature's colour |
| SatelliteFootprintLoader.FeatureShapesAreOuterRings | js/satelliteFootprintLoader.js:107-117 | a Polygon gives its outer ring; a MultiPolygon gives each polygon's outer ring in order; another type gives []; a missing geometry or ring throws |
| SatelliteFootprintLoader.FeatureColourRule | js/satelliteFootprintLoader.js:108-109 | the EIRP colour when `eirp_dBW` is present; without it, a defined beam id picks its beam colour, and absent properties or a missing or null beam id give palette entry 0 (`beamId \|\| 0`) |
| SatelliteFootprintLoader.FeatureBeam | js/satelliteFootprintLoader.js:109 | `beamColor(c.beamId \|\| 0)`'s key: the beam id when defined, else 0 |
| SatelliteFootprintLoader.FeatureColour | js/satelliteFootprintLoader.js:108-109 | `properties \|\| {}`, then the EIRP colour or the beam colour; FeatureColourRule states each case |
| SatelliteFootprintLoader.CollectionShapes | js/satelliteFootprintLoader.js:88-90 | `flatMap` throws exactly when some feature throws |
| SatelliteFootprintLoader.CollectionShapesAppend | js/satelliteFootprintLoader.js:88-90 | `flatMap` over concatenated feature lists is the concatenation of the results, and throws if either part throws |
| SatelliteFootprintLoader.SingleFeature | js/satelliteFootprintLoader.js:89 | a one-feature collection yields that feature's shapes |
| SatelliteFootprintLoader.KeyOf | js/satelliteFootprintLoader.js:94 | a point goes to `'eirp'` exactly when its beam id is undefined or null; beam 0 stays beam 0 |
| SatelliteFootprintLoader.GroupKeys | js/satelliteFootprintLoader.js:93-95 | the Map never has more keys than there are points |
| SatelliteFootprintLoader.GroupMembers | js/satelliteFootprintLoader.js:95-96 | no group holds more points than the input |
| SatelliteFootprintLoader.FlatShapes | js/satelliteFootprintLoader.js:98-101 | there are never more shapes than points |
| SatelliteFootprintLoader.GroupKeysStep | js/satelliteFootprintLoader.js:94-95 | pushing a point appends its key exactly when the key is new |
| SatelliteFootprintLoader.GroupMembersStep | js/satelliteFootprintLoader.js:96 | pushing a point appends it to its own group and to no other |
| SatelliteFootprintLoader.PointPath | js/satelliteFootprintLoader.js:99 | one [lat, lon] pair per point, in order |
| SatelliteFootprintLoader.ShapesOf | js/satelliteFootprintLoader.js:98-101 | one shape per listed key, each that key's group shape |
| SatelliteFootprintLoader.GroupKeysComplete | js/satelliteFootprintLoader.js:93-95 | a key is a Map entry exactly when some point carries it |
| SatelliteFootprintLoader.GroupKeysDistinct | js/satelliteFootprintLoader.js:95 | no key is listed twice |
| SatelliteFootprintLoader.GroupKeysPrefix | js/satelliteFootprintLoader.js:93-97 | the keys of a prefix of the points are a prefix of the keys: entries are only ever appended |
| SatelliteFootprintLoader.GroupKeysInFirstAppearanceOrder | js/satelliteFootprintLoader.js:93-98 | keys are in first-appearance order: a key listed earlier occurred before any occurrence of a later one |
| SatelliteFootprintLoader.GroupMembersNonEmpty | js/satelliteFootprintLoader.js:95-96 | a group is non-empty exactly when its key is listed |
| SatelliteFootprintLoader.GroupMembersHaveKey | js/satelliteFootprintLoader.js:96 | every member of a group carries the group's key |
| SatelliteFootprintLoader.GroupSizesStep | js/satelliteFootprintLoader.js:96 | pushing one point grows exactly its own group by one |
| SatelliteFootprintLoader.GroupsPartition | js/satelliteFootprintLoader.js:93-97 | the group sizes add up to the number of points: the grouping is a partition |
| SatelliteFootprintLoader.ShapesOfPoints | js/satelliteFootprintLoader.js:98-99 | the path lengths of the shapes are the group sizes |
| SatelliteFootprintLoader.FlatShapesKeepEveryPoint | js/satelliteFootprintLoader.js:95-99 | the paths together hold exactly as many pairs as there are input points |
| SatelliteFootprintLoader.FlatShapeIsGroup | js/satelliteFootprintLoader.js:98-101 | shape j is the j-th key's group: its [lat, lon] pairs in input order, coloured by its first point |
| SatelliteFootprintLoader.AddPoint | js/satelliteFootprintLoader.js:94-96 | one `has`/`set`/`push` step keeps the Map equal to the grouping of the points seen so far |
| SatelliteFootprintLoader.GroupedShapes | js/satelliteFootprintLoader.js:98-101 | mapping the finished Map's entries gives the grouped shapes |
| SatelliteFootprintLoader.GroupFlatPoints | js/satelliteFootprintLoader.js:92-101 | the `forEach` over a Map, then the map over its entries, returns the grouped shapes |
| SatelliteFootprintLoader.ParseFootprints | js/satelliteFootprintLoader.js:87-105 | a collection gives its features' shapes, a flat array its groups, an unrecognised value [] |
| SatelliteFootprintLoader.AllHidden | js/satelliteFootprintLoader.js:47 | every cached entry hidden, with the cached ids unchanged |
| SatelliteFootprintLoader.FootprintCache.constructor | js/satelliteFootprintLoader.js:19 | the cache starts empty |
| SatelliteFootprintLoader.FootprintCache.BuildEntry | js/satelliteFootprintLoader.js:64-68 | the entry's shapes are `sat.footprints \|\| []` parsed |
| SatelliteFootprintLoader.EntryShapes | js/satelliteFootprintLoader.js:66 | the shapes of `parseFootprints(sat.footprints \|\| [])`; BuildEntry is proved to compute it |
| SatelliteFootprintLoader.FootprintCache.UpdateFootprints | js/satelliteFootprintLoader.js:45-61 | with no selection, everything is hidden and nothing is built. A cached id is reused, not rebuilt. A new id is built once and added. Only the selected entry's visibility becomes `!!show`. A build that throws leaves the cache as it was, with everything hidden |
| SatelliteConfigurationLoader.StripLeadingSlash | js/SatelliteConfigurationLoader.js:23 | `replace(/^\//, '')` removes one leading slash if there is one, and otherwise changes nothing |
| SatelliteConfigurationLoader.StripRemovesOneSlash | js/SatelliteConfigurationLoader.js:22-25 | at most one character goes, it is a slash, and a second leading slash survives |
| SatelliteConfigurationLoader.FullUrlAsWritten | js/SatelliteConfigurationLoader.js:14-26 | as written, the function throws exactly for a non-string path in local mode |
| SatelliteConfigurationLoader.BaseText | js/SatelliteConfigurationLoader.js:25 | the text `base +` contributes: the base, or `"undefined"` when it is missing |
| SatelliteConfigurationLoader.InvalidLocalPathThrows | js/SatelliteConfigurationLoader.js:15-17 | as written, a non-string path throws in local mode and gives `null` in remote mode |
| SatelliteConfigurationLoader.FullUrl | js/SatelliteConfigurationLoader.js:14-26 | never throws, agrees with the code wherever the code does not throw, and gives `null` for a non-string path |
| SatelliteConfigurationLoader.FullUrlRules | js/SatelliteConfigurationLoader.js:19-25 | `http://` and `https://` URLs are unchanged, local paths lose one leading slash, and remote paths get the base in front |
| SatelliteConfigurationLoader.FalsyRemotePathIsNull | js/SatelliteConfigurationLoader.js:15-17 | an empty or non-string path in remote mode gives `null` |
| SatelliteConfigurationLoader.FetchJson | js/SatelliteConfigurationLoader.js:33-41 | a successful fetch gives its body; any failure gives `[]` for a URL containing `/tle/` and `{}` otherwise |
| SatelliteConfigurationLoader.FetchRound | js/SatelliteConfigurationLoader.js:54-60 | one `Promise.all` round: the five files under the base, each through fetchJSON, in the order earth, constants, satellite, scene, controls (the local round, lines 71-77, uses base `config/`) |
| SatelliteConfigurationLoader.EmptyConfig | js/SatelliteConfigurationLoader.js:63 | only a string, array or object with at least one key counts as a configuration; `null`, booleans and numbers count as empty |
| SatelliteConfigurationLoader.FillOrRules | js/SatelliteConfigurationLoader.js:103-111 | `\|\|=` adds its key, keeps a truthy value, replaces a missing or falsy one, and leaves other fields alone |
| SatelliteConfigurationLoader.FillNullishRules | js/SatelliteConfigurationLoader.js:112 | `??=` keeps every present non-null value, falsy ones included, and leaves other fields alone |
| SatelliteConfigurationLoader.FillsIdempotent | js/SatelliteConfigurationLoader.js:103-113 | applying either fill twice is the same as applying it once, when the default passes the operator's own test |
| SatelliteConfigurationLoader.NullishKeepsFalse | js/SatelliteConfigurationLoader.js:112 | `enableDamping ??= true` keeps an explicit `false`, which `\|\|=` would overwrite |
| SatelliteConfigurationLoader.FillsAgreeUnlessFalsy | js/SatelliteConfigurationLoader.js:112-113 | the two operators differ exactly on a present falsy value that is not null |
| SatelliteConfigurationLoader.FillOr | js/SatelliteConfigurationLoader.js:103-111 | `\|\|=` leaves an object with a truthy value under the key unchanged |
| SatelliteConfigurationLoader.FillNullish | js/SatelliteConfigurationLoader.js:112 | `??=` leaves an object with a non-null value under the key unchanged |
| SatelliteConfigurationLoader.FilledEarthRules | js/SatelliteConfigurationLoader.js:103-105 | afterwards diameter, texture and light texture are truthy, and every truthy field is kept |
| SatelliteConfigurationLoader.FilledSatelliteRules | js/SatelliteConfigurationLoader.js:106-108 | afterwards icon, scale and Mercator icon are truthy, and every truthy field is kept |
| SatelliteConfigurationLoader.FilledSceneRules | js/SatelliteConfigurationLoader.js:109-111 | afterwards the camera and both lights are truthy, and every truthy field is kept |
| SatelliteConfigurationLoader.FilledControlsRules | js/SatelliteConfigurationLoader.js:112-113 | an explicit `enableDamping` is kept; otherwise it becomes `true`. `dampingFactor` ends up truthy |
| SatelliteConfigurationLoader.FilledEarth | js/SatelliteConfigurationLoader.js:103-105 | the earth defaults applied with `\|\|=` in source order; FilledEarthRules states the result |
| SatelliteConfigurationLoader.FilledSatellite | js/SatelliteConfigurationLoader.js:106-108 | the satellite defaults applied with `\|\|=`; FilledSatelliteRules states the result |
| SatelliteConfigurationLoader.FilledScene | js/SatelliteConfigurationLoader.js:109-111 | the camera and light defaults applied with `\|\|=`; FilledSceneRules states the result |
| SatelliteConfigurationLoader.FilledControls | js/SatelliteConfigurationLoader.js:112-113 | `enableDamping ??= true` then `dampingFactor \|\|= 0.05`; FilledControlsRules states the result |
| SatelliteConfigurationLoader.HardCodedEarthIsFilled | js/SatelliteConfigurationLoader.js:82-86 | the built-in earth configuration already has every default filled |
| SatelliteConfigurationLoader.HardCodedControlsIsFilled | js/SatelliteConfigurationLoader.js:97 | the built-in controls configuration already has every default filled |
| SatelliteConfigurationLoader.HardCoded | js/SatelliteConfigurationLoader.js:82-98 | all five built-in slots are objects, and the built-in earth configuration is not empty |
| SatelliteConfigurationLoader.DefaultGlobalScale | js/SatelliteConfigurationLoader.js:115 | the default diameter gives a global scale of 1/1000 |
| SatelliteConfigurationLoader.GlobalScale | js/SatelliteConfigurationLoader.js:115 | a positive numeric diameter gives a positive scene scale |
| SatelliteConfigurationLoader.GlobalScaleValue | js/SatelliteConfigurationLoader.js:115 | the scale exists exactly for a numeric, non-zero diameter, and then scale × diameter/2 = EARTH_SCENE_RADIUS, i.e. it is EARTH_SCENE_RADIUS / (diameter / 2) |
| SatelliteConfigurationLoader.ChosenSource | js/SatelliteConfigurationLoader.js:53-99 | remote iff the remote earth configuration is non-empty; built-in iff both the remote and the local one are empty |
| SatelliteConfigurationLoader.ChosenConfigs | js/SatelliteConfigurationLoader.js:53-99 | the remote round under `config/` of the base, the local round under `config/`, or the built-in set, as ChosenSource picks |
| SatelliteConfigurationLoader.ConfigLoader.constructor | js/SatelliteConfigurationLoader.js:5-6 | the loader starts in remote mode |
| SatelliteConfigurationLoader.ConfigLoader.Assign | js/SatelliteConfigurationLoader.js:61 | the five slots take the fetched values; the mode flag is unchanged |
| SatelliteConfigurationLoader.ConfigLoader.ChooseConfigs | js/SatelliteConfigurationLoader.js:49-99 | assigns the chosen set, switches to local mode unless the remote round succeeded, and returns the matching base URLs |
| SatelliteConfigurationLoader.ConfigLoader.FillDefaults | js/SatelliteConfigurationLoader.js:103-113 | succeeds iff the four filled slots are objects; each slot then holds its filled value; constants and the mode flag are untouched |
| SatelliteConfigurationLoader.ConfigLoader.LoadConfigs | js/SatelliteConfigurationLoader.js:48-128 | the local flag is set iff the remote round failed. The result resolves iff the chosen slots are objects. The slots hold the filled configurations, with base URLs and global scale from the chosen source |
| MercatorMap.LonToXIncreasing | js/mercatorMapLoader.js:220 | for a positive width, x is strictly increasing in longitude (both directions), −180 maps to 0, 180 maps to w, and differences scale by w/360 |
| MercatorMap.LonToXPeriod | js/mercatorMapLoader.js:220 | adding 360° to the longitude moves x by exactly one canvas width |
| MercatorMap.LonToX | js/mercatorMapLoader.js:220 | a longitude in [−180, 180] lands on the canvas, in [0, w] |
| MercatorMap.ClampLat | js/mercatorMapLoader.js:221 | the result is within ±85.05112878; latitudes inside are unchanged and those beyond are folded onto the bound |
| MercatorMap.ClampLatIdempotentMonotone | js/mercatorMapLoader.js:221 | clamping twice is clamping once, and clamping keeps the order of latitudes |
| MercatorMap.ColumnLon | js/mercatorMapLoader.js:88 | a longitude exists exactly on a canvas of positive width; columns 0..width lie in [−180, 180] |
| MercatorMap.ColumnLonSpan | js/mercatorMapLoader.js:88 | column 0 is −180, column `width` is 180, and longitudes strictly increase |
| MercatorMap.ClosingY | js/mercatorMapLoader.js:107-113 | the night polygon closes along the top or the bottom edge; on a canvas of non-zero height, the bottom exactly when the sub-solar latitude is positive |
| MercatorMap.SampleTerminator | js/mercatorMapLoader.js:84-113 | width+1 samples, the i-th at column i's longitude with the clamped latitude; first and last points recorded; the closing edge is the bottom when the sub-solar latitude > 0, else the top |
| MercatorMap.SamplesOnMap | js/mercatorMapLoader.js:89-90 | every sampled latitude lies on the map whatever the formula gave |
| MercatorMap.Overlaps | js/mercatorMapLoader.js:184-186 | rectangles separated along either axis do not overlap |
| MercatorMap.OverlapsSymmetric | js/mercatorMapLoader.js:184-186 | the overlap test is symmetric, and rectangles that only touch do not overlap |
| MercatorMap.OverlapsItself | js/mercatorMapLoader.js:184-186 | a rectangle of positive size overlaps itself, so it is never placed twice |
| MercatorMap.CandidateRect | js/mercatorMapLoader.js:173-182 | the rectangle has the label's width and height 18. It starts at the leader end on the right side and ends there on the left side. It is centred 3 above the leader end |
| MercatorMap.FirstFree | js/mercatorMapLoader.js:172-192 | a chosen rectangle is one of the candidates and overlaps no placed label |
| MercatorMap.FirstFreeIsFirst | js/mercatorMapLoader.js:172-192 | the choice is the first free candidate, every earlier one overlapping; none is chosen iff every candidate overlaps |
| MercatorMap.PlaceLabel | js/mercatorMapLoader.js:170-192 | the loop with `break` chooses the first free candidate |
| MercatorMap.Candidates | js/mercatorMapLoader.js:169-182 | one candidate per leader end, in the fixed angle order |
| MercatorMap.Layout | js/mercatorMapLoader.js:149-214 | one placement per satellite, and at most one label each |
| MercatorMap.LayoutDisjoint | js/mercatorMapLoader.js:194-195 | the placed labels are pairwise non-overlapping |
| MercatorMap.LayoutLabelsAreLeaders | js/mercatorMapLoader.js:194-213 | the label list is exactly the leader rectangles in order: a centred name adds nothing |
| MercatorMap.LayoutPlacement | js/mercatorMapLoader.js:188-213 | satellite k gets the first candidate free of the labels before it, or is centred when none is free |
| MercatorMap.LayoutLabels | js/mercatorMapLoader.js:149-214 | the `forEach` over the draw data yields the layout |
| MercatorMap.DrawData | js/mercatorMapLoader.js:133-146 | no more draw data than satellites |
| MercatorMap.DrawDataMembers | js/mercatorMapLoader.js:134-146 | a datum is drawn iff it comes from a satellite with a visible mesh, a `satrec` and a propagation that produced a point. Failing and throwing propagations are dropped |
| MercatorMap.InsertByY | js/mercatorMapLoader.js:147 | inserting keeps the data sorted by y and adds exactly the new datum |
| MercatorMap.SortByY | js/mercatorMapLoader.js:147 | the result is sorted ascending by y and is a permutation of the input |
| MercatorMap.UpdateMercatorLabels | js/mercatorMapLoader.js:131-214 | labels are laid out over the drawn satellites sorted by y; they are pairwise disjoint and at most one per satellite |
| Vectors.CrossOrthogonal | js/orbitFrameLoader.js:86 | r × v is orthogonal to r and to v |
| Vectors.Lagrange | js/orbitFrameLoader.js:92 | \|a × b\|² = \|a\|²\|b\|² − (a·b)² |
| Vectors.TripleProduct | js/orbitFrameLoader.js:92 | (a × b) × c = b(a·c) − a(b·c) |
| Vectors.ScaleDot | js/orbitFrameLoader.js:90-91 | scaling passes through dot products and squared lengths |
| Vectors.UnitByLength | js/orbitFrameLoader.js:90-91 | a vector multiplied by −1/\|a\| has length 1 |
| Vectors.UnitLength | js/orbitFrameLoader.js:92 | a non-negative length whose square is 1 is 1 |
| OrbitFrame.Arrow.constructor | js/orbitFrameLoader.js:67-69 | an arrow starts at the origin along the given direction |
| OrbitFrame.Frame.constructor | js/orbitFrameLoader.js:64-77 | three fresh, distinct arrows along +x, +y, +z; the length in km (10000 when omitted) scaled by 1/1000 |
| OrbitFrame.Degenerate | js/orbitFrameLoader.js:88 | an input that passes the guard has positive \|r\| and \|r × v\|, so both divisions are defined |
| OrbitFrame.FrameAxes | js/orbitFrameLoader.js:90-92 | zHat = −r/\|r\|, yHat = −(r×v)/\|r×v\|, xHat = yHat × zHat before `normalize()`; AxesOrthonormal proves them unit, orthogonal and right-handed |
| OrbitFrame.FrameAxesDirections | js/orbitFrameLoader.js:86-91 | z points towards the Earth's centre (z · r ≤ 0) and y is normal to the velocity |
| OrbitFrame.AxesYZOrthogonal | js/orbitFrameLoader.js:86-91 | yHat · zHat = 0 |
| OrbitFrame.AxesOrthonormal | js/orbitFrameLoader.js:86-92 | every axis has length 1, the axes are mutually orthogonal and right-handed (x × y = z); zHat is a negative multiple of r and yHat a negative multiple of r × v |
| OrbitFrame.Normalize | js/orbitFrameLoader.js:92 | multiplying the result by a non-zero length gives back the vector; a zero length leaves it unchanged |
| OrbitFrame.NormalizeUnitCross | js/orbitFrameLoader.js:92 | `normalize()` leaves yHat × zHat unchanged, because it already has length 1 |
| OrbitFrame.UpdateOrbitFrame | js/orbitFrameLoader.js:79-97 | a missing frame, position or velocity, or \|r\| or \|r × v\| below 1e-6, leaves every arrow as it was. Otherwise the arrows point along the frame axes, with tails at r |
| OrbitFrame.EquatorialExample | js/orbitFrameLoader.js:90-92 | at r = (7000, 0, 0) km and v = (0, 7.5, 0) km/s the axes are x = +y, y = −z, z = −x |

## Left out

- Network, file and HTML work is left out: `fetchTLEFromUrl`, `fetchHtmlFromUrl`, `writeJsonToFile`, the n2yo page regex, HTTP `fetch` and reading the launch-dates file. Their results are parameters.
- Transcendental floating point is left out:
  - the Mercator y coordinate;
  - the terminator latitude formula and the sub-solar latitude;
  - `eirpColor`'s HSL value (the model keeps only the EIRP value);
  - `ll2xyz`;
  - the cos/sin of the leader angles;
  - vector lengths (`length()`).
  Where the model needs them they are inputs. A supplied length must square to the squared norm.
- JavaText.ToUpper: only a–z are upper-cased. Java's `toUpperCase()` follows Unicode and the default locale (é→É, ß→SS which changes the length, i→İ under a Turkish locale); the model assumes ASCII text and a non-Turkish locale.
- JavaText.SplitWhitespace: the empty string splits into `[]`, where Java gives `[""]`. Both have fewer than 8 tokens, so the orbit class is the same.
- Reals are exact: values are not rounded to IEEE doubles. `Double.parseDouble` gives the exact decimal value, and hexadecimal float literals count as unparseable.
- THREE.js, canvas and DOM work is left out: meshes, groups, materials, `scene.add`, drawing calls, `measureText`, HTML labels and `drawMercator`.
- `console.warn` calls have no effect in the model.
- SatelliteDataExporter.ExportBlocks: the loop builds each record with a function value (`BlockBuilder` in `main`), so it does not call the `GetLaunchDateByNorad` method once per block. Its launch date is `LaunchDateLookup`, the value that method is proved to return, so the records are the same.
- `Promise.all` concurrency and `async` are left out. The five fetches of a round are given together as outcomes.
- MercatorMap.CandidateRect: a candidate's side is an input. With the source's angles it is right, right, left, left, left, right, right, right; this is not derived, because it needs cos.
- MercatorMap.SortByY: stability of `Array.prototype.sort` is not stated. The model states sortedness and permutation only.
- MercatorMap.SampleTerminator: NaN raw latitudes are not modelled. A zero-width canvas gives `None` longitudes (0/0 is NaN).
- The `!firstPoint` early return in the terminator is not modelled. The loop always runs at least once, so that return never fires.
- SatelliteConfigurationLoader.GlobalScale: a diameter that is not a JSON number, or is 0, gives `None`. JavaScript would coerce a numeric string, and gives `Infinity` for 0.
- SatelliteConfigurationLoader.ConfigLoader.FillDefaults: a JSON array, string, number or boolean configuration is a rejection. JavaScript would silently set a property on an array and throw on a primitive in strict mode.
- SatelliteConfigurationLoader.ConfigLoader.LoadConfigs: the slots' partial state after a rejected fill is not described.
- SatelliteConfigurationLoader.BaseText: an undefined `base` is concatenated as the text "undefined"; no other base value is modelled.
- SatelliteFootprintLoader.KeyOf: beam ids are integers; a non-integer or string beam id is not modelled.
- `updateFootprints` returns the entry with its live `globeGroup`; the model returns the shapes and the visibility flag.
- The `!!mercatorCtx` drawing branch of `updateFootprints` is not modelled, because it only draws.
- `setOrbitFrameVisibility`, `disposeOrbitFrame` and orbit label placement are left out, because they only change scene objects.

## Findings

| source | as written | input that shows it | evidently intended | confidence | as-written member | corrected member |
|---|---|---|---|---|---|---|
| js/SatelliteConfigurationLoader.js:15-17 | an invalid path in local mode calls `relativePath.replace` | `getFullGitHubUrl(undefined, base)` with `usingLocalAssets` true throws a TypeError, because `undefined` has no `replace` | a path that is not a string yields `null` (the documented `string\|null` result) in both modes, as it already does in remote mode | not executed | SatelliteConfigurationLoader.InvalidLocalPathThrows | SatelliteConfigurationLoader.FullUrl |
