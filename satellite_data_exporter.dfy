/**
 * The CelesTrak TLE exporter: it turns 3-line TLE blocks (name, line 1, line 2) into
 * catalogue records {company, satellite_name, norad_id, launch_date, type, tle_line1,
 * tle_line2}. The company is the upper-cased GROUP= value of the source URL, the orbit
 * type comes from the mean-motion token of line 2, and the launch date is looked up by
 * NORAD id in a previously extracted launch-dates file.
 *
 * Network fetches and file writes are left out: the fetched text and the parsed
 * launch-dates file are parameters.
 */
module SatelliteDataExporter {
  import opened Wrappers
  import opened JavaText

  /** The default every missing field gets. */
  const NoData: string := "no data"

  // ---------------------------------------------------------------------------
  // extractGroupFromUrl
  // ---------------------------------------------------------------------------

  const GroupKey: string := "GROUP="

  /** The upper-cased value of the URL's GROUP= parameter, or the upper-cased default. */
  function ExtractGroupFromUrl(url: string): (group: string)
    ensures '&' !in group
  {
    var index := IndexOf(url, GroupKey, 0);
    var raw :=
      if index == -1 then NoData
      else
        var start := index + |GroupKey|;
        var amp := IndexOf(url, "&", start);
        var end := if amp == -1 then |url| else amp;
        assert forall j :: start <= j < end ==> url[j] != '&' by {
          forall j | start <= j < end ensures url[j] != '&' {
            assert !OccursAt(url, "&", j);
            assert url[j..j + 1] == [url[j]];
          }
        }
        url[start..end];
    ToUpperKeepsAbsent(raw, '&');
    ToUpper(raw)
  }

  /** `k` is the first place GROUP= occurs in `url`. */
  predicate FirstGroupKeyAt(url: string, k: nat) {
    k <= |url| && OccursAt(url, GroupKey, k) && forall j :: 0 <= j < k ==> !OccursAt(url, GroupKey, j)
  }

  /** `e` ends the parameter value that starts at `start`: the next '&', or the end of the URL. */
  predicate ValueEndsAt(url: string, start: nat, e: nat) {
    start <= e <= |url| && (e == |url| || url[e] == '&') && forall j :: start <= j < e ==> url[j] != '&'
  }

  /** With GROUP= present, the group is the text after its first occurrence up to the next '&' or the end, upper-cased. */
  lemma GroupIsValueAfterKey(url: string, k: nat, e: nat)
    requires FirstGroupKeyAt(url, k)
    requires ValueEndsAt(url, k + |GroupKey|, e)
    ensures ExtractGroupFromUrl(url) == ToUpper(url[k + |GroupKey|..e])
  {
    assert IndexOf(url, GroupKey, 0) == k;
    var start := k + |GroupKey|;
    var amp := IndexOf(url, "&", start);
    assert e < |url| ==> url[e..e + 1] == [url[e]];
    if amp == -1 {
      assert !OccursAt(url, "&", e);
      assert e == |url|;
    } else {
      assert url[amp] == '&' by { assert url[amp..amp + 1] == "&"; }
      assert e < amp ==> !OccursAt(url, "&", e);
      assert e == amp;
    }
  }

  /** Without GROUP=, the result is the default upper-cased: "NO DATA", not "no data". */
  lemma GroupAbsentIsUpperCasedDefault(url: string)
    requires forall j :: 0 <= j <= |url| ==> !OccursAt(url, GroupKey, j)
    ensures ExtractGroupFromUrl(url) == "NO DATA"
  {
    assert IndexOf(url, GroupKey, 0) == -1;
    assert ToUpper(NoData) == "NO DATA";
  }

  // ---------------------------------------------------------------------------
  // determineOrbit
  // ---------------------------------------------------------------------------

  /** The 8th whitespace token of line 2 (the mean motion, revolutions per day), if there are 8. */
  function MeanMotionToken(tleLine2: string): (token: Option<string>)
    ensures token.Some? ==> token.value != [] && NoRegexSpace(token.value)
    ensures token.Some? <==> |SplitWhitespace(Trim(tleLine2))| >= 8
  {
    var tokens := SplitWhitespace(Trim(tleLine2));
    if |tokens| < 8 then None else Some(tokens[7])
  }

  /** The orbit class of a parsed mean motion; NaN fails both comparisons and so reads as MEO. */
  function ClassifyMeanMotion(meanMotion: JavaDouble): (orbit: string)
    ensures orbit == "GEO" || orbit == "MEO" || orbit == "LEO"
  {
    match meanMotion
    case Finite(m) => if m < 2.5 then "GEO" else if m > 11.0 then "LEO" else "MEO"
    case NaN => "MEO"
    case PositiveInfinity => "LEO"
    case NegativeInfinity => "GEO"
  }

  /** determineOrbit: "no data" for a null or empty line, fewer than 8 tokens or an unparseable 8th token; otherwise the class. */
  function DetermineOrbit(tleLine2: Option<string>): (orbit: string)
    ensures orbit == "GEO" || orbit == "MEO" || orbit == "LEO" || orbit == NoData
    ensures orbit == NoData <==>
      (tleLine2 == None || tleLine2.value == [] || MeanMotionToken(tleLine2.value) == None
       || ParseDouble(MeanMotionToken(tleLine2.value).value) == None)
    ensures orbit != NoData ==> orbit == ClassifyMeanMotion(ParseDouble(MeanMotionToken(tleLine2.value).value).value)
  {
    if tleLine2 == None || tleLine2.value == [] then NoData
    else
      match MeanMotionToken(tleLine2.value)
      case None => NoData
      case Some(token) =>
        match ParseDouble(token)
        case None => NoData
        case Some(m) => ClassifyMeanMotion(m)
  }

  /** The thresholds: below 2.5 rev/day is GEO, above 11.0 is LEO, and [2.5, 11.0] (both ends included) is MEO. */
  lemma ClassifyThresholds(m: real)
    ensures ClassifyMeanMotion(Finite(m)) == "GEO" <==> m < 2.5
    ensures ClassifyMeanMotion(Finite(m)) == "LEO" <==> m > 11.0
    ensures ClassifyMeanMotion(Finite(m)) == "MEO" <==> 2.5 <= m <= 11.0
  {
  }

  /**
   * The same classes read as orbital periods (1440 / m minutes): GEO is a period above
   * 576 minutes, LEO one below 1440/11 (about 130.9) minutes, MEO the closed range between.
   */
  lemma ClassifyByPeriod(m: real)
    requires m > 0.0
    ensures ClassifyMeanMotion(Finite(m)) == "GEO" <==> 1440.0 / m > 576.0
    ensures ClassifyMeanMotion(Finite(m)) == "LEO" <==> 1440.0 / m < 1440.0 / 11.0
    ensures ClassifyMeanMotion(Finite(m)) == "MEO" <==> 1440.0 / 11.0 <= 1440.0 / m <= 576.0
  {
    var p := 1440.0 / m;
    assert p * m == 1440.0;
    assert m < 2.5 <==> p > 576.0 by {
      if m < 2.5 { assert p * 2.5 > p * m; }
      if p > 576.0 { assert 576.0 * m < p * m; }
    }
    assert m > 11.0 <==> p < 1440.0 / 11.0 by {
      if m > 11.0 { assert p * 11.0 < p * m; }
      if p < 1440.0 / 11.0 { assert p * 11.0 < 1440.0; }
    }
  }

  // ---------------------------------------------------------------------------
  // transformSatelliteTLEObject
  // ---------------------------------------------------------------------------

  /** The value of a name or TLE field: the input itself, or "no data" for null or "". */
  function OrNoData(field: Option<string>): (r: string)
    ensures field.Some? && field.value != [] ==> r == field.value
    ensures field.None? || field.value == [] ==> r == NoData
  {
    if field.Some? && field.value != [] then field.value else NoData
  }

  /** The NORAD catalogue number: the trimmed characters [2, 7) of line 1, or "no data" when line 1 is null or shorter than 7. */
  function NoradIdOf(tleLine1: Option<string>): (id: string)
    ensures tleLine1.None? || |tleLine1.value| < 7 ==> id == NoData
    ensures tleLine1.Some? && |tleLine1.value| >= 7 ==> id == Trim(tleLine1.value[2..7])
    ensures tleLine1.Some? && |tleLine1.value| >= 7 ==>
      |id| <= 5 && (id != [] ==> !IsTrimmable(id[0]) && !IsTrimmable(id[|id| - 1]))
  {
    if tleLine1.Some? && |tleLine1.value| >= 7 then
      TrimEnds(tleLine1.value[2..7]);
      Trim(tleLine1.value[2..7])
    else NoData
  }

  /** In a line 1 whose columns 3-7 hold five digits, the NORAD id is exactly those digits. */
  lemma NoradIdOfDigitColumns(tleLine1: string)
    requires |tleLine1| >= 7 && AllDigits(tleLine1[2..7])
    ensures NoradIdOf(Some(tleLine1)) == tleLine1[2..7]
  {
    var cols := tleLine1[2..7];
    assert !IsTrimmable(cols[0]);
    assert LeadingCount(cols) == 0;
  }

  /** One entry of the launch-dates file; NotAnObject is an element that is not a JSON object. */
  datatype LaunchEntry = LaunchEntry(noradId: Option<string>, launchDate: Option<string>) | NotAnObject

  /** The file json/tle/satellite_launch_dates.json as the lookup finds it. */
  datatype LaunchDatesFile =
    | Absent                           // the file does not exist
    | Unreadable                       // reading or parsing throws
    | NotAnArray                       // it parses to something other than an array
    | Entries(entries: seq<LaunchEntry>)

  /**
   * The result of scanning `entries` in order: the first entry whose norad_id equals `id`
   * gives its launch_date. An element the scan cannot read (not an object, or null where
   * it calls toString()) throws; the exception is caught and the result stays "no data".
   */
  function LaunchDateIn(entries: seq<LaunchEntry>, id: string): string {
    if entries == [] then NoData
    else
      match entries[0]
      case NotAnObject => NoData
      case LaunchEntry(n, d) =>
        if n.None? then NoData
        else if n.value == id then d.GetOr(NoData)
        else LaunchDateIn(entries[1..], id)
  }

  /** getLaunchDateByNorad as a function of the file's contents. */
  function LaunchDateLookup(file: LaunchDatesFile, id: string): (date: string)
    ensures !file.Entries? ==> date == NoData
  {
    match file
    case Entries(es) => LaunchDateIn(es, id)
    case _ => NoData
  }

  /** An entry the scan reads without throwing, whose id is not `id`. */
  predicate PassesOver(e: LaunchEntry, id: string) {
    e.LaunchEntry? && e.noradId.Some? && e.noradId.value != id
  }

  /** The first entry with the queried id gives the result, when every earlier entry is well formed. */
  lemma {:induction false} LaunchDateFirstMatch(entries: seq<LaunchEntry>, id: string, k: nat, date: string)
    requires k < |entries|
    requires forall j :: 0 <= j < k ==> PassesOver(entries[j], id)
    requires entries[k] == LaunchEntry(Some(id), Some(date))
    ensures LaunchDateIn(entries, id) == date
  {
    if k > 0 {
      LaunchDateFirstMatch(entries[1..], id, k - 1, date);
    }
  }

  /** No matching id in a well-formed file gives "no data". */
  lemma {:induction false} LaunchDateNoMatch(entries: seq<LaunchEntry>, id: string)
    requires forall j :: 0 <= j < |entries| ==> PassesOver(entries[j], id)
    ensures LaunchDateIn(entries, id) == NoData
  {
    if entries != [] {
      LaunchDateNoMatch(entries[1..], id);
    }
  }

  /** Conversely, a result other than "no data" is the launch date of the first entry carrying the id. */
  lemma {:induction false} LaunchDateComesFromFirstMatch(entries: seq<LaunchEntry>, id: string)
    requires LaunchDateIn(entries, id) != NoData
    ensures exists k :: 0 <= k < |entries| && (forall j :: 0 <= j < k ==> PassesOver(entries[j], id)) &&
                        entries[k] == LaunchEntry(Some(id), Some(LaunchDateIn(entries, id)))
  {
    var e := entries[0];
    if e.noradId.value == id {
      assert entries[0] == LaunchEntry(Some(id), Some(LaunchDateIn(entries, id)));
    } else {
      var rest := entries[1..];
      LaunchDateComesFromFirstMatch(rest, id);
      var k :| 0 <= k < |rest| && (forall j :: 0 <= j < k ==> PassesOver(rest[j], id))
        && rest[k] == LaunchEntry(Some(id), Some(LaunchDateIn(rest, id)));
      assert entries[k + 1] == rest[k];
      assert forall j :: 0 <= j < k + 1 ==> PassesOver(entries[j], id) by {
        forall j | 0 <= j < k + 1 ensures PassesOver(entries[j], id) {
          if j > 0 { assert entries[j] == rest[j - 1]; }
        }
      }
    }
  }

  /** getLaunchDateByNorad: scan the entries in order and stop at the first match. */
  method GetLaunchDateByNorad(noradId: string, file: LaunchDatesFile) returns (launchDate: string)
    ensures launchDate == LaunchDateLookup(file, noradId)
  {
    launchDate := NoData;
    if !file.Entries? {
      return;
    }
    var entries := file.entries;
    var i := 0;
    while i < |entries|
      invariant 0 <= i <= |entries|
      invariant launchDate == NoData
      invariant LaunchDateIn(entries, noradId) == LaunchDateIn(entries[i..], noradId)
    {
      assert entries[i..][1..] == entries[i + 1..];
      var sat := entries[i];
      if sat.NotAnObject? || sat.noradId.None? {
        return;  // ClassCastException / NullPointerException, caught by the surrounding try
      }
      if noradId == sat.noradId.value {
        if sat.launchDate.None? {
          return;  // NullPointerException on toString(), caught
        }
        launchDate := sat.launchDate.value;
        break;
      }
      i := i + 1;
    }
  }

  /** The two situations the exporter's unit test pins down. */
  lemma LaunchDateTestCases()
    ensures LaunchDateLookup(Entries([LaunchEntry(Some("12345"), Some("2024-01-01"))]), "12345") == "2024-01-01"
    ensures LaunchDateLookup(Entries([LaunchEntry(Some("12345"), Some("2024-01-01"))]), "99999") == NoData
    ensures LaunchDateLookup(Absent, "99999") == NoData
  {
    var es := [LaunchEntry(Some("12345"), Some("2024-01-01"))];
    LaunchDateFirstMatch(es, "12345", 0, "2024-01-01");
    LaunchDateNoMatch(es, "99999");
  }

  /** A catalogue record, one per TLE block. */
  datatype SatelliteRecord = SatelliteRecord(
    company: string,
    satelliteName: string,
    noradId: string,
    launchDate: string,
    orbitType: string,
    tleLine1: string,
    tleLine2: string)

  /** transformSatelliteTLEObject: the record built from one block and the launch-dates file. */
  function TransformSatelliteTleObject(company: string, nameLine: Option<string>, tleLine1: Option<string>,
                                       tleLine2: Option<string>, file: LaunchDatesFile): (sat: SatelliteRecord)
    ensures sat.company == company
    ensures sat.satelliteName == NoData <==> (nameLine.None? || nameLine.value == [] || nameLine.value == NoData)
    ensures sat.tleLine1 == NoData <==> (tleLine1.None? || tleLine1.value == [] || tleLine1.value == NoData)
    ensures sat.tleLine2 == NoData <==> (tleLine2.None? || tleLine2.value == [] || tleLine2.value == NoData)
    ensures sat.satelliteName == OrNoData(nameLine) && sat.tleLine1 == OrNoData(tleLine1)
    ensures sat.tleLine2 == OrNoData(tleLine2)
    ensures sat.noradId == NoradIdOf(tleLine1) && sat.launchDate == LaunchDateLookup(file, sat.noradId)
    ensures sat.orbitType == DetermineOrbit(tleLine2)
  {
    SatelliteRecord(company, OrNoData(nameLine), NoradIdOf(tleLine1), LaunchDateLookup(file, NoradIdOf(tleLine1)),
                    DetermineOrbit(tleLine2), OrNoData(tleLine1), OrNoData(tleLine2))
  }

  // ---------------------------------------------------------------------------
  // The 3-line block loop of main
  // ---------------------------------------------------------------------------

  /** A line made only of characters up to ' ', the ones trim() removes. */
  predicate IsBlank(line: string) {
    forall j :: 0 <= j < |line| ==> IsTrimmable(line[j])
  }

  /** A line is blank exactly when trim() empties it. */
  lemma BlankIffTrimEmpty(line: string)
    ensures IsBlank(line) <==> Trim(line) == []
  {
    TrimEmptyIffAllTrimmable(line);
  }

  /** Which of the lines are blank, in order. */
  function Blanks(lines: seq<string>): (blank: seq<bool>)
    ensures |blank| == |lines|
    ensures forall j :: 0 <= j < |lines| ==> blank[j] == IsBlank(lines[j])
  {
    seq(|lines|, j requires 0 <= j < |lines| => IsBlank(lines[j]))
  }

  /** Every start leaves room for a whole block among `n` lines. */
  predicate StartsFit(n: nat, starts: seq<nat>) {
    forall k :: 0 <= k < |starts| ==> starts[k] + 2 < n
  }

  /**
   * The indices where blocks start when the scan is at `i`, given which lines are blank:
   * blank lines are skipped, a non-blank line starts a block when two more lines follow
   * it, and the scan then resumes three lines further on; a non-blank line without two
   * successors ends the scan.
   */
  function BlockStarts(blank: seq<bool>, i: nat): seq<nat>
    decreases |blank| - i
  {
    if i >= |blank| then []
    else if blank[i] then BlockStarts(blank, i + 1)
    else if i + 2 >= |blank| then []
    else [i] + BlockStarts(blank, i + 3)
  }

  /** Each block has its two successor lines. */
  lemma {:induction false} BlockStartsFit(blank: seq<bool>, i: nat)
    ensures StartsFit(|blank|, BlockStarts(blank, i))
    decreases |blank| - i
  {
    if i < |blank| {
      if blank[i] {
        BlockStartsFit(blank, i + 1);
      } else if i + 2 < |blank| {
        BlockStartsFit(blank, i + 3);
        var rest := BlockStarts(blank, i + 3);
        assert BlockStarts(blank, i) == [i] + rest;
        forall k | 0 < k < |rest| + 1
          ensures ([i] + rest)[k] + 2 < |blank|
        {
          assert ([i] + rest)[k] == rest[k - 1];
        }
      }
    }
  }

  /** Each block starts on a non-blank line at or after the scan position. */
  lemma {:induction false} BlockStartsNonBlank(blank: seq<bool>, i: nat)
    ensures forall k :: 0 <= k < |BlockStarts(blank, i)| ==> i <= BlockStarts(blank, i)[k] < |blank| && !blank[BlockStarts(blank, i)[k]]
    decreases |blank| - i
  {
    if i < |blank| {
      if blank[i] {
        BlockStartsNonBlank(blank, i + 1);
      } else if i + 2 < |blank| {
        BlockStartsNonBlank(blank, i + 3);
        var rest := BlockStarts(blank, i + 3);
        assert BlockStarts(blank, i) == [i] + rest;
        forall k | 0 < k < |rest| + 1
          ensures i <= ([i] + rest)[k] < |blank| && !blank[([i] + rest)[k]]
        {
          assert ([i] + rest)[k] == rest[k - 1];
        }
      }
    }
  }

  /** A block ends before the next one starts. */
  lemma {:induction false} BlockStartsSpaced(blank: seq<bool>, i: nat)
    ensures forall k, l :: 0 <= k < l < |BlockStarts(blank, i)| ==> BlockStarts(blank, i)[k] + 3 <= BlockStarts(blank, i)[l]
    decreases |blank| - i
  {
    if i < |blank| {
      if blank[i] {
        BlockStartsSpaced(blank, i + 1);
      } else if i + 2 < |blank| {
        BlockStartsSpaced(blank, i + 3);
        BlockStartsNonBlank(blank, i + 3);
        var rest := BlockStarts(blank, i + 3);
        assert BlockStarts(blank, i) == [i] + rest;
        forall k, l | 0 <= k < l < |rest| + 1
          ensures ([i] + rest)[k] + 3 <= ([i] + rest)[l]
        {
          assert ([i] + rest)[l] == rest[l - 1];
          if k > 0 {
            assert ([i] + rest)[k] == rest[k - 1];
          }
        }
      }
    }
  }

  /** There are at most ⌊(|blank| - i) / 3⌋ blocks. */
  lemma {:induction false} BlockCountBound(blank: seq<bool>, i: nat)
    ensures 3 * |BlockStarts(blank, i)| <= |blank| - i || i >= |blank|
    decreases |blank| - i
  {
    if i < |blank| {
      if blank[i] {
        BlockCountBound(blank, i + 1);
      } else if i + 2 < |blank| {
        BlockCountBound(blank, i + 3);
      }
    }
  }

  /** `j` lies inside one of the blocks. */
  predicate Covered(starts: seq<nat>, j: nat) {
    exists k :: 0 <= k < |starts| && starts[k] <= j < starts[k] + 3
  }

  /** A line covered by a later block is covered once an earlier block is put in front. */
  lemma CoveredCons(s: nat, rest: seq<nat>, j: nat)
    requires Covered(rest, j)
    ensures Covered([s] + rest, j)
  {
    var k :| 0 <= k < |rest| && rest[k] <= j < rest[k] + 3;
    assert ([s] + rest)[k + 1] == rest[k];
  }

  /** Every non-blank line from `i` on is in a block, unless it is among the last two lines. */
  lemma {:induction false} UncoveredOnlyAtTail(blank: seq<bool>, i: nat, j: nat)
    requires i <= j < |blank| && !blank[j]
    requires !Covered(BlockStarts(blank, i), j)
    ensures j + 2 >= |blank|
    decreases |blank| - i
  {
    if blank[i] {
      UncoveredOnlyAtTail(blank, i + 1, j);
    } else if i + 2 < |blank| {
      var rest := BlockStarts(blank, i + 3);
      assert BlockStarts(blank, i) == [i] + rest;
      assert !(i <= j < i + 3) by {
        assert ([i] + rest)[0] == i;
      }
      if Covered(rest, j) {
        CoveredCons(i, rest, j);
      }
      UncoveredOnlyAtTail(blank, i + 3, j);
    }
  }

  /** How main turns one block into a record: trim the three lines, then transformSatelliteTLEObject. */
  function BlockBuilder(company: string, file: LaunchDatesFile): (string, string, string) -> SatelliteRecord {
    (name, line1, line2) => TransformSatelliteTleObject(company, Some(Trim(name)), Some(Trim(line1)), Some(Trim(line2)), file)
  }

  /** The records `build` makes of the blocks that start at `starts`, in that order. */
  function RecordsAt<R>(lines: seq<string>, starts: seq<nat>, build: (string, string, string) -> R): (records: seq<R>)
    requires StartsFit(|lines|, starts)
    ensures |records| == |starts|
    ensures forall k :: 0 <= k < |starts| ==> records[k] == build(lines[starts[k]], lines[starts[k] + 1], lines[starts[k] + 2])
  {
    seq(|starts|, k requires 0 <= k < |starts| => build(lines[starts[k]], lines[starts[k] + 1], lines[starts[k] + 2]))
  }

  /** The records one source's lines give: one per block, in block order. */
  function ExportedRecords(company: string, lines: seq<string>, file: LaunchDatesFile): (records: seq<SatelliteRecord>)
    ensures |records| == |BlockStarts(Blanks(lines), 0)|
  {
    BlockStartsFit(Blanks(lines), 0);
    RecordsAt(lines, BlockStarts(Blanks(lines), 0), BlockBuilder(company, file))
  }

  /**
   * What the block loop of main gives from line `i` on, pass by pass: a blank line is
   * skipped, a non-blank line without two successors ends the loop, and any other
   * non-blank line is read, with the two lines after it, as one block.
   */
  function ScanFrom<R>(lines: seq<string>, build: (string, string, string) -> R, i: nat): seq<R>
    decreases |lines| - i
  {
    if i >= |lines| then []
    else if IsBlank(lines[i]) then ScanFrom(lines, build, i + 1)
    else if i + 2 >= |lines| then []
    else [build(lines[i], lines[i + 1], lines[i + 2])] + ScanFrom(lines, build, i + 3)
  }

  /** Putting one block start in front puts its record in front. */
  lemma RecordsAtCons<R>(lines: seq<string>, s: nat, rest: seq<nat>, build: (string, string, string) -> R)
    requires StartsFit(|lines|, [s] + rest)
    ensures s + 2 < |lines| && StartsFit(|lines|, rest)
    ensures RecordsAt(lines, [s] + rest, build) == [build(lines[s], lines[s + 1], lines[s + 2])] + RecordsAt(lines, rest, build)
  {
    var starts := [s] + rest;
    assert starts[0] == s;
    assert StartsFit(|lines|, rest) by {
      forall k | 0 <= k < |rest|
        ensures rest[k] + 2 < |lines|
      {
        assert starts[k + 1] == rest[k];
      }
    }
    var front := RecordsAt(lines, starts, build);
    var back := [build(lines[s], lines[s + 1], lines[s + 2])] + RecordsAt(lines, rest, build);
    forall k | 0 <= k < |front|
      ensures front[k] == back[k]
    {
      if k > 0 {
        assert starts[k] == rest[k - 1];
      }
    }
  }

  /** The pass-by-pass loop reads exactly the blocks that start from line `i` on. */
  lemma {:induction false} ScanFromIsBlockRecords<R>(lines: seq<string>, build: (string, string, string) -> R, i: nat)
    ensures StartsFit(|lines|, BlockStarts(Blanks(lines), i))
    ensures ScanFrom(lines, build, i) == RecordsAt(lines, BlockStarts(Blanks(lines), i), build)
    decreases |lines| - i
  {
    var blank := Blanks(lines);
    BlockStartsFit(blank, i);
    if i < |lines| {
      if blank[i] {
        ScanFromIsBlockRecords(lines, build, i + 1);
      } else if i + 2 < |lines| {
        ScanFromIsBlockRecords(lines, build, i + 3);
        assert BlockStarts(blank, i) == [i] + BlockStarts(blank, i + 3);
        RecordsAtCons(lines, i, BlockStarts(blank, i + 3), build);
      }
    }
  }

  /**
   * The block loop of main for one source's lines: blank lines are skipped, the loop
   * stops at a non-blank line without two successors, and each other block of three
   * lines is turned into a record by `build`, which main does with BlockBuilder.
   */
  method ExportBlocks<R>(lines: seq<string>, build: (string, string, string) -> R) returns (records: seq<R>)
    ensures StartsFit(|lines|, BlockStarts(Blanks(lines), 0))
    ensures records == RecordsAt(lines, BlockStarts(Blanks(lines), 0), build)
  {
    records := [];
    var i := 0;
    while i < |lines|
      invariant i <= |lines|
      invariant records + ScanFrom(lines, build, i) == ScanFrom(lines, build, 0)
      decreases |lines| - i
    {
      BlankIffTrimEmpty(lines[i]);
      if Trim(lines[i]) == [] {
        i := i + 1;
        continue;
      }
      if i + 2 >= |lines| {
        assert records + [] == records;
        ScanFromIsBlockRecords(lines, build, 0);
        return;
      }
      var sat := build(lines[i], lines[i + 1], lines[i + 2]);
      assert records + ([sat] + ScanFrom(lines, build, i + 3)) == (records + [sat]) + ScanFrom(lines, build, i + 3);
      records := records + [sat];
      i := i + 2;  // advance to the next block
      i := i + 1;
    }
    assert records + [] == records;
    ScanFromIsBlockRecords(lines, build, 0);
  }

  /** The exporter emits at most ⌊|lines| / 3⌋ records for one source. */
  lemma RecordCountBound(company: string, lines: seq<string>, file: LaunchDatesFile)
    ensures 3 * |ExportedRecords(company, lines, file)| <= |lines|
  {
    BlockCountBound(Blanks(lines), 0);
  }

  /** What fetching one source URL gave: the feed text, or an IOException. */
  datatype TleFetch = Fetched(text: string) | FetchFailed

  /** The records one source contributes: its blocks under its GROUP name, or nothing when the fetch failed. */
  function SourceRecords(source: (string, TleFetch), file: LaunchDatesFile): seq<SatelliteRecord> {
    match source.1
    case Fetched(text) => ExportedRecords(ExtractGroupFromUrl(source.0), SplitLines(text), file)
    case FetchFailed => []
  }

  /** The records of all sources, in source order. */
  function AllRecords(sources: seq<(string, TleFetch)>, file: LaunchDatesFile): seq<SatelliteRecord> {
    if sources == [] then []
    else AllRecords(sources[..|sources| - 1], file) + SourceRecords(sources[|sources| - 1], file)
  }

  /** Taking one more source appends that source's records. */
  lemma AllRecordsStep(sources: seq<(string, TleFetch)>, n: nat, file: LaunchDatesFile)
    requires n < |sources|
    ensures AllRecords(sources[..n + 1], file) == AllRecords(sources[..n], file) + SourceRecords(sources[n], file)
  {
    assert sources[..n + 1][..n] == sources[..n];
  }

  /** One source URL of main: the company is its GROUP name; an IOException skips the source. */
  method ExportSource(source: (string, TleFetch), file: LaunchDatesFile) returns (records: seq<SatelliteRecord>)
    ensures records == SourceRecords(source, file)
  {
    var (url, fetch) := source;
    var company := ExtractGroupFromUrl(url);
    records := [];
    if fetch.Fetched? {
      var lines := SplitLines(fetch.text);
      records := ExportBlocks(lines, BlockBuilder(company, file));
    }
  }

  /**
   * A feed that ends after a name and line 1, followed by blank lines, gives no record:
   * the split drops the trailing empty lines, so line 2 is missing rather than blank.
   */
  lemma TruncatedFeedGivesNoRecord(url: string, name: string, line1: string, file: LaunchDatesFile)
    requires IsPlainLine(name) && IsPlainLine(line1) && line1 != []
    ensures SourceRecords((url, Fetched(name + "\n" + line1 + "\n\n")), file) == []
  {
    SplitDropsTrailingBlankLines(name, line1);
    var blank := Blanks([name, line1]);
    assert BlockStarts(blank, 2) == [];
    assert BlockStarts(blank, 1) == [];
    assert BlockStarts(blank, 0) == [];
  }

  /** The source-URL loop of main: every URL's blocks are appended to one array. */
  method ExportAll(sources: seq<(string, TleFetch)>, file: LaunchDatesFile) returns (all: seq<SatelliteRecord>)
    ensures all == AllRecords(sources, file)
  {
    all := [];
    for n := 0 to |sources|
      invariant all == AllRecords(sources[..n], file)
    {
      var records := ExportSource(sources[n], file);
      AllRecordsStep(sources, n, file);
      all := all + records;
    }
    assert sources[..|sources|] == sources;
  }

  // ---------------------------------------------------------------------------
  // Month padding in extractLaunchDates
  // ---------------------------------------------------------------------------

  /** The month of an n2yo browse URL: always two digits, zero-padded below 10, and reads back as the month. */
  function MonthString(month: int): (s: string)
    requires 1 <= month <= 12
    ensures |s| == 2 && AllDigits(s) && DigitsValue(s) == month
  {
    DecimalRoundTrip(month);
    if month < 10 then "0" + NatToDecimal(month) else NatToDecimal(month)
  }
}
