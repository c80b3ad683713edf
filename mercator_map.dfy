/**
 * The 2-D Mercator map of the viewer (js/mercatorMapLoader.js): the linear
 * part of the projection, the day/night terminator sampling, and the greedy
 * placement of satellite name labels.
 *
 * The Mercator y coordinate, the terminator latitude formula, the satellite
 * propagation and the text metrics need trigonometry, logarithms or the
 * canvas; they are inputs here.  A label's eight candidate rectangles are
 * derived from the ends of the eight leader lines, which are inputs too.
 */
module MercatorMap {
  import opened Wrappers

  // ---------------------------------------------------------------------------
  // The projection's linear part
  // ---------------------------------------------------------------------------

  /** Longitude to canvas x: (lon + 180) * (w / 360). */
  function LonToX(lon: real, w: real): (x: real)
    ensures w > 0.0 && -180.0 <= lon <= 180.0 ==> 0.0 <= x <= w
  {
    OnCanvas(lon, w);
    (lon + 180.0) * (w / 360.0)
  }

  /** A longitude in [-180, 180] lands in [0, w]. */
  lemma OnCanvas(lon: real, w: real)
    ensures w > 0.0 && -180.0 <= lon <= 180.0 ==> 0.0 <= (lon + 180.0) * (w / 360.0) <= w
  {
    if w > 0.0 && -180.0 <= lon <= 180.0 {
      var k := w / 360.0;
      assert (360.0 - (lon + 180.0)) * k >= 0.0;
      assert 360.0 * k == w;
    }
  }

  /** On a canvas of positive width, x grows strictly with longitude and spans [0, w] over [-180, 180]. */
  lemma LonToXIncreasing(lon1: real, lon2: real, w: real)
    requires w > 0.0
    ensures lon1 < lon2 <==> LonToX(lon1, w) < LonToX(lon2, w)
    ensures LonToX(-180.0, w) == 0.0 && LonToX(180.0, w) == w
    ensures LonToX(lon2, w) - LonToX(lon1, w) == (lon2 - lon1) * (w / 360.0)
  {
    var k, d := w / 360.0, lon2 - lon1;
    var x1, x2 := LonToX(lon1, w), LonToX(lon2, w);
    assert x2 - x1 == d * k;
    PositiveFactor(d, k);
    assert lon1 < lon2 <==> d > 0.0;
  }

  /** With k > 0, d k is positive exactly when d is. */
  lemma PositiveFactor(d: real, k: real)
    requires k > 0.0
    ensures d > 0.0 <==> d * k > 0.0
  {
    if d <= 0.0 {
      assert (-d) * k >= 0.0;
    }
  }

  /** A turn of the globe is one canvas width. */
  lemma LonToXPeriod(lon: real, w: real)
    ensures LonToX(lon + 360.0, w) == LonToX(lon, w) + w
  {
  }

  /** The latitude bound of the Web-Mercator square, in degrees. */
  const MaxLat: real := 85.05112878

  /** `Math.max(-B, Math.min(B, lat))`: latitudes beyond the bound are folded onto it. */
  function ClampLat(lat: real): (c: real)
    ensures -MaxLat <= c <= MaxLat
    ensures -MaxLat <= lat <= MaxLat ==> c == lat
    ensures lat > MaxLat ==> c == MaxLat
    ensures lat < -MaxLat ==> c == -MaxLat
  {
    if lat > MaxLat then MaxLat else if lat < -MaxLat then -MaxLat else lat
  }

  /** Clamping twice is clamping once, and it keeps the order of latitudes. */
  lemma ClampLatIdempotentMonotone(a: real, b: real)
    ensures ClampLat(ClampLat(a)) == ClampLat(a)
    ensures a <= b ==> ClampLat(a) <= ClampLat(b)
  {
  }

  // ---------------------------------------------------------------------------
  // Day/night terminator
  // ---------------------------------------------------------------------------

  /** The longitude of column `i`: (i / width) * 360 - 180; `None` (NaN) on a zero-width canvas. */
  function ColumnLon(i: nat, width: nat): (lon: Option<real>)
    ensures lon.Some? <==> width > 0
    ensures lon.Some? && i <= width ==> -180.0 <= lon.value <= 180.0
  {
    if width == 0 then None
    else
      var w := width as real;
      var q := i as real / w;
      assert i <= width ==> q <= 1.0 by {
        if i <= width { assert q * w == i as real; }
      }
      Some(q * 360.0 - 180.0)
  }

  /** The columns run from -180 to 180 in strictly increasing longitude. */
  lemma ColumnLonSpan(i: nat, j: nat, width: nat)
    requires 0 < width && i < j <= width
    ensures ColumnLon(0, width) == Some(-180.0) && ColumnLon(width, width) == Some(180.0)
    ensures ColumnLon(i, width).value < ColumnLon(j, width).value
  {
    var w := width as real;
    assert w / w == 1.0;
    QuotientLess(i as real, j as real, w);
  }

  /** Dividing by a positive real keeps a strict order. */
  lemma QuotientLess(a: real, b: real, w: real)
    requires w > 0.0 && a < b
    ensures a / w < b / w
  {
    var qa, qb := a / w, b / w;
    assert qa * w == a && qb * w == b;
  }

  /** A sampled terminator point: its longitude and its clamped latitude. */
  datatype Sample = Sample(lon: Option<real>, lat: real)

  /** The night polygon: the samples, then the closing edge at the given y. */
  datatype NightPolygon = NightPolygon(samples: seq<Sample>, first: Sample, last: Sample, closingY: real)

  /** The closing edge: the bottom (y = height) when the Sun is north of the equator, else the top. */
  function ClosingY(subSolarLat: real, height: real): (y: real)
    ensures y == 0.0 || y == height
    ensures height != 0.0 ==> (y == height <==> subSolarLat > 0.0)
  {
    if subSolarLat > 0.0 then height else 0.0
  }

  /**
   * The sampling loop of `drawDayNightTerminatorMercator`: one point per
   * column `0..width`, with the latitude the formula gives for that column
   * (`rawLat[i]`, an input) clamped, and the first and last points recorded.
   */
  method SampleTerminator(width: nat, height: real, subSolarLat: real, rawLat: seq<real>)
    returns (night: NightPolygon)
    requires |rawLat| > width
    ensures |night.samples| == width + 1
    ensures forall i :: 0 <= i <= width ==>
      night.samples[i] == Sample(ColumnLon(i, width), ClampLat(rawLat[i]))
    ensures night.first == night.samples[0] && night.last == night.samples[width]
    ensures night.closingY == ClosingY(subSolarLat, height)
  {
    var points: seq<Sample> := [];
    var firstPoint: Option<Sample> := None;
    var lastPoint: Option<Sample> := None;
    var i := 0;
    while i <= width
      invariant i <= width + 1
      invariant |points| == i
      invariant forall k :: 0 <= k < i ==> points[k] == Sample(ColumnLon(k, width), ClampLat(rawLat[k]))
      invariant i > 0 ==> firstPoint == Some(points[0])
      invariant i <= width ==> lastPoint == None
      invariant i == width + 1 ==> lastPoint == Some(points[width])
    {
      var p := Sample(ColumnLon(i, width), ClampLat(rawLat[i]));
      points := points + [p];
      if i == 0 { firstPoint := Some(p); }
      if i == width { lastPoint := Some(p); }
      i := i + 1;
    }
    night := NightPolygon(points, firstPoint.value, lastPoint.value, ClosingY(subSolarLat, height));
  }

  /** Every sampled latitude lies on the map, whatever the formula gave. */
  lemma SamplesOnMap(night: NightPolygon, width: nat, rawLat: seq<real>)
    requires |rawLat| > width && |night.samples| == width + 1
    requires forall i :: 0 <= i <= width ==> night.samples[i] == Sample(ColumnLon(i, width), ClampLat(rawLat[i]))
    ensures forall i :: 0 <= i < |night.samples| ==> -MaxLat <= night.samples[i].lat <= MaxLat
  {
    forall i | 0 <= i < |night.samples|
      ensures -MaxLat <= night.samples[i].lat <= MaxLat
    {
      assert night.samples[i] == Sample(ColumnLon(i, width), ClampLat(rawLat[i]));
    }
  }

  // ---------------------------------------------------------------------------
  // Label rectangles
  // ---------------------------------------------------------------------------

  /** An axis-aligned label rectangle. */
  datatype Rect = Rect(x: real, y: real, width: real, height: real)

  /** The overlap test of the label placer: strict, so rectangles that only touch do not overlap. */
  predicate Overlaps(a: Rect, b: Rect)
    ensures a.x + a.width <= b.x || b.x + b.width <= a.x || a.y + a.height <= b.y || b.y + b.height <= a.y ==>
      !Overlaps(a, b)
  {
    a.x < b.x + b.width && a.x + a.width > b.x &&
    a.y < b.y + b.height && a.y + a.height > b.y
  }

  /** Overlap is symmetric, and rectangles sharing only an edge do not overlap. */
  lemma OverlapsSymmetric(a: Rect, b: Rect)
    ensures Overlaps(a, b) <==> Overlaps(b, a)
    ensures a.x + a.width == b.x ==> !Overlaps(a, b)
    ensures a.y + a.height == b.y ==> !Overlaps(a, b)
  {
  }

  /** Two rectangles with positive sides at the same place overlap. */
  lemma OverlapsItself(a: Rect)
    requires a.width > 0.0 && a.height > 0.0
    ensures Overlaps(a, a)
  {
  }

  /** The label padding of the source: 5 horizontally, 3 vertically; text 12 high. */
  const PadX: real := 5.0
  const PadY: real := 3.0
  const LabelHeight: real := 12.0 + 2.0 * PadY

  /** Where a leader line ends, and whether the label goes to its right (cos >= 0 or |cos| < 0.1). */
  datatype LeaderEnd = LeaderEnd(x: real, y: real, rightSide: bool)

  /** The label rectangle tried for one leader end, given the label width (text width + 2 * 5). */
  function CandidateRect(e: LeaderEnd, labelWidth: real): (r: Rect)
    ensures r.width == labelWidth && r.height == LabelHeight
    ensures e.rightSide ==> r.x == e.x
    ensures !e.rightSide ==> r.x + r.width == e.x
    ensures r.y + r.height / 2.0 == e.y - PadY
  {
    var textX := e.x + (if e.rightSide then PadX else -labelWidth + PadX);
    var textY := e.y - LabelHeight / 2.0;
    Rect(textX - PadX, textY - PadY, labelWidth, LabelHeight)
  }

  /** `labelPositions.some(lp => overlap(rect, lp))`. */
  predicate OverlapsAny(r: Rect, placed: seq<Rect>) {
    exists i :: 0 <= i < |placed| && Overlaps(r, placed[i])
  }

  /** The first candidate that overlaps no placed label, if any. */
  function FirstFree(placed: seq<Rect>, candidates: seq<Rect>): (best: Option<Rect>)
    ensures best.Some? ==> best.value in candidates && !OverlapsAny(best.value, placed)
  {
    if candidates == [] then None
    else if !OverlapsAny(candidates[0], placed) then Some(candidates[0])
    else FirstFree(placed, candidates[1..])
  }

  /** The choice is the first fitting candidate: every earlier one overlaps, and `None` means none fits. */
  lemma {:induction false} FirstFreeIsFirst(placed: seq<Rect>, candidates: seq<Rect>)
    ensures FirstFree(placed, candidates).None? <==>
      forall i :: 0 <= i < |candidates| ==> OverlapsAny(candidates[i], placed)
    ensures FirstFree(placed, candidates).Some? ==>
      exists j :: 0 <= j < |candidates| && candidates[j] == FirstFree(placed, candidates).value &&
        forall i :: 0 <= i < j ==> OverlapsAny(candidates[i], placed)
  {
    if candidates != [] && OverlapsAny(candidates[0], placed) {
      var rest := candidates[1..];
      FirstFreeIsFirst(placed, rest);
      forall i | 0 < i < |candidates|
        ensures candidates[i] == rest[i - 1]
      {
      }
      if FirstFree(placed, rest).Some? {
        var j :| 0 <= j < |rest| && rest[j] == FirstFree(placed, rest).value &&
          forall i :: 0 <= i < j ==> OverlapsAny(rest[i], placed);
        assert candidates[j + 1] == rest[j];
      }
    } else if candidates != [] {
      assert candidates[0] == FirstFree(placed, candidates).value;
    }
  }

  /** The candidate loop of `updateMercatorMap`: try each in order, break at the first that fits. */
  method PlaceLabel(placed: seq<Rect>, candidates: seq<Rect>) returns (best: Option<Rect>)
    ensures best == FirstFree(placed, candidates)
  {
    best := None;
    var n := 0;
    while n < |candidates|
      invariant n <= |candidates|
      invariant FirstFree(placed, candidates) == FirstFree(placed, candidates[n..])
    {
      assert candidates[n..][1..] == candidates[n + 1..];
      var isOverlapping := OverlapsAny(candidates[n], placed);
      if !isOverlapping {
        best := Some(candidates[n]);
        break;
      }
      n := n + 1;
    }
  }

  // ---------------------------------------------------------------------------
  // The layout of all labels
  // ---------------------------------------------------------------------------

  /** A satellite to draw: its projected point and what its label needs. */
  datatype DrawDatum = DrawDatum(name: string, x: real, y: real, labelWidth: real, ends: seq<LeaderEnd>)

  /** The candidate rectangles of a satellite, in the fixed angle order of its leader ends. */
  function Candidates(d: DrawDatum): (cs: seq<Rect>)
    ensures |cs| == |d.ends|
    ensures forall i :: 0 <= i < |cs| ==> cs[i] == CandidateRect(d.ends[i], d.labelWidth)
  {
    seq(|d.ends|, i requires 0 <= i < |d.ends| => CandidateRect(d.ends[i], d.labelWidth))
  }

  /** How a satellite's name was drawn: beside a leader line in a rectangle, or centred above the icon. */
  datatype Placement = Leader(rect: Rect) | Centred

  /** The labels placed and the placement of every satellite, after the satellites `ds`. */
  function Layout(ds: seq<DrawDatum>): (r: (seq<Rect>, seq<Placement>))
    ensures |r.1| == |ds| && |r.0| <= |ds|
  {
    if ds == [] then ([], [])
    else
      var prev := Layout(ds[..|ds| - 1]);
      match FirstFree(prev.0, Candidates(ds[|ds| - 1]))
      case Some(rect) => (prev.0 + [rect], prev.1 + [Leader(rect)])
      case None => (prev.0, prev.1 + [Centred])
  }

  /** No two placed labels overlap. */
  predicate PairwiseDisjoint(rs: seq<Rect>) {
    forall i, j :: 0 <= i < j < |rs| ==> !Overlaps(rs[j], rs[i])
  }

  /** The layout keeps the placed labels pairwise non-overlapping. */
  lemma {:induction false} LayoutDisjoint(ds: seq<DrawDatum>)
    ensures PairwiseDisjoint(Layout(ds).0)
  {
    if ds != [] {
      var prev := Layout(ds[..|ds| - 1]);
      LayoutDisjoint(ds[..|ds| - 1]);
      var best := FirstFree(prev.0, Candidates(ds[|ds| - 1]));
      if best.Some? {
        var rs := prev.0 + [best.value];
        forall i, j | 0 <= i < j < |rs|
          ensures !Overlaps(rs[j], rs[i])
        {
          if j == |rs| - 1 {
            assert rs[i] == prev.0[i];
          }
        }
      }
    }
  }

  /** The labels are exactly the leader rectangles among the placements, in order. */
  function LeaderRects(ps: seq<Placement>): seq<Rect>
  {
    if ps == [] then []
    else LeaderRects(ps[..|ps| - 1]) + (if ps[|ps| - 1].Leader? then [ps[|ps| - 1].rect] else [])
  }

  lemma {:induction false} LayoutLabelsAreLeaders(ds: seq<DrawDatum>)
    ensures Layout(ds).0 == LeaderRects(Layout(ds).1)
  {
    if ds != [] {
      LayoutLabelsAreLeaders(ds[..|ds| - 1]);
      var ps := Layout(ds).1;
      assert ps[..|ps| - 1] == Layout(ds[..|ds| - 1]).1;
    }
  }

  /** Satellite `k` gets a leader exactly when one of its candidates fits beside the labels before it. */
  lemma {:induction false} LayoutPlacement(ds: seq<DrawDatum>, k: nat)
    requires k < |ds|
    ensures Layout(ds).1[k] ==
      (match FirstFree(Layout(ds[..k]).0, Candidates(ds[k]))
       case Some(rect) => Leader(rect)
       case None => Centred)
    decreases |ds|
  {
    var q := ds[..|ds| - 1];
    if k < |ds| - 1 {
      LayoutPlacement(q, k);
      assert q[..k] == ds[..k];
      assert q[k] == ds[k];
    } else {
      assert ds[..k] == q;
    }
  }

  /** The loop of `updateMercatorMap` over the sorted draw data. */
  method LayoutLabels(ds: seq<DrawDatum>) returns (labels: seq<Rect>, placements: seq<Placement>)
    ensures (labels, placements) == Layout(ds)
  {
    labels, placements := [], [];
    var n := 0;
    while n < |ds|
      invariant n <= |ds|
      invariant (labels, placements) == Layout(ds[..n])
    {
      assert ds[..n + 1][..n] == ds[..n];
      var bestPos := PlaceLabel(labels, Candidates(ds[n]));
      if bestPos.Some? {
        labels := labels + [bestPos.value];
        placements := placements + [Leader(bestPos.value)];
      } else {
        placements := placements + [Centred];
      }
      n := n + 1;
    }
    assert ds[..n] == ds;
  }

  // ---------------------------------------------------------------------------
  // The draw data
  // ---------------------------------------------------------------------------

  /** What propagating a satellite gave: a projected point, no position, or an exception. */
  datatype Propagation = Projected(x: real, y: real) | NoPosition | PropagationThrew

  /** A satellite as the map sees it. */
  datatype MapSatellite = MapSatellite(name: string, meshVisible: bool, hasSatrec: bool,
                                       propagation: Propagation, labelWidth: real, ends: seq<LeaderEnd>)

  /** Drawn: a visible mesh, a `satrec`, and a propagation that produced a point. */
  predicate Drawn(s: MapSatellite) {
    s.meshVisible && s.hasSatrec && s.propagation.Projected?
  }

  function DatumOf(s: MapSatellite): DrawDatum
    requires Drawn(s)
  {
    DrawDatum(s.name, s.propagation.x, s.propagation.y, s.labelWidth, s.ends)
  }

  /** `filter(visible && satrec).map(propagate).filter(Boolean)`: the drawn satellites, in input order. */
  function DrawData(sats: seq<MapSatellite>): (ds: seq<DrawDatum>)
    ensures |ds| <= |sats|
  {
    if sats == [] then []
    else
      var last := sats[|sats| - 1];
      DrawData(sats[..|sats| - 1]) + (if Drawn(last) then [DatumOf(last)] else [])
  }

  /** A satellite reaches the map exactly when it is drawable; the others are dropped. */
  lemma {:induction false} DrawDataMembers(sats: seq<MapSatellite>, d: DrawDatum)
    ensures d in DrawData(sats) <==> exists i :: 0 <= i < |sats| && Drawn(sats[i]) && DatumOf(sats[i]) == d
  {
    if sats != [] {
      var q := sats[..|sats| - 1];
      DrawDataMembers(q, d);
      if exists i :: 0 <= i < |q| && Drawn(q[i]) && DatumOf(q[i]) == d {
        var i :| 0 <= i < |q| && Drawn(q[i]) && DatumOf(q[i]) == d;
        assert sats[i] == q[i];
      }
      if exists i :: 0 <= i < |sats| && Drawn(sats[i]) && DatumOf(sats[i]) == d {
        var i :| 0 <= i < |sats| && Drawn(sats[i]) && DatumOf(sats[i]) == d;
        if i < |q| {
          assert sats[i] == q[i];
        }
      }
    }
  }

  /** Ascending by projected y. */
  predicate SortedByY(ds: seq<DrawDatum>) {
    forall i, j :: 0 <= i < j < |ds| ==> ds[i].y <= ds[j].y
  }

  /** Where `d` goes: after every element whose y is not larger, so equal keys keep their order. */
  function InsertPos(d: DrawDatum, s: seq<DrawDatum>): (k: nat)
    requires SortedByY(s)
    ensures k <= |s|
    ensures forall i :: 0 <= i < k ==> s[i].y <= d.y
    ensures forall i :: k <= i < |s| ==> s[i].y > d.y
  {
    if s == [] then 0
    else if s[|s| - 1].y <= d.y then |s|
    else InsertPos(d, s[..|s| - 1])
  }

  /** Inserting into a sorted sequence keeps it sorted and adds exactly `d`. */
  function InsertByY(d: DrawDatum, s: seq<DrawDatum>): (r: seq<DrawDatum>)
    requires SortedByY(s)
    ensures SortedByY(r) && multiset(r) == multiset(s) + multiset{d}
    ensures |r| == |s| + 1
  {
    var k := InsertPos(d, s);
    var r := s[..k] + [d] + s[k..];
    assert s[..k] + s[k..] == s;
    forall i, j | 0 <= i < j < |r|
      ensures r[i].y <= r[j].y
    {
      if j < k {
        assert r[i] == s[i] && r[j] == s[j];
      } else if i > k {
        assert r[i] == s[i - 1] && r[j] == s[j - 1];
      } else if i == k {
        assert r[j] == s[j - 1];
      } else {
        assert r[i] == s[i];
        if j > k { assert r[j] == s[j - 1]; }
      }
    }
    r
  }

  /** `.sort((a, b) => a.pt.y - b.pt.y)`: sorted ascending by y, a permutation of the input. */
  function SortByY(ds: seq<DrawDatum>): (r: seq<DrawDatum>)
    ensures SortedByY(r) && multiset(r) == multiset(ds)
    ensures |r| == |ds|
  {
    if ds == [] then []
    else
      assert ds == ds[..|ds| - 1] + [ds[|ds| - 1]];
      InsertByY(ds[|ds| - 1], SortByY(ds[..|ds| - 1]))
  }

  /**
   * The label part of `updateMercatorMap`: the drawn satellites sorted by y,
   * then labelled one by one.
   */
  method UpdateMercatorLabels(sats: seq<MapSatellite>) returns (labels: seq<Rect>, placements: seq<Placement>)
    ensures (labels, placements) == Layout(SortByY(DrawData(sats)))
    ensures PairwiseDisjoint(labels) && |placements| <= |sats|
  {
    var satDrawData := SortByY(DrawData(sats));
    labels, placements := LayoutLabels(satDrawData);
    LayoutDisjoint(satDrawData);
  }
}
