/**
 * The RF-footprint builder of the globe viewer (js/satelliteFootprintLoader.js).
 *
 * A satellite may carry footprints either as a GeoJSON FeatureCollection or
 * as a flat array of points.  Flat points are grouped by `beamId ?? 'eirp'`
 * in a JavaScript Map (first-appearance order), each group becoming one
 * shape whose path is the list of [lat, lon] pairs.  The loader builds the
 * shapes of a satellite once and caches them; every update hides all cached
 * footprints and shows only the selected one.
 *
 * A JavaScript exception (a TypeError on a missing geometry or ring) is the
 * value `None` of the outcomes below.
 */
module SatelliteFootprintLoader {
  import opened Wrappers

  /** A JavaScript property that may be absent (`undefined`), `null` or a value. */
  datatype JsField<T> = Undefined | Null | Defined(value: T)

  /** The seven beam colours, indexed by `beamId % 7`. */
  const Palette: seq<string> :=
    ["#ff4c4c", "#ff8c1a", "#ffd21a", "#66cc33", "#3399ff", "#9966ff", "#ff66cc"]

  /**
   * A fill colour: a palette entry, the HSL colour `eirpColor` derives from an
   * EIRP value in dBW, or `undefined` (what indexing the palette out of range yields).
   */
  datatype Colour = PaletteColour(css: string) | EirpColour(dbw: real) | NoColour

  /** A shape of the Mercator map: a path of (lat, lon) pairs and its colour. */
  datatype Shape = Shape(path: seq<(real, real)>, colour: Colour)

  /** `id % PALETTE.length` in JavaScript: truncating, so the result has the sign of `id`. */
  function PaletteRem(id: int): (r: int)
    ensures -7 < r < 7
    ensures id >= 0 ==> r == id % 7
    ensures id < 0 ==> r == (if id % 7 == 0 then 0 else id % 7 - 7)
  {
    if id >= 0 then id % 7 else -((-id) % 7)
  }

  /** The key a flat point is grouped under: its beam id, or 'eirp' when that is nullish. */
  datatype BeamKey = Beam(id: int) | EirpKey

  /** `beamColor(k)`: the palette entry at `k % 7`, `undefined` when that is not an index. */
  function BeamColour(k: BeamKey): (c: Colour)
    ensures k.EirpKey? ==> c == NoColour
    ensures k.Beam? && k.id >= 0 ==> c == PaletteColour(Palette[k.id % 7])
    ensures k.Beam? && k.id < 0 ==> (c == NoColour <==> k.id % 7 != 0)
  {
    match k
    case EirpKey => NoColour       // 'eirp' % 7 is NaN
    case Beam(id) =>
      var r := PaletteRem(id);
      if r >= 0 then PaletteColour(Palette[r]) else NoColour
  }

  /** `eirpColor(v)` for a defined `eirp_dBW`: `null` takes part in the arithmetic as 0. */
  function EirpColourOf(e: JsField<real>): (c: Colour)
    requires !e.Undefined?
    ensures c.EirpColour?
    ensures e.Defined? ==> c.dbw == e.value
  {
    match e
    case Null => EirpColour(0.0)
    case Defined(v) => EirpColour(v)
  }

  /** The colour rule shared by both formats: EIRP colour when `eirp_dBW` is present, else the beam colour. */
  function PickColour(eirp: JsField<real>, k: BeamKey): (c: Colour)
    ensures !eirp.Undefined? ==> c == EirpColourOf(eirp)
    ensures eirp.Undefined? ==> c == BeamColour(k)
  {
    if !eirp.Undefined? then EirpColourOf(eirp) else BeamColour(k)
  }

  // ---------------------------------------------------------------------------
  // GeoJSON features
  // ---------------------------------------------------------------------------

  /** A GeoJSON position, longitude first. */
  type Position = (real, real)
  /** A linear ring of positions. */
  type Ring = seq<Position>

  /** The geometry of a feature; `MissingGeometry` is an absent `geometry` member. */
  datatype Geometry =
    | Polygon(rings: seq<Ring>)
    | MultiPolygon(polygons: seq<seq<Ring>>)
    | OtherGeometry
    | MissingGeometry

  /** The properties read from a feature. */
  datatype Properties = Properties(eirp: JsField<real>, beamId: JsField<int>)

  /** A GeoJSON feature; `properties` is `None` when it is absent or null. */
  datatype Feature = Feature(properties: Option<Properties>, geometry: Geometry)

  /** A ring as a path: every [lon, lat] position becomes [lat, lon]. */
  function RingPath(ring: Ring): (path: seq<(real, real)>)
    ensures |path| == |ring|
    ensures forall i :: 0 <= i < |ring| ==> path[i].0 == ring[i].1 && path[i].1 == ring[i].0
  {
    seq(|ring|, i requires 0 <= i < |ring| => (ring[i].1, ring[i].0))
  }

  /** `beamColor(c.beamId || 0)`: a falsy beam id (absent, null, 0) counts as beam 0. */
  function FeatureBeam(c: Properties): BeamKey
  {
    match c.beamId
    case Defined(id) => Beam(id)
    case _ => Beam(0)
  }

  /** The colour of every shape of a feature. */
  function FeatureColour(f: Feature): Colour
  {
    var c := f.properties.GetOr(Properties(Undefined, Undefined));
    PickColour(c.eirp, FeatureBeam(c))
  }

  /** `geoFeatureToPolys(f)`: the shapes of one feature, `None` when it throws. */
  function FeatureShapes(f: Feature): (r: Option<seq<Shape>>)
    ensures f.geometry.MissingGeometry? ==> r.None?
    ensures r.Some? ==> forall k :: 0 <= k < |r.value| ==> r.value[k].colour == FeatureColour(f)
  {
    var col := FeatureColour(f);
    match f.geometry
    case MissingGeometry => None
    case OtherGeometry => Some([])
    case Polygon(rings) =>
      if |rings| == 0 then None else Some([Shape(RingPath(rings[0]), col)])
    case MultiPolygon(polys) =>
      if exists j :: 0 <= j < |polys| && |polys[j]| == 0 then None
      else Some(seq(|polys|, j requires 0 <= j < |polys| && |polys[j]| > 0 =>
                               Shape(RingPath(polys[j][0]), col)))
  }

  /** The shapes of a feature are its outer rings, swapped to [lat, lon], in one colour. */
  lemma FeatureShapesAreOuterRings(f: Feature)
    ensures f.geometry.MissingGeometry? ==> FeatureShapes(f).None?
    ensures f.geometry.OtherGeometry? ==> FeatureShapes(f) == Some([])
    ensures f.geometry.Polygon? ==>
      (FeatureShapes(f).Some? <==> |f.geometry.rings| > 0)
    ensures f.geometry.Polygon? && FeatureShapes(f).Some? ==>
      FeatureShapes(f).value == [Shape(RingPath(f.geometry.rings[0]), FeatureColour(f))]
    ensures f.geometry.MultiPolygon? ==>
      (FeatureShapes(f).Some? <==> forall j :: 0 <= j < |f.geometry.polygons| ==> |f.geometry.polygons[j]| > 0)
    ensures f.geometry.MultiPolygon? && FeatureShapes(f).Some? ==>
      |FeatureShapes(f).value| == |f.geometry.polygons| &&
      forall j :: 0 <= j < |f.geometry.polygons| ==>
        FeatureShapes(f).value[j] == Shape(RingPath(f.geometry.polygons[j][0]), FeatureColour(f))
  {
  }

  /** Feature colours: EIRP when present, otherwise the palette entry of `beamId || 0`. */
  lemma FeatureColourRule(f: Feature)
    ensures f.properties.None? ==> FeatureColour(f) == PaletteColour(Palette[0])
    ensures f.properties.Some? && !f.properties.value.eirp.Undefined? ==>
      FeatureColour(f) == EirpColourOf(f.properties.value.eirp)
    ensures f.properties.Some? && f.properties.value.eirp.Undefined? && !f.properties.value.beamId.Defined? ==>
      FeatureColour(f) == PaletteColour(Palette[0])
    ensures f.properties.Some? && f.properties.value.eirp.Undefined? && f.properties.value.beamId.Defined? ==>
      FeatureColour(f) == BeamColour(Beam(f.properties.value.beamId.value))
  {
  }

  /** `features.flatMap(geoFeatureToPolys)`: the concatenation, `None` once a feature throws. */
  function CollectionShapes(features: seq<Feature>): (r: Option<seq<Shape>>)
    ensures r.Some? <==> forall k :: 0 <= k < |features| ==> FeatureShapes(features[k]).Some?
  {
    if features == [] then Some([])
    else
      var init := features[..|features| - 1];
      assert forall k :: 0 <= k < |init| ==> init[k] == features[k];
      match CollectionShapes(init)
      case None => None
      case Some(prev) =>
        match FeatureShapes(features[|features| - 1])
        case None => None
        case Some(last) => Some(prev + last)
  }

  /** flatMap distributes over concatenation of feature lists. */
  lemma {:induction false} CollectionShapesAppend(a: seq<Feature>, b: seq<Feature>)
    ensures CollectionShapes(a + b) ==
      (if CollectionShapes(a).Some? && CollectionShapes(b).Some?
       then Some(CollectionShapes(a).value + CollectionShapes(b).value) else None)
    decreases |b|
  {
    if b == [] {
      assert a + b == a;
      if CollectionShapes(a).Some? {
        assert CollectionShapes(a).value + [] == CollectionShapes(a).value;
      }
    } else {
      var b' := b[..|b| - 1];
      assert (a + b)[..|a + b| - 1] == a + b';
      assert (a + b)[|a + b| - 1] == b[|b| - 1];
      CollectionShapesAppend(a, b');
      if CollectionShapes(a).Some? && CollectionShapes(b').Some? && FeatureShapes(b[|b| - 1]).Some? {
        var x, y, z := CollectionShapes(a).value, CollectionShapes(b').value, FeatureShapes(b[|b| - 1]).value;
        assert x + y + z == x + (y + z);
      }
    }
  }

  /** A collection of one feature has exactly that feature's shapes. */
  lemma SingleFeature(f: Feature)
    ensures CollectionShapes([f]) == FeatureShapes(f)
  {
    assert [f][..0] == [];
    if FeatureShapes(f).Some? {
      assert [] + FeatureShapes(f).value == FeatureShapes(f).value;
    }
  }

  // ---------------------------------------------------------------------------
  // Flat point arrays
  // ---------------------------------------------------------------------------

  /** A flat footprint point `{lat, lon, beamId?, eirp_dBW?}`. */
  datatype FlatPoint = FlatPoint(lat: real, lon: real, beamId: JsField<int>, eirp: JsField<real>)

  /** `p.beamId ?? 'eirp'`: only undefined and null fall back to 'eirp' (beam 0 stays beam 0). */
  function KeyOf(p: FlatPoint): (k: BeamKey)
    ensures k.EirpKey? <==> !p.beamId.Defined?
    ensures p.beamId.Defined? ==> k == Beam(p.beamId.value)
  {
    if p.beamId.Defined? then Beam(p.beamId.value) else EirpKey
  }

  /** The keys of the points, each once, in the order they first appear. */
  function GroupKeys(ps: seq<FlatPoint>): (ks: seq<BeamKey>)
    ensures |ks| <= |ps|
  {
    if ps == [] then []
    else
      var ks := GroupKeys(ps[..|ps| - 1]);
      var k := KeyOf(ps[|ps| - 1]);
      if k in ks then ks else ks + [k]
  }

  /** The points grouped under key `k`, in input order. */
  function GroupMembers(ps: seq<FlatPoint>, k: BeamKey): (members: seq<FlatPoint>)
    ensures |members| <= |ps|
  {
    if ps == [] then []
    else GroupMembers(ps[..|ps| - 1], k) + (if KeyOf(ps[|ps| - 1]) == k then [ps[|ps| - 1]] else [])
  }

  /** The path of a group: one (lat, lon) pair per point. */
  function PointPath(pts: seq<FlatPoint>): (path: seq<(real, real)>)
    ensures |path| == |pts|
    ensures forall i :: 0 <= i < |pts| ==> path[i] == (pts[i].lat, pts[i].lon)
  {
    seq(|pts|, i requires 0 <= i < |pts| => (pts[i].lat, pts[i].lon))
  }

  /** The shape of the group under `k`: coloured by its first point's EIRP, else by the beam. */
  function GroupShape(ps: seq<FlatPoint>, k: BeamKey): Shape
  {
    var pts := GroupMembers(ps, k);
    Shape(PointPath(pts), if pts == [] then BeamColour(k) else PickColour(pts[0].eirp, k))
  }

  /** The shapes of the groups named by `ks`, in that order. */
  function ShapesOf(ps: seq<FlatPoint>, ks: seq<BeamKey>): (shapes: seq<Shape>)
    ensures |shapes| == |ks|
    ensures forall j :: 0 <= j < |ks| ==> shapes[j] == GroupShape(ps, ks[j])
  {
    if ks == [] then [] else ShapesOf(ps, ks[..|ks| - 1]) + [GroupShape(ps, ks[|ks| - 1])]
  }

  /** The shapes the flat branch of `parseFootprints` returns. */
  function FlatShapes(ps: seq<FlatPoint>): (shapes: seq<Shape>)
    ensures |shapes| <= |ps|
  {
    ShapesOf(ps, GroupKeys(ps))
  }

  /** A key is listed exactly when some point carries it. */
  lemma {:induction false} GroupKeysComplete(ps: seq<FlatPoint>, k: BeamKey)
    ensures k in GroupKeys(ps) <==> exists j :: 0 <= j < |ps| && KeyOf(ps[j]) == k
  {
    if ps != [] {
      var q := ps[..|ps| - 1];
      GroupKeysComplete(q, k);
      if k in GroupKeys(q) {
        var j :| 0 <= j < |q| && KeyOf(q[j]) == k;
        assert KeyOf(ps[j]) == k;
      }
      if exists j :: 0 <= j < |ps| && KeyOf(ps[j]) == k {
        var j :| 0 <= j < |ps| && KeyOf(ps[j]) == k;
        if j < |q| {
          assert KeyOf(q[j]) == k;
        }
      }
    }
  }

  /** No key is listed twice, so every group is one Map entry. */
  lemma {:induction false} GroupKeysDistinct(ps: seq<FlatPoint>)
    ensures forall a, b :: 0 <= a < b < |GroupKeys(ps)| ==> GroupKeys(ps)[a] != GroupKeys(ps)[b]
  {
    if ps != [] {
      GroupKeysDistinct(ps[..|ps| - 1]);
    }
  }

  /** The keys of a prefix of the input are a prefix of the keys. */
  lemma {:induction false} GroupKeysPrefix(ps: seq<FlatPoint>, n: nat)
    requires n <= |ps|
    ensures GroupKeys(ps[..n]) <= GroupKeys(ps)
    decreases |ps| - n
  {
    if n < |ps| {
      GroupKeysPrefix(ps, n + 1);
      assert ps[..n + 1][..n] == ps[..n];
    } else {
      assert ps[..n] == ps;
    }
  }

  /**
   * First-appearance order: wherever the key listed at position `b` occurs,
   * every key listed before it has already occurred earlier in the input.
   */
  lemma GroupKeysInFirstAppearanceOrder(ps: seq<FlatPoint>, a: nat, b: nat, j: nat)
    requires a < b < |GroupKeys(ps)|
    requires j < |ps| && KeyOf(ps[j]) == GroupKeys(ps)[b]
    ensures exists i :: 0 <= i < j && KeyOf(ps[i]) == GroupKeys(ps)[a]
  {
    var keys := GroupKeys(ps);
    var before := GroupKeys(ps[..j]);
    GroupKeysPrefix(ps, j);
    GroupKeysPrefix(ps, j + 1);
    assert ps[..j + 1][..j] == ps[..j];
    assert ps[..j + 1][j] == ps[j];
    var after := GroupKeys(ps[..j + 1]);
    assert keys[b] in after;
    assert b < |after| by {
      GroupKeysDistinct(ps);
      var m :| 0 <= m < |after| && after[m] == keys[b];
      assert keys[m] == keys[b];
    }
    assert a < |before|;
    assert before[a] == keys[a];
    GroupKeysComplete(ps[..j], keys[a]);
    var i :| 0 <= i < j && KeyOf(ps[..j][i]) == keys[a];
    assert KeyOf(ps[i]) == keys[a];
  }

  /** A group is non-empty exactly when its key is listed. */
  lemma {:induction false} GroupMembersNonEmpty(ps: seq<FlatPoint>, k: BeamKey)
    ensures GroupMembers(ps, k) != [] <==> k in GroupKeys(ps)
  {
    if ps != [] {
      GroupMembersNonEmpty(ps[..|ps| - 1], k);
    }
  }

  /** Every member of a group carries the group's key. */
  lemma {:induction false} GroupMembersHaveKey(ps: seq<FlatPoint>, k: BeamKey)
    ensures forall i :: 0 <= i < |GroupMembers(ps, k)| ==> KeyOf(GroupMembers(ps, k)[i]) == k
  {
    if ps != [] {
      GroupMembersHaveKey(ps[..|ps| - 1], k);
    }
  }

  /** The number of points in the groups named by `ks`. */
  function GroupSizes(ps: seq<FlatPoint>, ks: seq<BeamKey>): nat
  {
    if ks == [] then 0 else GroupSizes(ps, ks[..|ks| - 1]) + |GroupMembers(ps, ks[|ks| - 1])|
  }

  /** Appending one point adds it to the one group of its key. */
  lemma {:induction false} GroupSizesStep(q: seq<FlatPoint>, p: FlatPoint, ks: seq<BeamKey>)
    requires forall a, b :: 0 <= a < b < |ks| ==> ks[a] != ks[b]
    ensures GroupSizes(q + [p], ks) == GroupSizes(q, ks) + (if KeyOf(p) in ks then 1 else 0)
  {
    var ps := q + [p];
    assert ps[..|ps| - 1] == q;
    if ks != [] {
      var ks' := ks[..|ks| - 1];
      GroupSizesStep(q, p, ks');
      assert ks == ks' + [ks[|ks| - 1]];
      assert KeyOf(p) in ks <==> KeyOf(p) in ks' || KeyOf(p) == ks[|ks| - 1];
      if KeyOf(p) == ks[|ks| - 1] {
        assert KeyOf(p) !in ks';
      }
    }
  }

  /** The groups partition the input: their sizes add up to the number of points. */
  lemma {:induction false} GroupsPartition(ps: seq<FlatPoint>)
    ensures GroupSizes(ps, GroupKeys(ps)) == |ps|
  {
    if ps != [] {
      var q, p := ps[..|ps| - 1], ps[|ps| - 1];
      assert ps == q + [p];
      GroupsPartition(q);
      GroupKeysDistinct(q);
      GroupSizesStep(q, p, GroupKeys(q));
      if KeyOf(p) !in GroupKeys(q) {
        var ks := GroupKeys(q) + [KeyOf(p)];
        assert ks[..|ks| - 1] == GroupKeys(q);
        GroupMembersNonEmpty(q, KeyOf(p));
        assert GroupMembers(ps, KeyOf(p)) == [p];
      }
    }
  }

  /** The number of path points over a list of shapes. */
  function TotalPoints(shapes: seq<Shape>): nat
  {
    if shapes == [] then 0 else TotalPoints(shapes[..|shapes| - 1]) + |shapes[|shapes| - 1].path|
  }

  lemma {:induction false} ShapesOfPoints(ps: seq<FlatPoint>, ks: seq<BeamKey>)
    ensures TotalPoints(ShapesOf(ps, ks)) == GroupSizes(ps, ks)
  {
    if ks != [] {
      var s := ShapesOf(ps, ks);
      assert s[..|s| - 1] == ShapesOf(ps, ks[..|ks| - 1]);
      ShapesOfPoints(ps, ks[..|ks| - 1]);
    }
  }

  /** Flat footprints lose no point and invent none: the paths hold exactly |ps| pairs. */
  lemma FlatShapesKeepEveryPoint(ps: seq<FlatPoint>)
    ensures TotalPoints(FlatShapes(ps)) == |ps|
  {
    ShapesOfPoints(ps, GroupKeys(ps));
    GroupsPartition(ps);
  }

  /**
   * Each flat shape is one beam group: its path is the group's [lat, lon]
   * pairs in input order, its colour the first point's EIRP colour or the beam colour.
   */
  lemma FlatShapeIsGroup(ps: seq<FlatPoint>, j: nat)
    requires j < |GroupKeys(ps)|
    ensures |FlatShapes(ps)| == |GroupKeys(ps)|
    ensures var k, pts := GroupKeys(ps)[j], GroupMembers(ps, GroupKeys(ps)[j]);
      pts != [] &&
      (forall i :: 0 <= i < |pts| ==> KeyOf(pts[i]) == k) &&
      FlatShapes(ps)[j] == Shape(PointPath(pts), PickColour(pts[0].eirp, k))
  {
    var k := GroupKeys(ps)[j];
    GroupMembersNonEmpty(ps, k);
    GroupMembersHaveKey(ps, k);
  }

  /** The accepted shapes of `footprints`. */
  datatype Footprints =
    | Collection(features: seq<Feature>)   // an object whose `features` is an array
    | FlatArray(points: seq<FlatPoint>)    // an array of points
    | Unrecognised                         // anything else

  /** What `parseFootprints(fp)` returns; `None` when it throws. */
  function FootprintShapes(fp: Footprints): Option<seq<Shape>>
  {
    match fp
    case Collection(features) => CollectionShapes(features)
    case FlatArray(points) => Some(FlatShapes(points))
    case Unrecognised => Some([])
  }

  /** The Map after the first `n` points: `keys` its insertion order, `groups` its arrays. */
  ghost predicate Grouped(ps: seq<FlatPoint>, keys: seq<BeamKey>, groups: map<BeamKey, seq<FlatPoint>>)
  {
    keys == GroupKeys(ps) &&
    (forall k :: k in groups <==> k in keys) &&
    (forall k :: k in groups ==> groups[k] == GroupMembers(ps, k))
  }

  /** `by.has(k) || by.set(k, []); by.get(k).push(p)` keeps the Map in step with the points seen. */
  lemma AddPoint(ps: seq<FlatPoint>, p: FlatPoint, keys: seq<BeamKey>, groups: map<BeamKey, seq<FlatPoint>>,
                 keys': seq<BeamKey>, groups': map<BeamKey, seq<FlatPoint>>)
    requires Grouped(ps, keys, groups)
    requires keys' == if KeyOf(p) in groups then keys else keys + [KeyOf(p)]
    requires groups' == groups[KeyOf(p) := (if KeyOf(p) in groups then groups[KeyOf(p)] else []) + [p]]
    ensures Grouped(ps + [p], keys', groups')
  {
    var kp := KeyOf(p);
    GroupKeysStep(ps, p);
    assert kp in groups <==> kp in keys;
    if kp !in groups {
      GroupMembersNonEmpty(ps, kp);
    }
    forall k | k in groups'
      ensures groups'[k] == GroupMembers(ps + [p], k)
    {
      GroupMembersStep(ps, p, k);
    }
    forall k
      ensures k in groups' <==> k in keys'
    {
    }
  }

  /** Pushing a point appends its key when the key is new, and otherwise keeps the keys. */
  lemma GroupKeysStep(ps: seq<FlatPoint>, p: FlatPoint)
    ensures GroupKeys(ps + [p]) ==
      if KeyOf(p) in GroupKeys(ps) then GroupKeys(ps) else GroupKeys(ps) + [KeyOf(p)]
  {
    assert (ps + [p])[..|ps|] == ps;
  }

  /** Pushing a point appends it to its own group only. */
  lemma GroupMembersStep(ps: seq<FlatPoint>, p: FlatPoint, k: BeamKey)
    ensures GroupMembers(ps + [p], k) == GroupMembers(ps, k) + (if KeyOf(p) == k then [p] else [])
  {
    assert (ps + [p])[..|ps|] == ps;
  }

  /** `[...by.entries()].map(...)`: one shape per Map entry, in insertion order. */
  function EntryShapesOf(keys: seq<BeamKey>, groups: map<BeamKey, seq<FlatPoint>>): (shapes: seq<Shape>)
    requires forall k :: k in keys ==> k in groups
    ensures |shapes| == |keys|
  {
    seq(|keys|, j requires 0 <= j < |keys| =>
      var pts := groups[keys[j]];
      Shape(PointPath(pts), if pts == [] then BeamColour(keys[j]) else PickColour(pts[0].eirp, keys[j])))
  }

  /** Once every point is in the Map, its entries are the groups of the points. */
  lemma GroupedShapes(ps: seq<FlatPoint>, keys: seq<BeamKey>, groups: map<BeamKey, seq<FlatPoint>>)
    requires Grouped(ps, keys, groups)
    ensures forall k :: k in keys ==> k in groups
    ensures EntryShapesOf(keys, groups) == FlatShapes(ps)
  {
    var shapes := EntryShapesOf(keys, groups);
    forall j | 0 <= j < |keys|
      ensures shapes[j] == GroupShape(ps, keys[j])
    {
    }
  }

  /**
   * The flat branch: the points are grouped into a Map (`keys` in insertion
   * order, `groups` the arrays), then every entry becomes a shape.
   */
  method GroupFlatPoints(points: seq<FlatPoint>) returns (shapes: seq<Shape>)
    ensures shapes == FlatShapes(points)
  {
    var keys: seq<BeamKey> := [];
    var groups: map<BeamKey, seq<FlatPoint>> := map[];
    var i := 0;
    while i < |points|
      invariant i <= |points|
      invariant Grouped(points[..i], keys, groups)
    {
      var p := points[i];
      var k := KeyOf(p);
      ghost var oldKeys, oldGroups := keys, groups;
      if k !in groups {
        groups := groups[k := []];
        keys := keys + [k];
      }
      groups := groups[k := groups[k] + [p]];
      AddPoint(points[..i], p, oldKeys, oldGroups, keys, groups);
      assert points[..i + 1] == points[..i] + [p];
      i := i + 1;
    }
    assert points[..i] == points;
    GroupedShapes(points, keys, groups);
    shapes := EntryShapesOf(keys, groups);
  }

  /** `parseFootprints(fp)`. */
  method ParseFootprints(fp: Footprints) returns (r: Option<seq<Shape>>)
    ensures r == FootprintShapes(fp)
  {
    match fp
    case Collection(features) =>
      r := CollectionShapes(features);
    case FlatArray(points) =>
      var shapes := GroupFlatPoints(points);
      r := Some(shapes);
    case Unrecognised =>
      r := Some([]);
  }

  // ---------------------------------------------------------------------------
  // The per-satellite cache
  // ---------------------------------------------------------------------------

  type SatId = string

  /** A selected satellite: its id and its `footprints` member (`None` when falsy). */
  datatype Satellite = Satellite(id: SatId, footprints: Option<Footprints>)

  /** `buildEntry(sat)`'s shapes: `sat.footprints || []` parsed; `None` when that throws. */
  function EntryShapes(sat: Satellite): Option<seq<Shape>>
  {
    FootprintShapes(sat.footprints.GetOr(FlatArray([])))
  }

  /** What an update returns. */
  datatype UpdateOutcome =
    | NoSelection                                  // `undefined`: nothing selected
    | Entry(shapes: seq<Shape>, visible: bool)     // the selected satellite's cached entry
    | Threw                                        // building the entry threw

  /** Every cached footprint hidden. */
  function AllHidden(visible: map<SatId, bool>): (h: map<SatId, bool>)
    ensures h.Keys == visible.Keys
    ensures forall id :: id in h ==> !h[id]
  {
    map id | id in visible :: false
  }

  /** The module's `_cache`: the shapes and the globe-group visibility of every built satellite. */
  class FootprintCache {
    var shapes: map<SatId, seq<Shape>>
    var visible: map<SatId, bool>

    ghost predicate Valid()
      reads this
    {
      shapes.Keys == visible.Keys
    }

    constructor ()
      ensures Valid()
      ensures shapes == map[] && visible == map[]
    {
      shapes := map[];
      visible := map[];
    }

    /** `buildEntry(sat)`: the shapes for the cache, or `None` when parsing throws. */
    method BuildEntry(sat: Satellite) returns (r: Option<seq<Shape>>)
      ensures r == EntryShapes(sat)
    {
      r := ParseFootprints(sat.footprints.GetOr(FlatArray([])));
    }

    /**
     * `updateFootprints(selected, _, {showFootprint})`: hides every cached
     * footprint, builds the selected satellite's entry on first use only,
     * and makes it visible exactly when `show` is truthy.
     */
    method UpdateFootprints(selected: Option<Satellite>, show: bool) returns (out: UpdateOutcome)
      requires Valid()
      modifies this
      ensures Valid()
      ensures selected.None? ==>
        out == NoSelection && shapes == old(shapes) && visible == AllHidden(old(visible))
      ensures selected.Some? && selected.value.id in old(shapes) ==>
        shapes == old(shapes) &&
        visible == AllHidden(old(visible))[selected.value.id := show] &&
        out == Entry(old(shapes)[selected.value.id], show)
      ensures selected.Some? && selected.value.id !in old(shapes) && EntryShapes(selected.value).Some? ==>
        shapes == old(shapes)[selected.value.id := EntryShapes(selected.value).value] &&
        visible == AllHidden(old(visible))[selected.value.id := show] &&
        out == Entry(EntryShapes(selected.value).value, show)
      ensures selected.Some? && selected.value.id !in old(shapes) && EntryShapes(selected.value).None? ==>
        out == Threw && shapes == old(shapes) && visible == AllHidden(old(visible))
    {
      visible := AllHidden(visible);
      if selected.None? {
        return NoSelection;
      }
      var sat := selected.value;
      if sat.id !in shapes {
        var built := BuildEntry(sat);
        if built.None? {
          return Threw;
        }
        shapes := shapes[sat.id := built.value];
        visible := visible[sat.id := false];
      }
      visible := visible[sat.id := show];
      out := Entry(shapes[sat.id], show);
    }
  }
}
