/**
 * Three-vectors over the reals: the operations `THREE.Vector3` offers the
 * orbit frame (`clone`, `multiplyScalar`, `cross`, `crossVectors`, `dot`),
 * with the algebraic identities the frame construction relies on.
 */
module Vectors {

  datatype Vec3 = Vec3(x: real, y: real, z: real)

  function Scale(a: Vec3, s: real): Vec3 {
    Vec3(a.x * s, a.y * s, a.z * s)
  }

  function Dot(a: Vec3, b: Vec3): real {
    a.x * b.x + a.y * b.y + a.z * b.z
  }

  function Cross(a: Vec3, b: Vec3): Vec3 {
    Vec3(a.y * b.z - a.z * b.y, a.z * b.x - a.x * b.z, a.x * b.y - a.y * b.x)
  }

  /** The squared length; `length()` is its square root. */
  function NormSq(a: Vec3): (n: real)
    ensures n >= 0.0
  {
    a.x * a.x + a.y * a.y + a.z * a.z
  }

  /** `len` is the Euclidean length of `a` (Dafny has no square root, so it is supplied). */
  predicate IsLength(len: real, a: Vec3) {
    len >= 0.0 && len * len == NormSq(a)
  }

  /** A cross product is orthogonal to both its factors. */
  lemma CrossOrthogonal(a: Vec3, b: Vec3)
    ensures Dot(Cross(a, b), a) == 0.0 && Dot(Cross(a, b), b) == 0.0
  {
  }

  /** Lagrange's identity: |a x b|^2 = |a|^2 |b|^2 - (a . b)^2. */
  lemma Lagrange(a: Vec3, b: Vec3)
    ensures NormSq(Cross(a, b)) == NormSq(a) * NormSq(b) - Dot(a, b) * Dot(a, b)
  {
  }

  /** The vector triple product: (a x b) x c = b (a . c) - a (b . c). */
  lemma TripleProduct(a: Vec3, b: Vec3, c: Vec3)
    ensures Cross(Cross(a, b), c) ==
      Vec3(b.x * Dot(a, c) - a.x * Dot(b, c), b.y * Dot(a, c) - a.y * Dot(b, c), b.z * Dot(a, c) - a.z * Dot(b, c))
  {
    var d := Cross(a, b);
    assert d.y * c.z - d.z * c.y == b.x * Dot(a, c) - a.x * Dot(b, c);
    assert d.z * c.x - d.x * c.z == b.y * Dot(a, c) - a.y * Dot(b, c);
    assert d.x * c.y - d.y * c.x == b.z * Dot(a, c) - a.z * Dot(b, c);
  }

  /** Scaling the left factor scales the dot product. */
  lemma DotScaleLeft(a: Vec3, b: Vec3, s: real)
    ensures Dot(Scale(a, s), b) == s * Dot(a, b)
  {
  }

  /** Scaling passes through dot products and squared lengths. */
  lemma ScaleDot(a: Vec3, b: Vec3, s: real, t: real)
    ensures Dot(Scale(a, s), Scale(b, t)) == s * t * Dot(a, b)
    ensures NormSq(Scale(a, s)) == s * s * NormSq(a)
  {
  }

  /** A vector divided by its positive length has length 1. */
  lemma UnitByLength(a: Vec3, len: real)
    requires IsLength(len, a) && len > 0.0
    ensures NormSq(Scale(a, -1.0 / len)) == 1.0
  {
    ScaleDot(a, a, -1.0 / len, -1.0 / len);
    assert (-1.0 / len) * (-1.0 / len) * (len * len) == 1.0;
  }

  /** A length whose square is 1 is 1. */
  lemma UnitLength(len: real)
    requires len >= 0.0 && len * len == 1.0
    ensures len == 1.0
  {
    assert (len - 1.0) * (len + 1.0) == 0.0;
    assert len + 1.0 > 0.0;
  }
}

/**
 * The LVLH orbit frame of a satellite (js/orbitFrameLoader.js): three arrow
 * helpers whose directions are +X (completing a right-handed frame), +Y
 * (against the angular momentum) and +Z (nadir), with their tails at the
 * satellite.
 */
module OrbitFrame {
  import opened Wrappers
  import opened Vectors

  /** One `THREE.ArrowHelper`: where it starts and where it points. */
  class Arrow {
    var direction: Vec3
    var position: Vec3

    constructor (dir: Vec3)
      ensures direction == dir && position == Vec3(0.0, 0.0, 0.0)
    {
      direction := dir;
      position := Vec3(0.0, 0.0, 0.0);
    }
  }

  /** 1 km in scene units, and the default axis length in km. */
  const KmToSceneUnits: real := 1.0 / 1000.0
  const DefaultAxisLenKm: real := 10000.0

  /** The degenerate-input threshold on |r| and |r x v|. */
  const Epsilon: real := 0.000001

  /** The object `createOrbitFrame` returns: three distinct arrows and their length. */
  class Frame {
    const xArr: Arrow
    const yArr: Arrow
    const zArr: Arrow
    const len: real

    ghost predicate Valid()
      reads this
    {
      xArr != yArr && yArr != zArr && xArr != zArr
    }

    /**
     * `createOrbitFrame(scene, lengthKm)`: the unit axes, tails at the origin. An omitted
     * `lengthKm` (None) takes the default of 10000 km.
     */
    constructor (lengthKm: Option<real>)
      ensures Valid() && fresh(xArr) && fresh(yArr) && fresh(zArr)
      ensures xArr.direction == Vec3(1.0, 0.0, 0.0) && yArr.direction == Vec3(0.0, 1.0, 0.0)
      ensures zArr.direction == Vec3(0.0, 0.0, 1.0)
      ensures lengthKm.Some? ==> len == lengthKm.value * KmToSceneUnits
      ensures lengthKm.None? ==> len == DefaultAxisLenKm * KmToSceneUnits
    {
      xArr := new Arrow(Vec3(1.0, 0.0, 0.0));
      yArr := new Arrow(Vec3(0.0, 1.0, 0.0));
      zArr := new Arrow(Vec3(0.0, 0.0, 1.0));
      len := lengthKm.GetOr(DefaultAxisLenKm) * KmToSceneUnits;
    }
  }

  /** The frame directions for position `r` and velocity `v`, given |r| and |r x v|. */
  datatype Axes = Axes(x: Vec3, y: Vec3, z: Vec3)

  function FrameAxes(r: Vec3, v: Vec3, rLen: real, hLen: real): (axes: Axes)
    requires rLen > 0.0 && hLen > 0.0
  {
    var zHat := Scale(r, -1.0 / rLen);
    var yHat := Scale(Cross(r, v), -1.0 / hLen);
    Axes(Cross(yHat, zHat), yHat, zHat)
  }

  /** z points at the Earth's centre (nadir), and y is normal to the velocity. */
  lemma FrameAxesDirections(r: Vec3, v: Vec3, rLen: real, hLen: real)
    requires rLen > 0.0 && hLen > 0.0
    ensures Dot(FrameAxes(r, v, rLen, hLen).z, r) <= 0.0
    ensures Dot(FrameAxes(r, v, rLen, hLen).y, v) == 0.0
  {
    DotScaleLeft(r, r, -1.0 / rLen);
    assert Dot(r, r) == NormSq(r);
    NonPositiveProduct(-1.0 / rLen, NormSq(r));
    DotScaleLeft(Cross(r, v), v, -1.0 / hLen);
    CrossOrthogonal(r, v);
  }

  /** A negative factor times a non-negative one is at most 0. */
  lemma NonPositiveProduct(s: real, n: real)
    requires s < 0.0 && n >= 0.0
    ensures s * n <= 0.0
  {
  }

  /** Whether the update goes ahead, or returns early at the degenerate-input guard. */
  predicate Degenerate(rLen: real, hLen: real)
    ensures !Degenerate(rLen, hLen) ==> rLen > 0.0 && hLen > 0.0
  {
    rLen < Epsilon || hLen < Epsilon
  }

  /** y . z = 0: the angular momentum is orthogonal to the position. */
  lemma AxesYZOrthogonal(r: Vec3, v: Vec3, rLen: real, hLen: real)
    requires rLen > 0.0 && hLen > 0.0
    ensures Dot(FrameAxes(r, v, rLen, hLen).y, FrameAxes(r, v, rLen, hLen).z) == 0.0
  {
    var h := Cross(r, v);
    CrossOrthogonal(r, v);
    ScaleDot(h, r, -1.0 / hLen, -1.0 / rLen);
  }

  /**
   * The frame is orthonormal and right-handed: each axis has length 1, the
   * axes are mutually orthogonal, and z = x x y.  z is a negative multiple
   * of the position (nadir), y a negative multiple of r x v.
   */
  lemma AxesOrthonormal(r: Vec3, v: Vec3, rLen: real, hLen: real)
    requires IsLength(rLen, r) && IsLength(hLen, Cross(r, v))
    requires !Degenerate(rLen, hLen)
    ensures var a := FrameAxes(r, v, rLen, hLen);
      NormSq(a.x) == 1.0 && NormSq(a.y) == 1.0 && NormSq(a.z) == 1.0 &&
      Dot(a.x, a.y) == 0.0 && Dot(a.x, a.z) == 0.0 && Dot(a.y, a.z) == 0.0 &&
      Cross(a.x, a.y) == a.z
    ensures var a := FrameAxes(r, v, rLen, hLen);
      a.z == Scale(r, -1.0 / rLen) && -1.0 / rLen < 0.0 &&
      a.y == Scale(Cross(r, v), -1.0 / hLen) && -1.0 / hLen < 0.0
  {
    var a := FrameAxes(r, v, rLen, hLen);
    UnitByLength(r, rLen);
    UnitByLength(Cross(r, v), hLen);
    AxesYZOrthogonal(r, v, rLen, hLen);
    Lagrange(a.y, a.z);
    CrossOrthogonal(a.y, a.z);
    TripleProduct(a.y, a.z, a.y);
    assert Dot(a.z, a.y) == Dot(a.y, a.z);
    assert Dot(a.y, a.y) == NormSq(a.y);
  }

  /** `normalize()`: divides by the length, or by 1 when the length is 0. */
  function Normalize(a: Vec3, len: real): (u: Vec3)
    ensures len == 0.0 ==> u == a
    ensures len != 0.0 ==> Scale(u, len) == a
  {
    var d := if len == 0.0 then 1.0 else len;
    assert (1.0 / d) * d == 1.0;
    Scale(a, 1.0 / d)
  }

  /** y x z already has length 1, so normalising it changes nothing. */
  lemma NormalizeUnitCross(r: Vec3, v: Vec3, rLen: real, hLen: real, xLen: real)
    requires IsLength(rLen, r) && IsLength(hLen, Cross(r, v)) && !Degenerate(rLen, hLen)
    requires IsLength(xLen, FrameAxes(r, v, rLen, hLen).x)
    ensures Normalize(FrameAxes(r, v, rLen, hLen).x, xLen) == FrameAxes(r, v, rLen, hLen).x
  {
    AxesOrthonormal(r, v, rLen, hLen);
    UnitLength(xLen);
  }

  /**
   * `updateOrbitFrame(of, satPos, satVel)`.  The lengths |r| and |r x v|
   * are supplied (`rLen`, `hLen`); the inputs themselves are not changed.
   * A missing argument or a degenerate position/velocity leaves every arrow
   * as it was; otherwise the arrows point along the LVLH axes from r.
   */
  method UpdateOrbitFrame(of: Frame?, satPos: Option<Vec3>, satVel: Option<Vec3>, rLen: real, hLen: real)
    requires of != null ==> of.Valid()
    requires satPos.Some? && satVel.Some? ==>
      IsLength(rLen, satPos.value) && IsLength(hLen, Cross(satPos.value, satVel.value))
    modifies if of == null then {} else {of.xArr, of.yArr, of.zArr}
    ensures of != null && (satPos.None? || satVel.None? || Degenerate(rLen, hLen)) ==>
      of.xArr.direction == old(of.xArr.direction) && of.xArr.position == old(of.xArr.position) &&
      of.yArr.direction == old(of.yArr.direction) && of.yArr.position == old(of.yArr.position) &&
      of.zArr.direction == old(of.zArr.direction) && of.zArr.position == old(of.zArr.position)
    ensures of != null && satPos.Some? && satVel.Some? && !Degenerate(rLen, hLen) ==>
      var a := FrameAxes(satPos.value, satVel.value, rLen, hLen);
      of.xArr.direction == a.x && of.yArr.direction == a.y && of.zArr.direction == a.z &&
      of.xArr.position == satPos.value && of.yArr.position == satPos.value && of.zArr.position == satPos.value
  {
    if of == null || satPos.None? || satVel.None? {
      return;
    }
    var r := satPos.value;
    var v := satVel.value;
    var h := Cross(r, v);
    if rLen < Epsilon || hLen < Epsilon {
      return;
    }
    var zHat := Scale(r, -1.0 / rLen);
    var yHat := Scale(h, -1.0 / hLen);
    var c := Cross(yHat, zHat);
    AxesOrthonormal(r, v, rLen, hLen);
    var xHat := Normalize(c, 1.0);   // |y x z| = 1
    of.xArr.direction := xHat;
    of.xArr.position := r;
    of.yArr.direction := yHat;
    of.yArr.position := r;
    of.zArr.direction := zHat;
    of.zArr.position := r;
  }

  /** The x axis is the cross product of whatever the y and z axes come out as. */
  lemma FrameXAxis(r: Vec3, v: Vec3, rLen: real, hLen: real, y: Vec3, z: Vec3)
    requires rLen > 0.0 && hLen > 0.0
    requires FrameAxes(r, v, rLen, hLen).y == y && FrameAxes(r, v, rLen, hLen).z == z
    ensures FrameAxes(r, v, rLen, hLen).x == Cross(y, z)
  {
  }

  lemma EquatorialMomentum()
    ensures Cross(Vec3(7000.0, 0.0, 0.0), Vec3(0.0, 7.5, 0.0)) == Vec3(0.0, 0.0, 52500.0)
  {
  }

  lemma EquatorialNormal()
    ensures Scale(Vec3(0.0, 0.0, 52500.0), -1.0 / 52500.0) == Vec3(0.0, 0.0, -1.0)
  {
  }

  lemma EquatorialY()
    ensures FrameAxes(Vec3(7000.0, 0.0, 0.0), Vec3(0.0, 7.5, 0.0), 7000.0, 52500.0).y == Vec3(0.0, 0.0, -1.0)
  {
    EquatorialMomentum();
    EquatorialNormal();
  }

  lemma EquatorialZ()
    ensures FrameAxes(Vec3(7000.0, 0.0, 0.0), Vec3(0.0, 7.5, 0.0), 7000.0, 52500.0).z == Vec3(-1.0, 0.0, 0.0)
  {
  }

  /**
   * A prograde equatorial orbit at 7000 km, moving at 7.5 km/s along +y:
   * the radial axis points back at the Earth (-x), the orbit normal is -z
   * and the along-track axis is the direction of motion (+y).
   */
  lemma EquatorialExample()
    ensures var a := FrameAxes(Vec3(7000.0, 0.0, 0.0), Vec3(0.0, 7.5, 0.0), 7000.0, 52500.0);
      a.x == Vec3(0.0, 1.0, 0.0) && a.y == Vec3(0.0, 0.0, -1.0) && a.z == Vec3(-1.0, 0.0, 0.0)
  {
    EquatorialY();
    EquatorialZ();
    FrameXAxis(Vec3(7000.0, 0.0, 0.0), Vec3(0.0, 7.5, 0.0), 7000.0, 52500.0, Vec3(0.0, 0.0, -1.0), Vec3(-1.0, 0.0, 0.0));
    assert Cross(Vec3(0.0, 0.0, -1.0), Vec3(-1.0, 0.0, 0.0)) == Vec3(0.0, 1.0, 0.0);
  }
}
