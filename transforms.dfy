/**
 * 4x4 matrices, the six transform formulas, the model matrix `Item::draw`
 * composes, and the viewport centring of `reshape`.
 *
 * `float` becomes `real`.  The rotation formulas call `cosf` / `sinf`; the
 * model takes the cosine and sine as arguments instead of computing them.
 */
module Transforms {

  type Vec4 = v: seq<real> | |v| == 4 witness [0.0, 0.0, 0.0, 0.0]

  /** `Mat4`: `val[i][j]` is row i, column j. */
  type Mat4 = m: seq<seq<real>> | |m| == 4 && forall i :: 0 <= i < 4 ==> |m[i]| == 4
    witness [[0.0, 0.0, 0.0, 0.0], [0.0, 0.0, 0.0, 0.0], [0.0, 0.0, 0.0, 0.0], [0.0, 0.0, 0.0, 0.0]]

  /** `Mat4()`: every entry 0. */
  const Zero: Mat4 := [[0.0, 0.0, 0.0, 0.0], [0.0, 0.0, 0.0, 0.0], [0.0, 0.0, 0.0, 0.0], [0.0, 0.0, 0.0, 0.0]]

  const Identity: Mat4 := [[1.0, 0.0, 0.0, 0.0], [0.0, 1.0, 0.0, 0.0], [0.0, 0.0, 1.0, 0.0], [0.0, 0.0, 0.0, 1.0]]

  // ---------------------------------------------------------------------------
  // Products
  // ---------------------------------------------------------------------------

  /** The first k terms of the sum that gives entry (i, j) of a * b. */
  function Dot(a: Mat4, b: Mat4, i: nat, j: nat, k: nat): real
    requires i < 4 && j < 4 && k <= 4
  {
    if k == 0 then 0.0 else Dot(a, b, i, j, k - 1) + a[i][k - 1] * b[k - 1][j]
  }

  /** The matrix product. */
  function Product(a: Mat4, b: Mat4): Mat4
  {
    seq(4, i requires 0 <= i < 4 => seq(4, j requires 0 <= j < 4 => Dot(a, b, i, j, 4)))
  }

  /** The image of a column vector. */
  function Apply(m: Mat4, v: Vec4): Vec4
  {
    seq(4, i requires 0 <= i < 4 => m[i][0] * v[0] + m[i][1] * v[1] + m[i][2] * v[2] + m[i][3] * v[3])
  }

  /**
   * `operator*(a, b)`: start from the zero matrix and, for each (i, j), add the
   * terms a[i][k] * b[k][j] for k = 0..3 into `ret`.
   */
  method Multiply(a: Mat4, b: Mat4) returns (ret: Mat4)
    ensures ret == Product(a, b)
  {
    ret := Zero;
    for i := 0 to 4
      invariant forall r, c :: 0 <= r < i && 0 <= c < 4 ==> ret[r][c] == Dot(a, b, r, c, 4)
      invariant forall r, c :: i <= r < 4 && 0 <= c < 4 ==> ret[r][c] == 0.0
    {
      for j := 0 to 4
        invariant forall r, c :: 0 <= r < i && 0 <= c < 4 ==> ret[r][c] == Dot(a, b, r, c, 4)
        invariant forall c :: 0 <= c < j ==> ret[i][c] == Dot(a, b, i, c, 4)
        invariant forall c :: j <= c < 4 ==> ret[i][c] == 0.0
        invariant forall r, c :: i < r < 4 && 0 <= c < 4 ==> ret[r][c] == 0.0
      {
        for k := 0 to 4
          invariant forall r, c :: 0 <= r < i && 0 <= c < 4 ==> ret[r][c] == Dot(a, b, r, c, 4)
          invariant forall c :: 0 <= c < j ==> ret[i][c] == Dot(a, b, i, c, 4)
          invariant ret[i][j] == Dot(a, b, i, j, k)
          invariant forall c :: j < c < 4 ==> ret[i][c] == 0.0
          invariant forall r, c :: i < r < 4 && 0 <= c < 4 ==> ret[r][c] == 0.0
        {
          ret := ret[i := ret[i][j := ret[i][j] + a[i][k] * b[k][j]]];
        }
      }
    }
    forall r | 0 <= r < 4 ensures ret[r] == Product(a, b)[r] {
    }
  }

  /** Entry (i, j) of a product written out. */
  lemma DotFour(a: Mat4, b: Mat4, i: nat, j: nat)
    requires i < 4 && j < 4
    ensures Product(a, b)[i][j] == a[i][0] * b[0][j] + a[i][1] * b[1][j] + a[i][2] * b[2][j] + a[i][3] * b[3][j]
  {
    assert Dot(a, b, i, j, 1) == a[i][0] * b[0][j];
    assert Dot(a, b, i, j, 2) == Dot(a, b, i, j, 1) + a[i][1] * b[1][j];
    assert Dot(a, b, i, j, 3) == Dot(a, b, i, j, 2) + a[i][2] * b[2][j];
    assert Dot(a, b, i, j, 4) == Dot(a, b, i, j, 3) + a[i][3] * b[3][j];
  }

  /** Multiplying a sum of four terms distributes over the terms. */
  lemma Distribute(x0: real, x1: real, x2: real, x3: real, y: real)
    ensures (x0 + x1 + x2 + x3) * y == x0 * y + x1 * y + x2 * y + x3 * y
    ensures y * (x0 + x1 + x2 + x3) == y * x0 + y * x1 + y * x2 + y * x3
  {
  }

  /** The rearrangement behind ProductApply, on scalars: row a times (b v) equals (row a times b) times v. */
  lemma Regroup(a0: real, a1: real, a2: real, a3: real,
                b00: real, b01: real, b02: real, b03: real,
                b10: real, b11: real, b12: real, b13: real,
                b20: real, b21: real, b22: real, b23: real,
                b30: real, b31: real, b32: real, b33: real,
                v0: real, v1: real, v2: real, v3: real)
    ensures (a0 * b00 + a1 * b10 + a2 * b20 + a3 * b30) * v0
          + (a0 * b01 + a1 * b11 + a2 * b21 + a3 * b31) * v1
          + (a0 * b02 + a1 * b12 + a2 * b22 + a3 * b32) * v2
          + (a0 * b03 + a1 * b13 + a2 * b23 + a3 * b33) * v3
         == a0 * (b00 * v0 + b01 * v1 + b02 * v2 + b03 * v3)
          + a1 * (b10 * v0 + b11 * v1 + b12 * v2 + b13 * v3)
          + a2 * (b20 * v0 + b21 * v1 + b22 * v2 + b23 * v3)
          + a3 * (b30 * v0 + b31 * v1 + b32 * v2 + b33 * v3)
  {
    Distribute(a0 * b00, a1 * b10, a2 * b20, a3 * b30, v0);
    Distribute(a0 * b01, a1 * b11, a2 * b21, a3 * b31, v1);
    Distribute(a0 * b02, a1 * b12, a2 * b22, a3 * b32, v2);
    Distribute(a0 * b03, a1 * b13, a2 * b23, a3 * b33, v3);
    Distribute(b00 * v0, b01 * v1, b02 * v2, b03 * v3, a0);
    Distribute(b10 * v0, b11 * v1, b12 * v2, b13 * v3, a1);
    Distribute(b20 * v0, b21 * v1, b22 * v2, b23 * v3, a2);
    Distribute(b30 * v0, b31 * v1, b32 * v2, b33 * v3, a3);
  }

  /** The product applies its right factor first: (a * b) v == a (b v). */
  lemma ProductApply(a: Mat4, b: Mat4, v: Vec4)
    ensures Apply(Product(a, b), v) == Apply(a, Apply(b, v))
  {
    var p := Product(a, b);
    var bv := Apply(b, v);
    forall i | 0 <= i < 4 ensures Apply(p, v)[i] == Apply(a, bv)[i] {
      RowApply(a, b, v, i);
    }
  }

  lemma RowApply(a: Mat4, b: Mat4, v: Vec4, i: nat)
    requires i < 4
    ensures Apply(Product(a, b), v)[i] == Apply(a, Apply(b, v))[i]
  {
    ProductRow(a, b, v, i);
    ImageRow(a, b, v, i);
    var r, b0, b1, b2, b3 := a[i], b[0], b[1], b[2], b[3];
    Regroup(r[0], r[1], r[2], r[3],
            b0[0], b0[1], b0[2], b0[3],
            b1[0], b1[1], b1[2], b1[3],
            b2[0], b2[1], b2[2], b2[3],
            b3[0], b3[1], b3[2], b3[3],
            v[0], v[1], v[2], v[3]);
  }

  /** Row i of (a * b) v, written out in the entries of a, b and v. */
  lemma ProductRow(a: Mat4, b: Mat4, v: Vec4, i: nat)
    requires i < 4
    ensures Apply(Product(a, b), v)[i] ==
        (a[i][0] * b[0][0] + a[i][1] * b[1][0] + a[i][2] * b[2][0] + a[i][3] * b[3][0]) * v[0]
      + (a[i][0] * b[0][1] + a[i][1] * b[1][1] + a[i][2] * b[2][1] + a[i][3] * b[3][1]) * v[1]
      + (a[i][0] * b[0][2] + a[i][1] * b[1][2] + a[i][2] * b[2][2] + a[i][3] * b[3][2]) * v[2]
      + (a[i][0] * b[0][3] + a[i][1] * b[1][3] + a[i][2] * b[2][3] + a[i][3] * b[3][3]) * v[3]
  {
    DotFour(a, b, i, 0);
    DotFour(a, b, i, 1);
    DotFour(a, b, i, 2);
    DotFour(a, b, i, 3);
  }

  /** Row i of a (b v), written out in the entries of a, b and v. */
  lemma ImageRow(a: Mat4, b: Mat4, v: Vec4, i: nat)
    requires i < 4
    ensures Apply(a, Apply(b, v))[i] ==
        a[i][0] * (b[0][0] * v[0] + b[0][1] * v[1] + b[0][2] * v[2] + b[0][3] * v[3])
      + a[i][1] * (b[1][0] * v[0] + b[1][1] * v[1] + b[1][2] * v[2] + b[1][3] * v[3])
      + a[i][2] * (b[2][0] * v[0] + b[2][1] * v[1] + b[2][2] * v[2] + b[2][3] * v[3])
      + a[i][3] * (b[3][0] * v[0] + b[3][1] * v[1] + b[3][2] * v[2] + b[3][3] * v[3])
  {
  }

  /** The identity is neutral on both sides. */
  lemma ProductIdentity(a: Mat4)
    ensures Product(Identity, a) == a && Product(a, Identity) == a
  {
    forall i, j | 0 <= i < 4 && 0 <= j < 4 ensures Product(Identity, a)[i][j] == a[i][j] && Product(a, Identity)[i][j] == a[i][j] {
      DotFour(Identity, a, i, j);
      DotFour(a, Identity, i, j);
    }
    forall i | 0 <= i < 4 ensures Product(Identity, a)[i] == a[i] && Product(a, Identity)[i] == a[i] {
    }
  }

  // ---------------------------------------------------------------------------
  // The six transforms
  // ---------------------------------------------------------------------------

  /** Which of `SpinX`, `SpinY`, `SpinZ`, `OffsetX`, `OffsetY`, `OffsetZ` a parameter is. */
  datatype Kind = SpinX | SpinY | SpinZ | OffsetX | OffsetY | OffsetZ
  {
    predicate IsSpin() { this == SpinX || this == SpinY || this == SpinZ }
  }

  /** The float value of `acosf(-1)`. */
  const Pi: real := 3.1415927410125732421875

  /** `SPIN_SPEED = pi/180`: one degree in radians. */
  const SpinSpeed: real := Pi / 180.0

  /** `OFFSET_SPEED = 0.1`. */
  const OffsetSpeed: real := 0.1

  /** The step each kind passes to `Param`: one degree for the spins, 0.1 for the offsets. */
  function StepOf(kind: Kind): (r: real)
    ensures r > 0.0
    ensures kind.IsSpin() <==> r == SpinSpeed
    ensures !kind.IsSpin() <==> r == OffsetSpeed
  {
    if kind.IsSpin() then SpinSpeed else OffsetSpeed
  }

  /**
   * The matrix a trigger stores for value v, given c = cos v and s = sin v
   * (the offsets ignore c and s).
   */
  function Formula(kind: Kind, v: real, c: real, s: real): (m: Mat4)
    // every trigger matrix is affine: its last row is that of the identity
    ensures m[3] == [0.0, 0.0, 0.0, 1.0]
    // a rotation translates nothing
    ensures kind.IsSpin() ==> m[0][3] == 0.0 && m[1][3] == 0.0 && m[2][3] == 0.0
    // an offset is a pure translation by v along its axis
    ensures !kind.IsSpin() ==> forall i, j :: 0 <= i < 3 && 0 <= j < 3 ==> m[i][j] == Identity[i][j]
    ensures !kind.IsSpin() ==> forall i :: 0 <= i < 3 ==> m[i][3] == v * Axis(kind)[i]
  {
    match kind
    case SpinX => [[1.0, 0.0, 0.0, 0.0], [0.0, c, -s, 0.0], [0.0, s, c, 0.0], [0.0, 0.0, 0.0, 1.0]]
    case SpinY => [[c, 0.0, -s, 0.0], [0.0, 1.0, 0.0, 0.0], [s, 0.0, c, 0.0], [0.0, 0.0, 0.0, 1.0]]
    case SpinZ => [[c, -s, 0.0, 0.0], [s, c, 0.0, 0.0], [0.0, 0.0, 1.0, 0.0], [0.0, 0.0, 0.0, 1.0]]
    case OffsetX => [[1.0, 0.0, 0.0, v], [0.0, 1.0, 0.0, 0.0], [0.0, 0.0, 1.0, 0.0], [0.0, 0.0, 0.0, 1.0]]
    case OffsetY => [[1.0, 0.0, 0.0, 0.0], [0.0, 1.0, 0.0, v], [0.0, 0.0, 1.0, 0.0], [0.0, 0.0, 0.0, 1.0]]
    case OffsetZ => [[1.0, 0.0, 0.0, 0.0], [0.0, 1.0, 0.0, 0.0], [0.0, 0.0, 1.0, v], [0.0, 0.0, 0.0, 1.0]]
  }

  /** The unit vector of a kind's axis. */
  function Axis(kind: Kind): Vec4
  {
    match kind
    case SpinX | OffsetX => [1.0, 0.0, 0.0, 0.0]
    case SpinY | OffsetY => [0.0, 1.0, 0.0, 0.0]
    case SpinZ | OffsetZ => [0.0, 0.0, 1.0, 0.0]
  }

  /**
   * An offset moves a point (w = 1) by v along its axis and leaves a direction
   * (w = 0), such as a normal, as it is: v is scaled by w.
   */
  lemma OffsetMoves(kind: Kind, v: real, c: real, s: real, p: Vec4)
    requires !kind.IsSpin()
    ensures Apply(Formula(kind, v, c, s), p) ==
      seq(4, i requires 0 <= i < 4 => p[i] + v * p[3] * Axis(kind)[i])
  {
    var moved: Vec4 := seq(4, i requires 0 <= i < 4 => p[i] + v * p[3] * Axis(kind)[i]);
    forall i | 0 <= i < 4 ensures Apply(Formula(kind, v, c, s), p)[i] == moved[i] {
      if kind == OffsetX {
        assert Axis(kind) == [1.0, 0.0, 0.0, 0.0];
      } else if kind == OffsetY {
        assert Axis(kind) == [0.0, 1.0, 0.0, 0.0];
      } else {
        assert Axis(kind) == [0.0, 0.0, 1.0, 0.0];
      }
    }
  }

  /**
   * A rotation keeps w and the coordinate along its own axis, and at angle 0
   * (c = 1, s = 0) it is the identity.
   */
  lemma SpinFixesAxis(kind: Kind, v: real, c: real, s: real, p: Vec4)
    requires kind.IsSpin()
    ensures Apply(Formula(kind, v, c, s), p)[3] == p[3]
    ensures var a := if kind == SpinX then 0 else if kind == SpinY then 1 else 2;
      Apply(Formula(kind, v, c, s), p)[a] == p[a]
    ensures Formula(kind, v, 1.0, 0.0) == Identity
  {
  }

  // ---------------------------------------------------------------------------
  // The model matrix of `Item::draw`
  // ---------------------------------------------------------------------------

  /** `scale`, `zN` and `zF`. */
  const Scale: real := 3.0
  const ZNear: real := 0.0
  const ZFar: real := 500.0

  /** The fixed projection: x and y scaled, depth remapped linearly, w = z + 1. */
  const Projection: Mat4 := [
    [Scale, 0.0, 0.0, 0.0],
    [0.0, Scale, 0.0, 0.0],
    [0.0, 0.0, (ZFar + 1.0) / (ZFar - ZNear), -ZNear * (ZFar + 1.0) / (ZFar - ZNear)],
    [0.0, 0.0, 1.0, 1.0]]

  /** The projection sends depth zN to 0 and depth zF to zF + 1 (on points, w = 1). */
  lemma ProjectionDepth(x: real, y: real, z: real)
    ensures Apply(Projection, [x, y, z, 1.0]) ==
      [Scale * x, Scale * y, (z - ZNear) * (ZFar + 1.0) / (ZFar - ZNear), z + 1.0]
    ensures Apply(Projection, [x, y, ZNear, 1.0])[2] == 0.0
    ensures Apply(Projection, [x, y, ZFar, 1.0])[2] == ZFar + 1.0
  {
    var q: Vec4 := [x, y, z, 1.0];
    var r := Apply(Projection, q);
    assert r[0] == Scale * x && r[1] == Scale * y && r[3] == z + 1.0;
    assert r[2] == (z - ZNear) * (ZFar + 1.0) / (ZFar - ZNear);
  }

  /**
   * `projection * ox * oy * oz * sx * sy * sz`, multiplied left to right as
   * C++ groups it.
   */
  function ModelMatrix(ox: Mat4, oy: Mat4, oz: Mat4, sx: Mat4, sy: Mat4, sz: Mat4): Mat4
  {
    Product(Product(Product(Product(Product(Product(Projection, ox), oy), oz), sx), sy), sz)
  }

  /**
   * The order the composition gives: the z rotation acts first, then y, then
   * x, then the z, y and x offsets, and the projection last.
   */
  lemma DrawOrder(ox: Mat4, oy: Mat4, oz: Mat4, sx: Mat4, sy: Mat4, sz: Mat4)
    ensures forall p: Vec4 ::
              Apply(ModelMatrix(ox, oy, oz, sx, sy, sz), p) ==
              Apply(Projection, Apply(ox, Apply(oy, Apply(oz, Apply(sx, Apply(sy, Apply(sz, p)))))))
  {
    var m1 := Product(Projection, ox);
    var m2 := Product(m1, oy);
    var m3 := Product(m2, oz);
    var m4 := Product(m3, sx);
    var m5 := Product(m4, sy);
    forall p: Vec4 ensures Apply(ModelMatrix(ox, oy, oz, sx, sy, sz), p) ==
      Apply(Projection, Apply(ox, Apply(oy, Apply(oz, Apply(sx, Apply(sy, Apply(sz, p)))))))
    {
      ProductApply(m5, sz, p);
      ProductApply(m4, sy, Apply(sz, p));
      ProductApply(m3, sx, Apply(sy, Apply(sz, p)));
      ProductApply(m2, oz, Apply(sx, Apply(sy, Apply(sz, p))));
      ProductApply(m1, oy, Apply(oz, Apply(sx, Apply(sy, Apply(sz, p)))));
      ProductApply(Projection, ox, Apply(oy, Apply(oz, Apply(sx, Apply(sy, Apply(sz, p))))));
    }
  }

  // ---------------------------------------------------------------------------
  // `reshape`
  // ---------------------------------------------------------------------------

  datatype Viewport = Viewport(x: int, y: int, width: int, height: int)

  /**
   * `reshape(w, h)`: the largest square that fits, centred.  `(w - l) / 2` in
   * C++ truncates toward zero; w - l is never negative, so that is the floor.
   */
  function Reshape(w: int, h: int): (r: Viewport)
    ensures r.width == r.height && (r.width == w || r.width == h) && r.width <= w && r.width <= h
    ensures 0 <= r.x && 0 <= r.y
    ensures 0 <= w - (r.x + r.width + r.x) <= 1 && 0 <= h - (r.y + r.height + r.y) <= 1
  {
    var l := if w < h then w else h;
    Viewport((w - l) / 2, (h - l) / 2, l, l)
  }
}
