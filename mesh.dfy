/**
 * The binary STL file `Item::load` reads, and the vertex buffer it builds.
 *
 * A file is an 80-byte header, a little-endian 32-bit triangle count, and one
 * 50-byte record per triangle: a normal and three corners of three 32-bit floats
 * each, then a 16-bit attribute word.  Floats are carried as the four bytes that
 * hold them: loading copies them and never computes with them.
 */
module Mesh {

  newtype byte = b: int | 0 <= b < 256

  /** The four bytes of one 32-bit float, in the order the file and memory hold them. */
  type Word = w: seq<byte> | |w| == 4 witness [0, 0, 0, 0]

  /** The float 0.0. */
  const ZeroWord: Word := [0, 0, 0, 0]

  /** The float 1.0 (bit pattern 0x3F800000, least significant byte first). */
  const OneWord: Word := [0x00, 0x00, 0x80, 0x3F]

  /** `Vec4`: four floats. */
  type Vec4 = v: seq<Word> | |v| == 4 witness [ZeroWord, ZeroWord, ZeroWord, ZeroWord]

  /** The three corners `vert[3]` of a triangle. */
  type Corners = c: seq<Vec4> | |c| == 3 witness [ZeroVec, ZeroVec, ZeroVec]

  const ZeroVec: Vec4 := [ZeroWord, ZeroWord, ZeroWord, ZeroWord]

  /** An unsigned short. */
  type UInt16 = x: int | 0 <= x < 0x1_0000

  /** `struct Triangle`: a facet normal, three corners and the attribute word `msg`. */
  datatype Triangle = Triangle(norm: Vec4, vert: Corners, msg: UInt16)

  const HeaderSize: nat := 80
  const RecordsStart: nat := 84
  const RecordSize: nat := 50

  // ---------------------------------------------------------------------------
  // Decoding
  // ---------------------------------------------------------------------------

  /** Three floats read at `off`, completed with the homogeneous coordinate `w`. */
  function PointAt(bytes: seq<byte>, off: nat, w: Word): (v: Vec4)
    requires off + 12 <= |bytes|
    ensures v[3] == w
  {
    [bytes[off..off + 4], bytes[off + 4..off + 8], bytes[off + 8..off + 12], w]
  }

  /** `fread(&n, sizeof(int), 1, f)`: four bytes as a little-endian two's-complement 32-bit integer. */
  function DecodeInt32(w: seq<byte>): (n: int)
    requires |w| == 4
    ensures -0x8000_0000 <= n < 0x8000_0000
    ensures n < 0 <==> w[3] >= 0x80
  {
    var u := w[0] as int + 0x100 * w[1] as int + 0x1_0000 * w[2] as int + 0x100_0000 * w[3] as int;
    if u < 0x8000_0000 then u else u - 0x1_0000_0000
  }

  /**
   * One 50-byte record: the normal gets w = 0 (a direction), each corner w = 1
   * (a point), and the last two bytes are the attribute word.
   */
  function DecodeRecord(r: seq<byte>): (t: Triangle)
    requires |r| == RecordSize
    ensures Homogeneous(t)
  {
    Triangle(PointAt(r, 0, ZeroWord),
             [PointAt(r, 12, OneWord), PointAt(r, 24, OneWord), PointAt(r, 36, OneWord)],
             r[48] as int + 0x100 * r[49] as int)
  }

  /** The triangle count of a file. */
  function CountOf(bytes: seq<byte>): int
    requires RecordsStart <= |bytes|
  {
    DecodeInt32(bytes[HeaderSize..RecordsStart])
  }

  /** The `i`-th 50-byte record of a file. */
  function RecordBytes(bytes: seq<byte>, i: nat): (r: seq<byte>)
    requires RecordsStart + RecordSize * (i + 1) <= |bytes|
    ensures |r| == RecordSize
  {
    bytes[RecordsStart + RecordSize * i..RecordsStart + RecordSize * i + RecordSize]
  }

  /** The first `n` triangle records of a file, in file order. */
  function Triangles(bytes: seq<byte>, n: nat): (ts: seq<Triangle>)
    requires RecordsStart + RecordSize * n <= |bytes|
    ensures |ts| == n
    ensures forall i :: 0 <= i < n ==> ts[i] == DecodeRecord(RecordBytes(bytes, i))
  {
    if n == 0 then [] else Triangles(bytes, n - 1) + [DecodeRecord(RecordBytes(bytes, n - 1))]
  }

  /** A record decoded where it lies in the file, at cursor `pos`. */
  lemma DecodeInPlace(bytes: seq<byte>, pos: nat)
    requires pos + RecordSize <= |bytes|
    ensures DecodeRecord(bytes[pos..pos + RecordSize]) ==
      Triangle(PointAt(bytes, pos, ZeroWord),
               [PointAt(bytes, pos + 12, OneWord), PointAt(bytes, pos + 24, OneWord), PointAt(bytes, pos + 36, OneWord)],
               bytes[pos + 48] as int + 0x100 * bytes[pos + 49] as int)
  {
    var r := bytes[pos..pos + RecordSize];
    forall off: nat | off + 12 <= RecordSize ensures PointAt(r, off, ZeroWord) == PointAt(bytes, pos + off, ZeroWord)
      && PointAt(r, off, OneWord) == PointAt(bytes, pos + off, OneWord)
    {
      SliceOfSlice(bytes, pos, pos + RecordSize, off, off + 4);
      SliceOfSlice(bytes, pos, pos + RecordSize, off + 4, off + 8);
      SliceOfSlice(bytes, pos, pos + RecordSize, off + 8, off + 12);
    }
  }

  /**
   * One pass of the read loop of `Item::load` at cursor `pos`: three floats of
   * normal with w = 0, three corners of three floats with w = 1, and the
   * attribute word.
   */
  method ReadRecord(bytes: seq<byte>, pos: nat) returns (t: Triangle)
    requires pos + RecordSize <= |bytes|
    ensures t == DecodeRecord(bytes[pos..pos + RecordSize])
  {
    var norm := PointAt(bytes, pos, ZeroWord);
    var vert: seq<Vec4> := [];
    for j := 0 to 3
      invariant |vert| == j
      invariant forall k :: 0 <= k < j ==> vert[k] == PointAt(bytes, pos + 12 + 12 * k, OneWord)
    {
      vert := vert + [PointAt(bytes, pos + 12 + 12 * j, OneWord)];
    }
    var msg := bytes[pos + 48] as int + 0x100 * bytes[pos + 49] as int;
    t := Triangle(norm, vert, msg);
    DecodeInPlace(bytes, pos);
  }

  /** A file long enough for its header, its count, and (for a non-negative count) all its records. */
  predicate Readable(bytes: seq<byte>)
  {
    RecordsStart <= |bytes| &&
    (CountOf(bytes) >= 0 ==> RecordsStart + RecordSize * CountOf(bytes) <= |bytes|)
  }

  // ---------------------------------------------------------------------------
  // Encoding: the writer a file of this format comes from
  // ---------------------------------------------------------------------------

  /** A triangle as loading produces it: the normal is a direction and the corners are points. */
  predicate Homogeneous(t: Triangle)
  {
    t.norm[3] == ZeroWord && t.vert[0][3] == OneWord && t.vert[1][3] == OneWord && t.vert[2][3] == OneWord
  }

  /** The twelve bytes of the first three floats of a vector. */
  function XYZ(v: Vec4): (r: seq<byte>)
    ensures |r| == 12
  {
    var x: seq<byte> := v[0];
    x + v[1] + v[2]
  }

  function EncodeRecord(t: Triangle): (r: seq<byte>)
    ensures |r| == RecordSize
  {
    XYZ(t.norm) + XYZ(t.vert[0]) + XYZ(t.vert[1]) + XYZ(t.vert[2]) + [(t.msg % 0x100) as byte, (t.msg / 0x100) as byte]
  }

  function EncodeRecords(ts: seq<Triangle>): (r: seq<byte>)
    ensures |r| == RecordSize * |ts|
  {
    if ts == [] then [] else EncodeRecords(ts[..|ts| - 1]) + EncodeRecord(ts[|ts| - 1])
  }

  /** Two's-complement little-endian bytes of a 32-bit integer. */
  function EncodeInt32(n: int): (r: seq<byte>)
    requires -0x8000_0000 <= n < 0x8000_0000
    ensures |r| == 4
  {
    var u := if n >= 0 then n else n + 0x1_0000_0000;
    var u1 := u / 0x100;
    var u2 := u1 / 0x100;
    [(u % 0x100) as byte, (u1 % 0x100) as byte, (u2 % 0x100) as byte, (u2 / 0x100) as byte]
  }

  function EncodeFile(header: seq<byte>, ts: seq<Triangle>): (f: seq<byte>)
    requires |header| == HeaderSize && |ts| < 0x8000_0000
    ensures |f| == RecordsStart + RecordSize * |ts|
  {
    header + EncodeInt32(|ts|) + EncodeRecords(ts)
  }

  /** The low byte and the rest of a number written in base 256. */
  lemma Digit(lo: int, hi: int)
    requires 0 <= lo < 0x100
    ensures (lo + 0x100 * hi) % 0x100 == lo && (lo + 0x100 * hi) / 0x100 == hi
  {
  }

  lemma Int32RoundTrip(n: int)
    requires -0x8000_0000 <= n < 0x8000_0000
    ensures DecodeInt32(EncodeInt32(n)) == n
  {
  }

  lemma Int32EncodeDecode(w: seq<byte>)
    requires |w| == 4
    ensures EncodeInt32(DecodeInt32(w)) == w
  {
    var b0, b1, b2, b3 := w[0] as int, w[1] as int, w[2] as int, w[3] as int;
    var u := b0 + 0x100 * (b1 + 0x100 * (b2 + 0x100 * b3));
    assert u == b0 + 0x100 * b1 + 0x1_0000 * b2 + 0x100_0000 * b3;
    Digit(b0, b1 + 0x100 * (b2 + 0x100 * b3));
    Digit(b1, b2 + 0x100 * b3);
    Digit(b2, b3);
    var r := EncodeInt32(DecodeInt32(w));
    assert r[0] == w[0] && r[1] == w[1] && r[2] == w[2] && r[3] == w[3];
  }

  /** The first three floats of `v`, read back from where `XYZ` put them. */
  lemma PointOfXYZ(r: seq<byte>, off: nat, v: Vec4)
    requires off + 12 <= |r| && r[off..off + 12] == XYZ(v)
    ensures PointAt(r, off, v[3]) == v
  {
    var x: seq<byte> := v[0];
    assert XYZ(v) == x + v[1] + v[2];
    assert XYZ(v)[0..4] == v[0] && XYZ(v)[4..8] == v[1] && XYZ(v)[8..12] == v[2];
    SliceOfSlice(r, off, off + 12, 0, 4);
    SliceOfSlice(r, off, off + 12, 4, 8);
    SliceOfSlice(r, off, off + 12, 8, 12);
    assert PointAt(r, off, v[3]) == [v[0], v[1], v[2], v[3]];
  }

  lemma SliceOfSlice(r: seq<byte>, lo: nat, hi: nat, a: nat, b: nat)
    requires lo <= hi <= |r| && a <= b <= hi - lo
    ensures r[lo..hi][a..b] == r[lo + a..lo + b]
  {
    forall k | 0 <= k < b - a ensures r[lo..hi][a..b][k] == r[lo + a..lo + b][k] {
      assert r[lo..hi][a..b][k] == r[lo..hi][a + k];
    }
  }

  /** Decoding an encoded record gives the triangle back, for every triangle loading can produce. */
  lemma RecordRoundTrip(t: Triangle)
    requires Homogeneous(t)
    ensures DecodeRecord(EncodeRecord(t)) == t
  {
    var r := EncodeRecord(t);
    assert r[0..12] == XYZ(t.norm) && r[12..24] == XYZ(t.vert[0]);
    assert r[24..36] == XYZ(t.vert[1]) && r[36..48] == XYZ(t.vert[2]);
    PointOfXYZ(r, 0, t.norm);
    PointOfXYZ(r, 12, t.vert[0]);
    PointOfXYZ(r, 24, t.vert[1]);
    PointOfXYZ(r, 36, t.vert[2]);
    assert DecodeRecord(r).vert == t.vert;
  }

  /** Encoding a decoded record gives its bytes back. */
  lemma RecordEncodeDecode(r: seq<byte>)
    requires |r| == RecordSize
    ensures EncodeRecord(DecodeRecord(r)) == r
  {
    var t := DecodeRecord(r);
    var m := r[48] as int + 0x100 * r[49] as int;
    Digit(r[48] as int, r[49] as int);
    assert XYZ(t.norm) == r[0..12];
    assert XYZ(t.vert[0]) == r[12..24];
    assert XYZ(t.vert[1]) == r[24..36];
    assert XYZ(t.vert[2]) == r[36..48];
    assert r == r[0..12] + r[12..24] + r[24..36] + r[36..48] + [r[48], r[49]];
  }

  /** Record `i` of the encoding of `ts` is the encoding of `ts[i]`. */
  lemma {:induction false} EncodeRecordsAt(ts: seq<Triangle>)
    ensures forall i :: 0 <= i < |ts| ==>
      EncodeRecords(ts)[RecordSize * i..RecordSize * i + RecordSize] == EncodeRecord(ts[i])
  {
    if ts != [] {
      var init := ts[..|ts| - 1];
      EncodeRecordsAt(init);
      forall i | 0 <= i < |ts|
        ensures EncodeRecords(ts)[RecordSize * i..RecordSize * i + RecordSize] == EncodeRecord(ts[i])
      {
        if i < |init| {
          assert ts[i] == init[i];
          assert RecordSize * i + RecordSize <= |EncodeRecords(init)|;
        }
      }
    }
  }

  /** Reading back a written file yields its header, its count and its triangles. */
  lemma ParseEncode(header: seq<byte>, ts: seq<Triangle>)
    requires |header| == HeaderSize && |ts| < 0x8000_0000
    requires forall i :: 0 <= i < |ts| ==> Homogeneous(ts[i])
    ensures var f := EncodeFile(header, ts);
      Readable(f) && f[..HeaderSize] == header && CountOf(f) == |ts| && Triangles(f, |ts|) == ts
  {
    FrontOfFile(header, |ts|, EncodeRecords(ts));
    TrianglesOfFile(header + EncodeInt32(|ts|), ts);
  }

  /** The header and the count of a written file read back as written. */
  lemma FrontOfFile(header: seq<byte>, n: nat, records: seq<byte>)
    requires |header| == HeaderSize && n < 0x8000_0000
    ensures var f := header + EncodeInt32(n) + records;
      f[..HeaderSize] == header && CountOf(f) == n
  {
    var f := header + EncodeInt32(n) + records;
    assert f[HeaderSize..RecordsStart] == EncodeInt32(n);
    Int32RoundTrip(n);
  }

  lemma TrianglesOfFile(front: seq<byte>, ts: seq<Triangle>)
    requires |front| == RecordsStart
    requires forall i :: 0 <= i < |ts| ==> Homogeneous(ts[i])
    ensures Triangles(front + EncodeRecords(ts), |ts|) == ts
  {
    var records := EncodeRecords(ts);
    var f := front + records;
    var parsed := Triangles(f, |ts|);
    EncodeRecordsAt(ts);
    forall i | 0 <= i < |ts| ensures parsed[i] == ts[i] {
      var r := RecordBytes(f, i);
      RecordOfFile(front, records, i);
      assert r == EncodeRecord(ts[i]);
      RecordRoundTrip(ts[i]);
      assert parsed[i] == DecodeRecord(r);
    }
  }

  /** Record `i` of a file is record `i` of the bytes after the count. */
  lemma RecordOfFile(front: seq<byte>, records: seq<byte>, i: nat)
    requires |front| == RecordsStart && RecordSize * (i + 1) <= |records|
    ensures RecordBytes(front + records, i) == records[RecordSize * i..RecordSize * i + RecordSize]
  {
  }

  /** The records of a file, re-encoded, are its record bytes. */
  lemma {:induction false} RecordsEncodeSlice(bytes: seq<byte>, n: nat)
    requires RecordsStart + RecordSize * n <= |bytes|
    ensures EncodeRecords(Triangles(bytes, n)) == bytes[RecordsStart..RecordsStart + RecordSize * n]
  {
    if n > 0 {
      var m := n - 1;
      var mid := RecordsStart + RecordSize * m;
      var hi := RecordsStart + RecordSize * n;
      assert mid + RecordSize == hi;
      var last := RecordBytes(bytes, m);
      assert last == bytes[mid..hi];
      RecordsEncodeSlice(bytes, m);
      RecordEncodeDecode(last);
      EncodeSnoc(Triangles(bytes, m), DecodeRecord(last));
      SliceSplit(bytes, RecordsStart, mid, hi);
    }
  }

  /** Encoding one more triangle appends its record. */
  lemma EncodeSnoc(ts: seq<Triangle>, t: Triangle)
    ensures EncodeRecords(ts + [t]) == EncodeRecords(ts) + EncodeRecord(t)
  {
    assert (ts + [t])[..|ts|] == ts;
  }

  /** A slice cut in two. */
  lemma SliceSplit(s: seq<byte>, lo: nat, mid: nat, hi: nat)
    requires lo <= mid <= hi <= |s|
    ensures s[lo..hi] == s[lo..mid] + s[mid..hi]
  {
  }

  /** Conversely, a file holding exactly its records is rewritten byte for byte from what is read. */
  lemma EncodeParse(bytes: seq<byte>)
    requires Readable(bytes) && CountOf(bytes) >= 0
    requires |bytes| == RecordsStart + RecordSize * CountOf(bytes)
    ensures EncodeFile(bytes[..HeaderSize], Triangles(bytes, CountOf(bytes))) == bytes
  {
    var n := CountOf(bytes);
    var ts := Triangles(bytes, n);
    RecordsEncodeSlice(bytes, n);
    SliceToEnd(bytes, RecordsStart, RecordsStart + RecordSize * n);
    Int32EncodeDecode(bytes[HeaderSize..RecordsStart]);
    Reassemble(bytes, EncodeInt32(n), EncodeRecords(ts));
    assert EncodeFile(bytes[..HeaderSize], ts) == bytes[..HeaderSize] + EncodeInt32(n) + EncodeRecords(ts);
  }

  lemma SliceToEnd(bytes: seq<byte>, lo: nat, hi: nat)
    requires lo <= hi == |bytes|
    ensures bytes[lo..hi] == bytes[lo..]
  {
  }

  lemma Reassemble(bytes: seq<byte>, count: seq<byte>, records: seq<byte>)
    requires RecordsStart <= |bytes|
    requires count == bytes[HeaderSize..RecordsStart] && records == bytes[RecordsStart..]
    ensures bytes[..HeaderSize] + count + records == bytes
  {
  }

  // ---------------------------------------------------------------------------
  // The vertex buffer
  // ---------------------------------------------------------------------------

  /** The twelve floats of a triangle's three corners, one corner after another. */
  function CornerWords(t: Triangle): (r: seq<Word>)
    ensures |r| == 12
  {
    var x: seq<Word> := t.vert[0];
    x + t.vert[1] + t.vert[2]
  }

  /** The facet normal once per corner. */
  function NormalWords(t: Triangle): (r: seq<Word>)
    ensures |r| == 12
  {
    var x: seq<Word> := t.norm;
    x + t.norm + t.norm
  }

  /** The first half of the buffer: every triangle's corners, in triangle order. */
  function Positions(ts: seq<Triangle>): (r: seq<Word>)
    ensures |r| == 12 * |ts|
  {
    if ts == [] then [] else Positions(ts[..|ts| - 1]) + CornerWords(ts[|ts| - 1])
  }

  /** The second half of the buffer: every triangle's normal, three times, in triangle order. */
  function Normals(ts: seq<Triangle>): (r: seq<Word>)
    ensures |r| == 12 * |ts|
  {
    if ts == [] then [] else Normals(ts[..|ts| - 1]) + NormalWords(ts[|ts| - 1])
  }

  /** The buffer `Item::load` fills: positions, then normals. */
  function Layout(ts: seq<Triangle>): seq<Word>
  {
    Positions(ts) + Normals(ts)
  }

  /** A slice inside the left operand of a concatenation is a slice of that operand. */
  lemma SliceLeft<T>(a: seq<T>, b: seq<T>, lo: int, hi: int)
    requires 0 <= lo <= hi <= |a|
    ensures (a + b)[lo..hi] == a[lo..hi]
  {
  }

  lemma {:induction false} PositionsAt(ts: seq<Triangle>)
    ensures forall t :: 0 <= t < |ts| ==> Positions(ts)[12 * t..12 * t + 12] == CornerWords(ts[t])
  {
    if ts != [] {
      var init := ts[..|ts| - 1];
      PositionsAt(init);
      forall t | 0 <= t < |ts| ensures Positions(ts)[12 * t..12 * t + 12] == CornerWords(ts[t]) {
        if t < |init| {
          assert ts[t] == init[t];
          assert 12 * t + 12 <= 12 * |init|;
          SliceLeft(Positions(init), CornerWords(ts[|ts| - 1]), 12 * t, 12 * t + 12);
        } else {
          assert 12 * t == 12 * |init|;
        }
      }
    }
  }

  lemma {:induction false} NormalsAt(ts: seq<Triangle>)
    ensures forall t :: 0 <= t < |ts| ==> Normals(ts)[12 * t..12 * t + 12] == NormalWords(ts[t])
  {
    if ts != [] {
      var init := ts[..|ts| - 1];
      NormalsAt(init);
      forall t | 0 <= t < |ts| ensures Normals(ts)[12 * t..12 * t + 12] == NormalWords(ts[t]) {
        if t < |init| {
          assert ts[t] == init[t];
          assert 12 * t + 12 <= 12 * |init|;
          SliceLeft(Normals(init), NormalWords(ts[|ts| - 1]), 12 * t, 12 * t + 12);
        } else {
          assert 12 * t == 12 * |init|;
        }
      }
    }
  }

  /**
   * The buffer holds 24 floats per triangle: the corners of triangle t at 12t,
   * and its normal three times at 12n + 12t.
   */
  lemma LayoutAt(ts: seq<Triangle>)
    ensures |Layout(ts)| == 24 * |ts|
    ensures forall t :: 0 <= t < |ts| ==>
      Layout(ts)[12 * t..12 * t + 12] == CornerWords(ts[t]) &&
      Layout(ts)[12 * |ts| + 12 * t..12 * |ts| + 12 * t + 12] == NormalWords(ts[t])
  {
    PositionsAt(ts);
    NormalsAt(ts);
    var n := |ts|;
    forall t | 0 <= t < n
      ensures Layout(ts)[12 * t..12 * t + 12] == CornerWords(ts[t])
      ensures Layout(ts)[12 * n + 12 * t..12 * n + 12 * t + 12] == NormalWords(ts[t])
    {
      assert Layout(ts)[12 * t..12 * t + 12] == Positions(ts)[12 * t..12 * t + 12];
      assert Layout(ts)[12 * n + 12 * t..12 * n + 12 * t + 12] == Normals(ts)[12 * t..12 * t + 12];
    }
  }

  /** The four floats a vertex attribute with no stride reads for vertex `m`, starting at float `offset`. */
  function Attribute(buffer: seq<Word>, offset: nat, m: nat): seq<Word>
    requires offset + 4 * m + 4 <= |buffer|
  {
    buffer[offset + 4 * m..offset + 4 * m + 4]
  }

  /**
   * Read as `glVertexAttribPointer` sets it up (attribute 0 at float 0,
   * attribute 1 at float 12n) and drawn as 3n vertices, vertex m gets corner
   * m % 3 of triangle m / 3 and that triangle's normal.
   */
  lemma VertexAttributes(ts: seq<Triangle>, m: nat)
    requires m < 3 * |ts|
    ensures 12 * |ts| + 4 * m + 4 <= |Layout(ts)|
    ensures Attribute(Layout(ts), 0, m) == ts[m / 3].vert[m % 3]
    ensures Attribute(Layout(ts), 12 * |ts|, m) == ts[m / 3].norm
  {
    LayoutAt(ts);
    CornerAttribute(ts, m);
    NormalAttribute(ts, m);
  }

  /** Vertex m's position attribute is corner m % 3 of triangle m / 3. */
  lemma CornerAttribute(ts: seq<Triangle>, m: nat)
    requires m < 3 * |ts|
    ensures 4 * m + 4 <= |Layout(ts)|
    ensures Attribute(Layout(ts), 0, m) == ts[m / 3].vert[m % 3]
  {
    LayoutAt(ts);
    var t, j := m / 3, m % 3;
    assert 4 * m == 12 * t + 4 * j;
    PieceAt(Layout(ts), 12 * t, CornerWords(ts[t]), j);
    assert CornerWords(ts[t])[4 * j..4 * j + 4] == ts[t].vert[j];
  }

  /** Vertex m's normal attribute, read from float 12n on, is the normal of triangle m / 3. */
  lemma NormalAttribute(ts: seq<Triangle>, m: nat)
    requires m < 3 * |ts|
    ensures 12 * |ts| + 4 * m + 4 <= |Layout(ts)|
    ensures Attribute(Layout(ts), 12 * |ts|, m) == ts[m / 3].norm
  {
    LayoutAt(ts);
    var n, t, j := |ts|, m / 3, m % 3;
    assert 4 * m == 12 * t + 4 * j;
    PieceAt(Layout(ts), 12 * n + 12 * t, NormalWords(ts[t]), j);
    assert NormalWords(ts[t])[4 * j..4 * j + 4] == ts[t].norm;
  }

  /** Float group j of a twelve-float block sitting at `base`. */
  lemma PieceAt(buffer: seq<Word>, base: nat, block: seq<Word>, j: nat)
    requires |block| == 12 && j < 3 && base + 12 <= |buffer| && buffer[base..base + 12] == block
    ensures buffer[base + 4 * j..base + 4 * j + 4] == block[4 * j..4 * j + 4]
  {
    var lo := 4 * j;
    assert lo + 4 <= 12;
    var x, y := buffer[base + lo..base + lo + 4], block[lo..lo + 4];
    forall k | 0 <= k < 4 ensures x[k] == y[k] {
      assert block[lo + k] == buffer[base..base + 12][lo + k];
    }
    assert x == y;
  }

  /** `VertexAttributes` for every one of the 3n vertices `glDrawArrays` draws. */
  lemma EveryVertex(ts: seq<Triangle>)
    ensures forall m :: 0 <= m < 3 * |ts| ==>
      12 * |ts| + 4 * m + 4 <= |Layout(ts)| &&
      Attribute(Layout(ts), 0, m) == ts[m / 3].vert[m % 3] && Attribute(Layout(ts), 12 * |ts|, m) == ts[m / 3].norm
  {
    forall m | 0 <= m < 3 * |ts|
      ensures 12 * |ts| + 4 * m + 4 <= |Layout(ts)|
      ensures Attribute(Layout(ts), 0, m) == ts[m / 3].vert[m % 3] && Attribute(Layout(ts), 12 * |ts|, m) == ts[m / 3].norm
    {
      VertexAttributes(ts, m);
    }
  }


  /** `s` with `src` written over it from `at` on. */
  function Splice(s: seq<Word>, at: nat, src: seq<Word>): (r: seq<Word>)
    requires at + |src| <= |s|
    ensures |r| == |s|
  {
    s[..at] + src + s[at + |src|..]
  }

  /** What sits before the end of a splice is the prefix followed by the new contents. */
  lemma SpliceGrows(s: seq<Word>, at: nat, src: seq<Word>)
    requires at + |src| <= |s|
    ensures Splice(s, at, src)[..at + |src|] == s[..at] + src
  {
  }

  /** A splice leaves every range outside it alone. */
  lemma SpliceOutside(s: seq<Word>, at: nat, src: seq<Word>, lo: nat, hi: nat)
    requires at + |src| <= |s| && lo <= hi <= |s|
    requires hi <= at || at + |src| <= lo
    ensures Splice(s, at, src)[lo..hi] == s[lo..hi]
  {
    var r := Splice(s, at, src);
    forall k | lo <= k < hi ensures r[k] == s[k] {
      if k < at {
        assert r[k] == r[..at][k];
      }
    }
  }

  /** Two adjacent splices are one splice of both contents. */
  lemma SpliceAdjacent(s: seq<Word>, at: nat, a: seq<Word>, b: seq<Word>)
    requires at + |a| + |b| <= |s|
    ensures Splice(Splice(s, at, a), at + |a|, b) == Splice(s, at, a + b)
  {
    var r := Splice(Splice(s, at, a), at + |a|, b);
    forall k | 0 <= k < |s| ensures r[k] == Splice(s, at, a + b)[k] {
      if k < at + |a| {
        assert r[k] == Splice(s, at, a)[k];
      }
    }
  }

  /** `memcpy(buffer + at, src, ...)`: overwrite `|src|` floats from `at` on and nothing else. */
  method Copy(buffer: array<Word>, at: nat, src: seq<Word>)
    requires at + |src| <= buffer.Length
    modifies buffer
    ensures buffer[..] == Splice(old(buffer[..]), at, src)
  {
    for i := 0 to |src|
      invariant buffer[..] == Splice(old(buffer[..]), at, src[..i])
    {
      ghost var pre := buffer[..];
      buffer[at + i] := src[i];
      assert buffer[..] == pre[at + i := src[i]];
      assert src[..i + 1] == src[..i] + [src[i]];
    }
    assert src[..|src|] == src;
  }

  /** The three copies of one normal at the normal cursor. */
  method CopyNormal(buffer: array<Word>, cst: nat, t: Triangle)
    requires cst + 12 <= buffer.Length
    modifies buffer
    ensures buffer[..] == Splice(old(buffer[..]), cst, NormalWords(t))
  {
    ghost var pre := buffer[..];
    Copy(buffer, cst, t.norm);
    Copy(buffer, cst + 4, t.norm);
    SpliceAdjacent(pre, cst, t.norm, t.norm);
    Copy(buffer, cst + 8, t.norm);
    SpliceAdjacent(pre, cst, t.norm + t.norm, t.norm);
  }

  /** The first i triangles of `ts` sit at their cursors in a buffer sized for n triangles. */
  predicate Copied(b: seq<Word>, n: nat, ts: seq<Triangle>, i: nat)
  {
    i <= |ts| && i <= n && |b| == 24 * n &&
    b[..12 * i] == Positions(ts[..i]) && b[12 * n..12 * n + 12 * i] == Normals(ts[..i])
  }

  /** One turn of the copy loop: triangle i at both cursors, what is already copied kept. */
  method CopyTriangle(buffer: array<Word>, n: nat, ts: seq<Triangle>, i: nat)
    requires i < |ts| && 12 * n + 12 * i + 12 <= buffer.Length
    requires Copied(buffer[..], n, ts, i)
    modifies buffer
    ensures Copied(buffer[..], n, ts, i + 1)
  {
    var vst, cst := 12 * i, 12 * n + 12 * i;
    ghost var b0 := buffer[..];
    Copy(buffer, vst, CornerWords(ts[i]));
    ghost var b1 := buffer[..];
    assert ts[..i + 1][..i] == ts[..i];
    assert b1[..vst + 12] == Positions(ts[..i + 1]) by {
      SpliceGrows(b0, vst, CornerWords(ts[i]));
    }
    assert b1[12 * n..cst] == Normals(ts[..i]) by {
      SpliceOutside(b0, vst, CornerWords(ts[i]), 12 * n, cst);
    }
    CopyNormal(buffer, cst, ts[i]);
    ghost var b2 := buffer[..];
    assert b2[..vst + 12] == Positions(ts[..i + 1]) by {
      SpliceOutside(b1, cst, NormalWords(ts[i]), 0, vst + 12);
    }
    assert b2[12 * n..cst + 12] == Normals(ts[..i + 1]) by {
      SpliceOutside(b1, cst, NormalWords(ts[i]), 12 * n, cst);
      assert b2[12 * n..cst + 12] == b2[12 * n..cst] + b2[cst..cst + 12];
    }
  }

  /** A buffer holding n triangles' positions and then their normals is their layout. */
  lemma FullCopy(b: seq<Word>, ts: seq<Triangle>)
    requires |b| == 24 * |ts|
    requires b[..12 * |ts|] == Positions(ts) && b[12 * |ts|..24 * |ts|] == Normals(ts)
    ensures b == Layout(ts)
  {
    assert b == b[..12 * |ts|] + b[12 * |ts|..24 * |ts|];
  }

  /**
   * The buffer half of `Item::load`: `new float[n*24]` for the count `n` just
   * read, then for every held triangle i its corners at the vertex cursor 12i
   * and its normal three times at the normal cursor 12n + 12i.  The vertex
   * cursor never passes the normal cursor, so once a normal copy fits so does
   * the vertex copy before it; `overrun` says that the normal copy would run
   * past the end (for n = 0 the vertex copy at 0 already does), and the copying
   * stops there.  That happens exactly when more than `n` triangles are held.
   */
  method BuildBuffer(ts: seq<Triangle>, n: nat) returns (buffer: array<Word>, overrun: bool)
    ensures fresh(buffer) && buffer.Length == 24 * n
    ensures overrun <==> n < |ts|
    ensures !overrun ==> buffer[..12 * |ts|] == Positions(ts) && buffer[12 * n..12 * n + 12 * |ts|] == Normals(ts)
    ensures |ts| == n ==> buffer[..] == Layout(ts)
  {
    buffer := new Word[24 * n](_ => ZeroWord);
    var i := 0;
    while i < |ts| && 12 * n + 12 * i + 12 <= buffer.Length
      invariant Copied(buffer[..], n, ts, i)
    {
      CopyTriangle(buffer, n, ts, i);
      i := i + 1;
    }
    overrun := i < |ts|;
    if !overrun {
      assert ts[..i] == ts;
      if |ts| == n {
        FullCopy(buffer[..], ts);
      }
    }
  }
}
