/**
 * The parameters and the items of the viewer: `Param` owns a `ParamData` and
 * unbinds it when destroyed; `Item` owns six parameters, a mesh and the
 * contents of its vertex buffer.
 */
module Items {
  import opened Bindings
  import opened Mesh
  import Transforms

  /** `SX0`, `SY0`, `SZ0`, `OX0`, `OY0`, `OZ0`: the initial values of an item's six parameters. */
  const SX0: real := 0.0
  const SY0: real := 0.0
  const SZ0: real := 0.0
  const OX0: real := 0.0
  const OY0: real := 0.0
  const OZ0: real := 300.0

  /**
   * What a parameter holds in the table: nothing once moved from, otherwise the
   * recorded key and the id of each of its two directions.
   */
  datatype Hold = Free | Held(upKey: Key, upId: int, downKey: Key, downId: int)

  /** The hold of `d`. */
  function HoldOf(d: ParamData?): Hold
    reads d
  {
    if d == null then Free else Held(d.upKey, d.upId, d.downKey, d.downId)
  }

  /** What destroying a parameter does to the table: unbind its up direction, then its down direction. */
  function Released(t: Table, h: Hold): Table
  {
    match h
    case Free => t
    case Held(upKey, upId, downKey, downId) => Detach(Detach(t, upKey, upId), downKey, downId)
  }

  /** Data still owned belongs to `g` and is registered with it. */
  ghost predicate Owned(d: ParamData?, g: Globals)
    reads g
  {
    d != null ==> d.g == g && d in g.params
  }

  /** No non-null entry occurs twice. */
  predicate Apart(ds: seq<ParamData?>)
  {
    forall i, j :: 0 <= i < j < |ds| && ds[i] != null ==> ds[i] != ds[j]
  }

  /** Six parameters holding the consecutive id pairs from `id` on are six different objects. */
  lemma Apart6(a: ParamData?, b: ParamData?, c: ParamData?, d: ParamData?, e: ParamData?, f: ParamData?, id: int)
    requires a != null && b != null && c != null && d != null && e != null && f != null
    requires a.upId == id && b.upId == id + 2 && c.upId == id + 4 && d.upId == id + 6 && e.upId == id + 8 && f.upId == id + 10
    ensures Apart([a, b, c, d, e, f])
  {
    var ds := [a, b, c, d, e, f];
    forall i, j | 0 <= i < j < |ds| && ds[i] != null ensures ds[i] != ds[j] {
      assert ds[i].upId == id + 2 * i && ds[j].upId == id + 2 * j;
    }
  }

  /** Both directions of `h`, if any, are unbound everywhere in `t`. */
  predicate Gone(t: Table, h: Hold)
  {
    h.Held? ==> Cleared(t, h.upId) && Cleared(t, h.downId)
  }

  /** `d` is data neither of whose directions is bound. */
  ghost predicate Idle(d: ParamData?)
    reads d
  {
    d != null && d.upKey == Unbound && d.downKey == Unbound
  }

  /** `d` holds the ids from `id` on and neither direction is bound. */
  ghost predicate Unused(d: ParamData?, id: int)
    reads d
  {
    Idle(d) && d.upId == id && d.downId == id + 1
  }

  /** `bindUp(up)` and then `bindDown(down)` on idle data: each appends one entry at the end of its key's list. */
  method BindKeys(d: ParamData, up: Key, down: Key)
    requires d.g.Valid() && d in d.g.params && Idle(d)
    modifies d`upKey, d`downKey, d.g.keyMap
    ensures d.upKey == up && d.downKey == down && d.g.Valid()
    ensures d.g.keyMap[..] == AttachAll(old(d.g.keyMap[..]), Pair(d, up, down))
  {
    d.Bind(Up, up);
    d.Bind(Down, down);
    AttachAllTwo(old(d.g.keyMap[..]), (up, Entry(d, Up, d.upId)), (down, Entry(d, Down, d.downId)));
  }

  /** The two bindings of `BindKeys`: `up` to the up direction, then `down` to the down direction. */
  function Pair(d: ParamData, up: Key, down: Key): seq<Binding>
  {
    [(up, Entry(d, Up, d.upId)), (down, Entry(d, Down, d.downId))]
  }

  /** The twelve bindings `init` makes for an item whose six parameters `sx` … `oz` own this data, in call order. */
  function Defaults(sx: ParamData, sy: ParamData, sz: ParamData, ox: ParamData, oy: ParamData, oz: ParamData): seq<Binding>
  {
    Pair(sx, 'a' as int, 'x' as int) + Pair(sy, 'c' as int, 'r' as int) + Pair(sz, 'e' as int, 'q' as int) +
    (Pair(ox, 'z' as int, 's' as int) + Pair(oy, 'd' as int, 's' as int) + Pair(oz, 'w' as int, 's' as int))
  }

  /** Releasing `h` leaves every other direction's placement and clearance as it was. */
  lemma ReleasedKeeps(t: Table, h: Hold)
    ensures forall id, key :: Placed(t, id, key) ==> Placed(Released(t, h), id, key)
    ensures forall id :: Cleared(t, id) ==> Cleared(Released(t, h), id)
  {
    if h.Held? {
      var t1 := Detach(t, h.upKey, h.upId);
      forall id, key | Placed(t, id, key) ensures Placed(Released(t, h), id, key) {
        DetachKeeps(t, h.upKey, h.upId, id, key);
        DetachKeeps(t1, h.downKey, h.downId, id, key);
      }
      forall id | Cleared(t, id) ensures Cleared(Released(t, h), id) {
        DetachKeeps(t, h.upKey, h.upId, id, Unbound);
        DetachKeeps(t1, h.downKey, h.downId, id, Unbound);
      }
    }
  }

  /** Both directions of `h` are placed at their recorded keys in `t`. */
  predicate HeldIn(t: Table, h: Hold)
  {
    h.Held? ==> Placed(t, h.upId, h.upKey) && Placed(t, h.downId, h.downKey)
  }

  /** Releasing a parameter whose directions are placed unbinds both of them everywhere. */
  lemma ReleasedClears(t: Table, h: Hold)
    requires HeldIn(t, h)
    ensures Gone(Released(t, h), h)
  {
    if h.Held? {
      var t1 := Detach(t, h.upKey, h.upId);
      DetachClears(t, h.upKey, h.upId);
      DetachKeeps(t, h.upKey, h.upId, h.downId, h.downKey);
      DetachKeeps(t1, h.downKey, h.downId, h.upId, h.upKey);
      DetachClears(t1, h.downKey, h.downId);
    }
  }

  /** Releasing one parameter leaves another's placements in place. */
  lemma HeldKept(t: Table, h: Hold, x: Hold)
    requires HeldIn(t, x)
    ensures HeldIn(Released(t, h), x)
  {
    ReleasedKeeps(t, h);
  }

  /** Releasing the holds of `hs` from the last to the first, as the members of a class are destroyed. */
  function ReleasedAll(t: Table, hs: seq<Hold>): Table
    decreases |hs|
  {
    if hs == [] then t else ReleasedAll(Released(t, hs[|hs| - 1]), hs[..|hs| - 1])
  }

  /** Releasing never brings back an entry that is gone. */
  lemma {:induction false} ReleasedAllKeeps(t: Table, hs: seq<Hold>, h: Hold)
    requires Gone(t, h)
    ensures Gone(ReleasedAll(t, hs), h)
    decreases |hs|
  {
    if hs != [] {
      ReleasedKeeps(t, hs[|hs| - 1]);
      ReleasedAllKeeps(Released(t, hs[|hs| - 1]), hs[..|hs| - 1], h);
    }
  }

  /** Parameters that were all moved from release nothing: destroying them leaves the table as it was. */
  lemma {:induction false} ReleasedAllFree(t: Table, hs: seq<Hold>)
    requires forall i :: 0 <= i < |hs| ==> hs[i] == Free
    ensures ReleasedAll(t, hs) == t
    decreases |hs|
  {
    if hs != [] {
      var front := hs[..|hs| - 1];
      assert forall i :: 0 <= i < |front| ==> front[i] == hs[i];
      ReleasedAllFree(t, front);
    }
  }

  /** After all of `hs` is released, none of its directions is bound to any proper key. */
  lemma {:induction false} ReleasedAllGone(t: Table, hs: seq<Hold>)
    requires forall i :: 0 <= i < |hs| ==> HeldIn(t, hs[i])
    ensures forall i :: 0 <= i < |hs| ==> Gone(ReleasedAll(t, hs), hs[i])
    decreases |hs|
  {
    if hs != [] {
      var h, front := hs[|hs| - 1], hs[..|hs| - 1];
      var t1 := Released(t, h);
      assert forall i :: 0 <= i < |front| ==> HeldIn(t1, front[i]) by {
        forall i | 0 <= i < |front| ensures HeldIn(t1, front[i]) {
          assert front[i] == hs[i];
          HeldKept(t, h, front[i]);
        }
      }
      ReleasedAllGone(t1, front);
      assert Gone(ReleasedAll(t1, front), h) by {
        ReleasedClears(t, h);
        ReleasedAllKeeps(t1, front, h);
      }
      var r := ReleasedAll(t, hs);
      assert r == ReleasedAll(t1, front);
      forall i | 0 <= i < |hs| ensures Gone(r, hs[i]) {
        if i < |front| { assert hs[i] == front[i]; }
      }
    }
  }

  /** A stepped transform: the owning handle of a `ParamData`, null once moved from. */
  class Param {
    const kind: Transforms.Kind
    var data: ParamData?

    /**
     * `SpinX(dgr)` and its five siblings: a fresh `ParamData` with the kind's
     * step, whose trigger is then run once with the initial value.
     */
    constructor (g: Globals, kind: Transforms.Kind, initial: real)
      requires g.Valid()
      modifies g
      ensures this.kind == kind && data != null && fresh(data)
      ensures data.g == g && data.val == initial && data.step == Transforms.StepOf(kind)
      ensures data.upKey == Unbound && data.downKey == Unbound
      ensures data.upId == old(g.funcCnt) && data.downId == data.upId + 1 && g.funcCnt == old(g.funcCnt) + 2
      ensures g.params == old(g.params) + {data}
      ensures g.calls == old(g.calls) + [Call(data, initial)]
      ensures g.Valid()
    {
      this.kind := kind;
      var d := new ParamData(g, initial, Transforms.StepOf(kind));
      data := d;
      new;
      g.calls := g.calls + [Call(d, initial)];
    }

    /** This parameter is a `k` holding data with value `v` and the step of its kind. */
    ghost predicate Starts(k: Transforms.Kind, v: real)
      reads this, data
    {
      kind == k && data != null && data.val == v && data.step == Transforms.StepOf(k)
    }

    /** The move constructor: take over `other`'s data and leave `other` empty. */
    constructor Move(other: Param)
      modifies other
      ensures kind == other.kind && data == old(other.data) && other.data == null
    {
      kind := other.kind;
      data := other.data;
      new;
      other.data := null;
    }

    /**
     * `~Param()`: when it still owns data, unbind both directions; a moved-from
     * parameter leaves the table alone.  `g` is the global table.
     */
    method Destroy(g: Globals, ghost h: Hold)
      requires g.Valid() && (data != null ==> data.g == g && data in g.params) && h == HoldOf(data)
      modifies g.keyMap
      ensures g.keyMap[..] == Released(old(g.keyMap[..]), h)
      ensures Gone(g.keyMap[..], h)
      ensures g.Valid()
    {
      if data != null {
        ghost var t0 := g.keyMap[..];
        data.Unbind(Up);
        ghost var t1 := g.keyMap[..];
        data.Unbind(Down);
        DetachKeeps(t1, data.downKey, data.downId, data.upId, data.upKey);
      }
    }

    /**
     * The matrix this parameter's trigger last stored: the kind's formula at the
     * latest value handed to the trigger, with `cos` and `sin` standing for `cosf`
     * and `sinf`.
     */
    function Matrix(calls: seq<Call>, cos: real -> real, sin: real -> real): (m: Transforms.Mat4)
      requires data != null
      reads this
      // the last call on this parameter's data decides the matrix
      ensures forall i :: LastCallAt(calls, data, i) ==>
        m == Transforms.Formula(kind, calls[i].value, cos(calls[i].value), sin(calls[i].value))
      // whatever the value, the stored matrix is affine
      ensures m[3] == [0.0, 0.0, 0.0, 1.0]
    {
      LatestIsLast(calls, data, 0.0);
      var v := Latest(calls, data, 0.0);
      Transforms.Formula(kind, v, cos(v), sin(v))
    }

    /**
     * After a key press runs the entries `s` (see `Keyboard`), the matrix of a
     * parameter named in `s` is its formula at the value the press left it
     * with, and any other parameter's matrix is as it was.
     */
    lemma MatrixAfterRun(calls: seq<Call>, s: seq<Entry>, cos: real -> real, sin: real -> real)
      requires data != null
      ensures data in Targets(s) ==> var v := Stepped(s, data);
        Matrix(calls + Fired(s), cos, sin) == Transforms.Formula(kind, v, cos(v), sin(v))
      ensures data !in Targets(s) ==> Matrix(calls + Fired(s), cos, sin) == Matrix(calls, cos, sin)
    {
      LatestAfterRun(calls, s, data, 0.0);
    }
  }

  /** A mesh with its six transforms. */
  class Item {
    const g: Globals
    /** The triangle count of the last load. */
    var n: int
    /** The 81-byte name buffer, empty once moved from. */
    var name: seq<byte>
    var tri: seq<Triangle>
    /** What `glBufferData` last uploaded to the item's buffer object. */
    var vbo: seq<Word>
    /** The byte offset of the normal attribute in `vbo`. */
    var normalOffset: int
    const sx: Param
    const sy: Param
    const sz: Param
    const ox: Param
    const oy: Param
    const oz: Param

    /** What the six parameters hold in the table, in declaration order. */
    function Holds(): seq<Hold>
      reads sx, sy, sz, ox, oy, oz, sx.data, sy.data, sz.data, ox.data, oy.data, oz.data
    {
      [HoldOf(sx.data), HoldOf(sy.data), HoldOf(sz.data), HoldOf(ox.data), HoldOf(oy.data), HoldOf(oz.data)]
    }

    /** The data the six parameters own, in declaration order. */
    function AllData(): seq<ParamData?>
      reads sx, sy, sz, ox, oy, oz
    {
      [sx.data, sy.data, sz.data, ox.data, oy.data, oz.data]
    }

    /**
     * The parameters have their declared kinds, and the data they still own is
     * registered with `g` and owned by one parameter only.
     */
    ghost predicate Valid()
      reads this, sx, sy, sz, ox, oy, oz, g
    {
      sx.kind == Transforms.SpinX && sy.kind == Transforms.SpinY && sz.kind == Transforms.SpinZ &&
      ox.kind == Transforms.OffsetX && oy.kind == Transforms.OffsetY && oz.kind == Transforms.OffsetZ &&
      Owned(sx.data, g) && Owned(sy.data, g) && Owned(sz.data, g) &&
      Owned(ox.data, g) && Owned(oy.data, g) && Owned(oz.data, g) && Apart(AllData())
    }

    /** All six parameters still own their data. */
    ghost predicate Owning()
      reads this, sx, sy, sz, ox, oy, oz
    {
      null !in AllData()
    }

    /**
     * `Item()`: the six parameters in declaration order from their initial
     * values, and the name buffer cleared.
     */
    constructor (g: Globals)
      requires g.Valid()
      modifies g
      ensures this.g == g && Valid() && Owning() && g.Valid()
      ensures n == 0 && name == seq(81, _ => 0) && tri == [] && vbo == [] && normalOffset == 0
      ensures sx.Starts(Transforms.SpinX, SX0) && sy.Starts(Transforms.SpinY, SY0) && sz.Starts(Transforms.SpinZ, SZ0)
      ensures ox.Starts(Transforms.OffsetX, OX0) && oy.Starts(Transforms.OffsetY, OY0) && oz.Starts(Transforms.OffsetZ, OZ0)
      ensures Unused(sx.data, old(g.funcCnt)) && Unused(sy.data, old(g.funcCnt) + 2) && Unused(sz.data, old(g.funcCnt) + 4)
      ensures Unused(ox.data, old(g.funcCnt) + 6) && Unused(oy.data, old(g.funcCnt) + 8) && Unused(oz.data, old(g.funcCnt) + 10)
      ensures g.funcCnt == old(g.funcCnt) + 12
      ensures g.calls == old(g.calls) +
        [Call(sx.data, SX0), Call(sy.data, SY0), Call(sz.data, SZ0)] + [Call(ox.data, OX0), Call(oy.data, OY0), Call(oz.data, OZ0)]
      ensures g.keyMap[..] == old(g.keyMap[..])
      ensures fresh(sx.data) && fresh(sy.data) && fresh(sz.data) && fresh(ox.data) && fresh(oy.data) && fresh(oz.data)
    {
      this.g := g;
      var x, y, z := NewParams(g, Transforms.SpinX, SX0, Transforms.SpinY, SY0, Transforms.SpinZ, SZ0);
      var u, v, w := NewParams(g, Transforms.OffsetX, OX0, Transforms.OffsetY, OY0, Transforms.OffsetZ, OZ0);
      sx, sy, sz, ox, oy, oz := x, y, z, u, v, w;
      ghost var id := old(g.funcCnt);
      Apart6(x.data, y.data, z.data, u.data, v.data, w.data, id);
      n := 0;
      name := seq(81, _ => 0);
      tri := [];
      vbo := [];
      normalOffset := 0;
    }

    /** Three parameters constructed in order against `g`. */
    static method NewParams(g: Globals, ka: Transforms.Kind, va: real, kb: Transforms.Kind, vb: real,
                            kc: Transforms.Kind, vc: real) returns (a: Param, b: Param, c: Param)
      requires g.Valid()
      modifies g
      ensures a.kind == ka && b.kind == kb && c.kind == kc
      ensures Unused(a.data, old(g.funcCnt)) && Unused(b.data, old(g.funcCnt) + 2) && Unused(c.data, old(g.funcCnt) + 4)
      ensures a.Starts(ka, va) && b.Starts(kb, vb) && c.Starts(kc, vc)
      ensures Owned(a.data, g) && Owned(b.data, g) && Owned(c.data, g) && old(g.params) <= g.params
      ensures fresh(a.data) && fresh(b.data) && fresh(c.data)
      ensures g.funcCnt == old(g.funcCnt) + 6
      ensures g.calls == old(g.calls) + [Call(a.data, va), Call(b.data, vb), Call(c.data, vc)]
      ensures g.keyMap[..] == old(g.keyMap[..])
      ensures g.Valid()
    {
      ghost var c0 := g.calls;
      a := new Param(g, ka, va);
      ghost var c1 := g.calls;
      b := new Param(g, kb, vb);
      ghost var c2 := g.calls;
      c := new Param(g, kc, vc);
      assert c2 == c0 + [Call(a.data, va)] + [Call(b.data, vb)];
      assert g.calls == c2 + [Call(c.data, vc)];
      ConsThree(c0, Call(a.data, va), Call(b.data, vb), Call(c.data, vc));
    }

    /** Three single appends are one append of three. */
    static lemma ConsThree<T>(s: seq<T>, x: T, y: T, z: T)
      ensures s + [x] + [y] + [z] == s + [x, y, z]
    {
    }

    /** Three parameters moved in order out of `a`, `b` and `c`. */
    static method MoveParams(a: Param, b: Param, c: Param) returns (x: Param, y: Param, z: Param)
      requires a.data != null ==> a.data != b.data && a.data != c.data
      requires b.data != null ==> b.data != c.data
      modifies a, b, c
      ensures x.kind == a.kind && y.kind == b.kind && z.kind == c.kind
      ensures x.data == old(a.data) && y.data == old(b.data) && z.data == old(c.data)
      ensures a.data == null && b.data == null && c.data == null
    {
      x := new Param.Move(a);
      y := new Param.Move(b);
      z := new Param.Move(c);
    }

    /** `Item(Item &&other)`: take over everything `other` owns and leave it empty. */
    constructor Move(other: Item)
      requires other.Valid()
      modifies other, other.sx, other.sy, other.sz, other.ox, other.oy, other.oz
      ensures g == other.g && n == old(other.n) && name == old(other.name) && tri == old(other.tri)
      ensures vbo == old(other.vbo) && normalOffset == old(other.normalOffset)
      ensures AllData() == old(other.AllData()) && other.AllData() == [null, null, null, null, null, null]
      ensures other.name == [] && other.tri == [] && other.vbo == []
      ensures other.n == old(other.n) && other.normalOffset == old(other.normalOffset)
      ensures Valid()
    {
      g := other.g;
      n := other.n;
      name := other.name;
      tri := other.tri;
      vbo := other.vbo;
      normalOffset := other.normalOffset;
      other.name := [];
      other.tri := [];
      other.vbo := [];
      var ds := other.AllData();
      assert ds[0] == other.sx.data && ds[1] == other.sy.data && ds[2] == other.sz.data;
      assert ds[3] == other.ox.data && ds[4] == other.oy.data && ds[5] == other.oz.data;
      var x, y, z := MoveParams(other.sx, other.sy, other.sz);
      var u, v, w := MoveParams(other.ox, other.oy, other.oz);
      sx, sy, sz, ox, oy, oz := x, y, z, u, v, w;
      assert [x.data, y.data, z.data, u.data, v.data, w.data] == ds;
    }

    /**
     * `~Item()`: the members are destroyed in reverse declaration order, each
     * parameter unbinding what it still owns.
     */
    method Destroy()
      requires Valid() && g.Valid()
      modifies g.keyMap
      ensures g.Valid()
      ensures g.keyMap[..] == ReleasedAll(old(g.keyMap[..]), old(Holds()))
      ensures forall i :: 0 <= i < 6 ==> Gone(g.keyMap[..], old(Holds())[i])
    {
      ghost var t0 := g.keyMap[..];
      ghost var hs := Holds();
      HeldAll();
      ReleasedSix(t0, hs);
      ReleasedAllGone(t0, hs);
      DestroyOffsets(hs);
      DestroySpins(hs);
    }

    /** In a valid state both directions of every owned parameter are placed at their recorded keys. */
    lemma HeldAll()
      requires Valid() && g.Valid()
      ensures forall i :: 0 <= i < |Holds()| ==> HeldIn(g.keyMap[..], Holds()[i])
    {
    }

    /** The destruction of the three offsets, `oz` first. */
    method DestroyOffsets(ghost hs: seq<Hold>)
      requires Owned(ox.data, g) && Owned(oy.data, g) && Owned(oz.data, g) && g.Valid() && hs == Holds()
      modifies g.keyMap
      ensures g.Valid() && Holds() == hs
      ensures g.keyMap[..] == Released(Released(Released(old(g.keyMap[..]), hs[5]), hs[4]), hs[3])
    {
      oz.Destroy(g, hs[5]);
      oy.Destroy(g, hs[4]);
      ox.Destroy(g, hs[3]);
    }

    /** The destruction of the three rotations, `sz` first. */
    method DestroySpins(ghost hs: seq<Hold>)
      requires Owned(sx.data, g) && Owned(sy.data, g) && Owned(sz.data, g) && g.Valid() && hs == Holds()
      modifies g.keyMap
      ensures g.Valid() && Holds() == hs
      ensures g.keyMap[..] == Released(Released(Released(old(g.keyMap[..]), hs[2]), hs[1]), hs[0])
    {
      sz.Destroy(g, hs[2]);
      sy.Destroy(g, hs[1]);
      sx.Destroy(g, hs[0]);
    }

    /** The vertex count `draw` hands to `glDrawArrays`: three per triangle. */
    function DrawCount(): (c: int)
      reads this
      ensures c % 3 == 0 && c / 3 == n
    {
      3 * n
    }

    /**
     * After a load, the `n*3` vertices `draw` asks for cover the buffer
     * exactly: the positions end where the normal attribute begins, and the
     * normals end at the end of the buffer.
     */
    lemma DrawCovers()
      requires n == |tri| && vbo == Layout(tri) && normalOffset == 48 * n
      ensures 4 * DrawCount() == normalOffset / 4
      ensures normalOffset / 4 + 4 * DrawCount() == |vbo|
    {
      LayoutAt(tri);
    }

    /**
     * `load`, with `tri` cleared first: the 80-byte header goes into the name
     * buffer, the count is read, the records are decoded in order, and the buffer
     * is built from them and uploaded.  A negative count makes `new float[n*24]`
     * throw, which the model reports as `ok == false`.
     */
    method Load(bytes: seq<byte>) returns (ok: bool)
      requires Readable(bytes) && |name| == 81
      modifies this`n, this`name, this`tri, this`vbo, this`normalOffset
      ensures name == bytes[..HeaderSize] + old(name)[HeaderSize..]
      ensures n == CountOf(bytes) && (ok <==> n >= 0)
      ensures ok ==> tri == Triangles(bytes, n) && vbo == Layout(tri) && normalOffset == 48 * n
      ensures ok ==> forall m :: 0 <= m < DrawCount() ==>
        Attribute(vbo, 0, m) == tri[m / 3].vert[m % 3] && Attribute(vbo, normalOffset / 4, m) == tri[m / 3].norm
      ensures !ok ==> tri == [] && vbo == old(vbo) && normalOffset == old(normalOffset)
    {
      tri := [];
      var overrun;
      ok, overrun := LoadAsWritten(bytes);
      if ok {
        assert normalOffset / 4 == 12 * |tri|;
        EveryVertex(tri);
      }
    }

    /**
     * `load` as written: the records are appended to the triangles already
     * held, while the buffer is sized for the new count alone.  With anything
     * held, the copy runs past the end of the buffer (`overrun`); from there on
     * the behaviour is undefined, and the model uploads nothing.
     */
    method LoadAsWritten(bytes: seq<byte>) returns (ok: bool, overrun: bool)
      requires Readable(bytes) && |name| == 81
      modifies this`n, this`name, this`tri, this`vbo, this`normalOffset
      ensures name == bytes[..HeaderSize] + old(name)[HeaderSize..]
      ensures n == CountOf(bytes) && (ok <==> n >= 0)
      ensures ok ==> tri == old(tri) + Triangles(bytes, n)
      ensures !ok ==> tri == old(tri) && !overrun
      ensures overrun <==> ok && old(tri) != []
      ensures ok && !overrun ==> vbo == Layout(tri) && normalOffset == 48 * n
      ensures !ok || overrun ==> vbo == old(vbo) && normalOffset == old(normalOffset)
    {
      name := bytes[..HeaderSize] + name[HeaderSize..];
      n := DecodeInt32(bytes[HeaderSize..RecordsStart]);
      ReadRecords(bytes, n);
      if n < 0 {
        return false, false;
      }
      var buffer;
      buffer, overrun := BuildBuffer(tri, n);
      ok := true;
      if !overrun {
        vbo := buffer[..];
        normalOffset := n * 3 * 4 * 4;
      }
    }

    /** The read loop of `load`: `count` records, each pushed onto `tri` in file order. */
    method ReadRecords(bytes: seq<byte>, count: int)
      requires RecordsStart <= |bytes| && (count >= 0 ==> RecordsStart + RecordSize * count <= |bytes|)
      modifies this`tri
      ensures count >= 0 ==> tri == old(tri) + Triangles(bytes, count)
      ensures count < 0 ==> tri == old(tri)
    {
      var pos := RecordsStart;
      var i := 0;
      var read: seq<Triangle> := [];
      while i < count
        invariant 0 <= i && (i <= count || i == 0)
        invariant pos == RecordsStart + RecordSize * i && pos <= |bytes|
        invariant read == Triangles(bytes, i) && tri == old(tri)
      {
        assert pos + RecordSize == RecordsStart + RecordSize * (i + 1);
        var cur := ReadRecord(bytes, pos);
        assert bytes[pos..pos + RecordSize] == RecordBytes(bytes, i);
        read := read + [cur];
        pos := pos + RecordSize;
        i := i + 1;
      }
      tri := tri + read;
    }

    /**
     * The matrix `draw` sends to the shader: the projection times the three
     * offsets times the three rotations, so the z rotation acts first and the
     * projection last.
     */
    function Convert(cos: real -> real, sin: real -> real): (m: Transforms.Mat4)
      requires Owning()
      reads this, sx, sy, sz, ox, oy, oz, g
      ensures forall p: Transforms.Vec4 ::
                Transforms.Apply(m, p) ==
                Transforms.Apply(Transforms.Projection,
                  Transforms.Apply(ox.Matrix(g.calls, cos, sin), Transforms.Apply(oy.Matrix(g.calls, cos, sin),
                  Transforms.Apply(oz.Matrix(g.calls, cos, sin), Transforms.Apply(sx.Matrix(g.calls, cos, sin),
                  Transforms.Apply(sy.Matrix(g.calls, cos, sin), Transforms.Apply(sz.Matrix(g.calls, cos, sin), p)))))))
    {
      assert AllData()[0] == sx.data && AllData()[1] == sy.data && AllData()[2] == sz.data;
      assert AllData()[3] == ox.data && AllData()[4] == oy.data && AllData()[5] == oz.data;
      var mox, moy, moz := ox.Matrix(g.calls, cos, sin), oy.Matrix(g.calls, cos, sin), oz.Matrix(g.calls, cos, sin);
      var msx, msy, msz := sx.Matrix(g.calls, cos, sin), sy.Matrix(g.calls, cos, sin), sz.Matrix(g.calls, cos, sin);
      Transforms.DrawOrder(mox, moy, moz, msx, msy, msz);
      Transforms.ModelMatrix(mox, moy, moz, msx, msy, msz)
    }
  }

  /**
   * The twelve bindings `init` makes on a freshly constructed item, given the
   * data of its six parameters `sx`, `sy`, `sz`, `ox`, `oy`, `oz`: each records
   * its two keys, and the table grows by `Defaults`, in call order.
   */
  method BindInit(g: Globals, sx: ParamData, sy: ParamData, sz: ParamData, ox: ParamData, oy: ParamData, oz: ParamData)
    requires g.Valid() && Owned(sx, g) && Owned(sy, g) && Owned(sz, g) && Owned(ox, g) && Owned(oy, g) && Owned(oz, g)
    requires Idle(sx) && Idle(sy) && Idle(sz) && Idle(ox) && Idle(oy) && Idle(oz)
    requires sx != sy && sx != sz && sy != sz && ox != oy && ox != oz && oy != oz
    requires sx != ox && sx != oy && sx != oz && sy != ox && sy != oy && sy != oz && sz != ox && sz != oy && sz != oz
    modifies g.keyMap, sx`upKey, sx`downKey, sy`upKey, sy`downKey, sz`upKey, sz`downKey
    modifies ox`upKey, ox`downKey, oy`upKey, oy`downKey, oz`upKey, oz`downKey
    ensures g.Valid()
    ensures sx.upKey == 'a' as int && sx.downKey == 'x' as int
    ensures sy.upKey == 'c' as int && sy.downKey == 'r' as int
    ensures sz.upKey == 'e' as int && sz.downKey == 'q' as int
    ensures ox.upKey == 'z' as int && ox.downKey == 's' as int
    ensures oy.upKey == 'd' as int && oy.downKey == 's' as int
    ensures oz.upKey == 'w' as int && oz.downKey == 's' as int
    ensures g.keyMap[..] == AttachAll(old(g.keyMap[..]), Defaults(sx, sy, sz, ox, oy, oz))
  {
    ghost var t0 := g.keyMap[..];
    BindThree(g, sx, 'a' as int, 'x' as int, sy, 'c' as int, 'r' as int, sz, 'e' as int, 'q' as int);
    BindThree(g, ox, 'z' as int, 's' as int, oy, 'd' as int, 's' as int, oz, 'w' as int, 's' as int);
    AttachAllConcat(t0, Pair(sx, 'a' as int, 'x' as int) + Pair(sy, 'c' as int, 'r' as int) + Pair(sz, 'e' as int, 'q' as int),
      Pair(ox, 'z' as int, 's' as int) + Pair(oy, 'd' as int, 's' as int) + Pair(oz, 'w' as int, 's' as int));
  }

  /** `BindKeys` on three different idle data in turn: their six bindings, in call order. */
  method BindThree(g: Globals, a: ParamData, ka: Key, kb: Key, b: ParamData, kc: Key, kd: Key, c: ParamData, ke: Key, kf: Key)
    requires g.Valid() && a.g == g && b.g == g && c.g == g && a in g.params && b in g.params && c in g.params
    requires Idle(a) && Idle(b) && Idle(c) && a != b && a != c && b != c
    modifies g.keyMap, a`upKey, a`downKey, b`upKey, b`downKey, c`upKey, c`downKey
    ensures g.Valid()
    ensures a.upKey == ka && a.downKey == kb && b.upKey == kc && b.downKey == kd && c.upKey == ke && c.downKey == kf
    ensures g.keyMap[..] == AttachAll(old(g.keyMap[..]), Pair(a, ka, kb) + Pair(b, kc, kd) + Pair(c, ke, kf))
  {
    ghost var t0 := g.keyMap[..];
    BindKeys(a, ka, kb);
    BindKeys(b, kc, kd);
    AttachAllConcat(t0, Pair(a, ka, kb), Pair(b, kc, kd));
    BindKeys(c, ke, kf);
    AttachAllConcat(t0, Pair(a, ka, kb) + Pair(b, kc, kd), Pair(c, ke, kf));
  }

  /** The entry `e` if its key is `k`, else nothing. */
  function Hit(key: Key, e: Entry, k: Key): seq<Entry>
  {
    if key == k then [e] else []
  }

  /** The entries `init` binds to `k`, one binding at a time, in call order. */
  lemma DefaultsSplit(sx: ParamData, sy: ParamData, sz: ParamData, ox: ParamData, oy: ParamData, oz: ParamData, k: Key)
    ensures EntriesAt(Defaults(sx, sy, sz, ox, oy, oz), k) ==
      (Hit('a' as int, Entry(sx, Up, sx.upId), k) + Hit('x' as int, Entry(sx, Down, sx.downId), k) +
       (Hit('c' as int, Entry(sy, Up, sy.upId), k) + Hit('r' as int, Entry(sy, Down, sy.downId), k)) +
       (Hit('e' as int, Entry(sz, Up, sz.upId), k) + Hit('q' as int, Entry(sz, Down, sz.downId), k))) +
      (Hit('z' as int, Entry(ox, Up, ox.upId), k) + Hit('s' as int, Entry(ox, Down, ox.downId), k) +
       (Hit('d' as int, Entry(oy, Up, oy.upId), k) + Hit('s' as int, Entry(oy, Down, oy.downId), k)) +
       (Hit('w' as int, Entry(oz, Up, oz.upId), k) + Hit('s' as int, Entry(oz, Down, oz.downId), k)))
  {
    var spins := Pair(sx, 'a' as int, 'x' as int) + Pair(sy, 'c' as int, 'r' as int) + Pair(sz, 'e' as int, 'q' as int);
    var offsets := Pair(ox, 'z' as int, 's' as int) + Pair(oy, 'd' as int, 's' as int) + Pair(oz, 'w' as int, 's' as int);
    EntriesAtConcat(spins, offsets, k);
    ThreeAt(sx, 'a' as int, 'x' as int, sy, 'c' as int, 'r' as int, sz, 'e' as int, 'q' as int, k);
    ThreeAt(ox, 'z' as int, 's' as int, oy, 'd' as int, 's' as int, oz, 'w' as int, 's' as int, k);
  }

  /** The entries three `BindKeys` calls put at `k`, in call order. */
  lemma ThreeAt(a: ParamData, ka: Key, kb: Key, b: ParamData, kc: Key, kd: Key, c: ParamData, ke: Key, kf: Key, k: Key)
    ensures EntriesAt(Pair(a, ka, kb) + Pair(b, kc, kd) + Pair(c, ke, kf), k) ==
      Hit(ka, Entry(a, Up, a.upId), k) + Hit(kb, Entry(a, Down, a.downId), k) +
      (Hit(kc, Entry(b, Up, b.upId), k) + Hit(kd, Entry(b, Down, b.downId), k)) +
      (Hit(ke, Entry(c, Up, c.upId), k) + Hit(kf, Entry(c, Down, c.downId), k))
  {
    EntriesAtConcat(Pair(a, ka, kb) + Pair(b, kc, kd), Pair(c, ke, kf), k);
    EntriesAtConcat(Pair(a, ka, kb), Pair(b, kc, kd), k);
    PairAt(a, ka, kb, k);
    PairAt(b, kc, kd, k);
    PairAt(c, ke, kf, k);
  }

  /** The entries `BindKeys`'s two bindings put at `k`. */
  lemma PairAt(d: ParamData, up: Key, down: Key, k: Key)
    ensures EntriesAt(Pair(d, up, down), k) == Hit(up, Entry(d, Up, d.upId), k) + Hit(down, Entry(d, Down, d.downId), k)
  {
    var p := Pair(d, up, down);
    assert p[..1] == [p[0]];
    assert EntriesAt(p[..1], k) == EntriesAt(p[..1][..0], k) + Hit(up, p[0].1, k);
  }

  /**
   * After `init`'s bindings, key s steps the three offsets down in the order
   * `ox`, `oy`, `oz`, and each other key of `init` carries exactly one entry.
   */
  lemma DefaultsAt(sx: ParamData, sy: ParamData, sz: ParamData, ox: ParamData, oy: ParamData, oz: ParamData)
    ensures EntriesAt(Defaults(sx, sy, sz, ox, oy, oz), 's' as int) == [Entry(ox, Down, ox.downId), Entry(oy, Down, oy.downId), Entry(oz, Down, oz.downId)]
    ensures EntriesAt(Defaults(sx, sy, sz, ox, oy, oz), 'a' as int) == [Entry(sx, Up, sx.upId)]
    ensures EntriesAt(Defaults(sx, sy, sz, ox, oy, oz), 'x' as int) == [Entry(sx, Down, sx.downId)]
    ensures EntriesAt(Defaults(sx, sy, sz, ox, oy, oz), 'c' as int) == [Entry(sy, Up, sy.upId)]
    ensures EntriesAt(Defaults(sx, sy, sz, ox, oy, oz), 'r' as int) == [Entry(sy, Down, sy.downId)]
    ensures EntriesAt(Defaults(sx, sy, sz, ox, oy, oz), 'e' as int) == [Entry(sz, Up, sz.upId)]
    ensures EntriesAt(Defaults(sx, sy, sz, ox, oy, oz), 'q' as int) == [Entry(sz, Down, sz.downId)]
    ensures EntriesAt(Defaults(sx, sy, sz, ox, oy, oz), 'z' as int) == [Entry(ox, Up, ox.upId)]
    ensures EntriesAt(Defaults(sx, sy, sz, ox, oy, oz), 'd' as int) == [Entry(oy, Up, oy.upId)]
    ensures EntriesAt(Defaults(sx, sy, sz, ox, oy, oz), 'w' as int) == [Entry(oz, Up, oz.upId)]
  {
    DefaultsSplit(sx, sy, sz, ox, oy, oz, 's' as int);
    DefaultsSplit(sx, sy, sz, ox, oy, oz, 'a' as int);
    DefaultsSplit(sx, sy, sz, ox, oy, oz, 'x' as int);
    DefaultsSplit(sx, sy, sz, ox, oy, oz, 'c' as int);
    DefaultsSplit(sx, sy, sz, ox, oy, oz, 'r' as int);
    DefaultsSplit(sx, sy, sz, ox, oy, oz, 'e' as int);
    DefaultsSplit(sx, sy, sz, ox, oy, oz, 'q' as int);
    DefaultsSplit(sx, sy, sz, ox, oy, oz, 'z' as int);
    DefaultsSplit(sx, sy, sz, ox, oy, oz, 'd' as int);
    DefaultsSplit(sx, sy, sz, ox, oy, oz, 'w' as int);
  }

  /** Keys `init` does not name carry no entry after its bindings. */
  lemma DefaultsElsewhere(sx: ParamData, sy: ParamData, sz: ParamData, ox: ParamData, oy: ParamData, oz: ParamData, k: Key)
    requires k !in DefaultKeys()
    ensures EntriesAt(Defaults(sx, sy, sz, ox, oy, oz), k) == []
  {
    DefaultsSplit(sx, sy, sz, ox, oy, oz, k);
  }

  /** `ReleasedAll` over six parameters, written out. */
  lemma ReleasedSix(t: Table, hs: seq<Hold>)
    requires |hs| == 6
    ensures ReleasedAll(t, hs) ==
      Released(Released(Released(Released(Released(Released(t, hs[5]), hs[4]), hs[3]), hs[2]), hs[1]), hs[0])
  {
    var t1 := Released(t, hs[5]);
    var t2 := Released(t1, hs[4]);
    var t3 := Released(t2, hs[3]);
    var t4 := Released(t3, hs[2]);
    var t5 := Released(t4, hs[1]);
    assert hs[..6] == hs;
    ReleasedAllStep(t, hs, 6);
    ReleasedAllStep(t1, hs, 5);
    ReleasedAllStep(t2, hs, 4);
    ReleasedAllStep(t3, hs, 3);
    ReleasedAllStep(t4, hs, 2);
    ReleasedAllStep(t5, hs, 1);
  }

  /** Releasing the first `k` holds starts with the `k`-th. */
  lemma ReleasedAllStep(t: Table, hs: seq<Hold>, k: nat)
    requires 0 < k <= |hs|
    ensures ReleasedAll(t, hs[..k]) == ReleasedAll(Released(t, hs[k - 1]), hs[..k - 1])
  {
    assert hs[..k][..k - 1] == hs[..k - 1];
  }

  /** The keys `init` binds. */
  function DefaultKeys(): set<Key>
  {
    {'a' as int, 'x' as int, 'c' as int, 'r' as int, 'e' as int, 'q' as int, 'z' as int, 's' as int,
     'd' as int, 'w' as int}
  }

  /**
   * Pressing a key bound to the down direction of three distinct parameters
   * steps each of them down once and runs their triggers in binding order with
   * the new values.
   */
  lemma SharedDownKey(x: ParamData, y: ParamData, z: ParamData)
    requires x != y && y != z && x != z
    ensures var s := [Entry(x, Down, x.downId), Entry(y, Down, y.downId), Entry(z, Down, z.downId)];
      Stepped(s, x) == x.val - x.step && Stepped(s, y) == y.val - y.step && Stepped(s, z) == z.val - z.step &&
      Fired(s) == [Call(x, x.val - x.step), Call(y, y.val - y.step), Call(z, z.val - z.step)]
  {
    var s := [Entry(x, Down, x.downId), Entry(y, Down, y.downId), Entry(z, Down, z.downId)];
    var s2 := s[..2];
    var s1 := s2[..1];
    assert s1[..0] == [];
    assert Net(s1, x) == -1 && Net(s1, y) == 0 && Net(s1, z) == 0;
    assert Net(s2, x) == -1 && Net(s2, y) == -1 && Net(s2, z) == 0;
    assert Net(s, x) == -1 && Net(s, y) == -1 && Net(s, z) == -1;
    assert Fired(s1) == [Call(x, Stepped(s1, x))];
    assert Fired(s2) == Fired(s1) + [Call(y, Stepped(s2, y))];
    assert Fired(s) == Fired(s2) + [Call(z, Stepped(s, z))];
  }
}
