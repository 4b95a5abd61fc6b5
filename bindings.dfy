/**
 * The key-dispatch table and the stepped parameters bound to it.
 *
 * The process-wide `keyMap[256]` becomes the array of a `Globals` object, which
 * also holds `ParamData::func_cnt` and the trace of trigger invocations.  Each
 * action closure pushed by `bindUp` / `bindDown` is modelled as a tag: the
 * parameter it steps and the direction of the step.
 */
module Bindings {

  /** A key code as the keyboard callback receives it: an unsigned char. */
  type Key = k: int | 0 <= k < 256

  /** Key 0 doubles as "not bound": `unbindUp` / `unbindDown` skip the search when the recorded key is 0. */
  const Unbound: Key := 0

  datatype Direction = Up | Down

  /** One entry of a key's list: the action (which parameter, which direction) and its id. */
  datatype Entry = Entry(target: ParamData, dir: Direction, id: int)

  /** One invocation of a parameter's trigger, with the value passed to it. */
  datatype Call = Call(target: ParamData, value: real)

  /** The contents of `keyMap`: one ordered list of entries per key. */
  type Table = t: seq<seq<Entry>> | |t| == 256 witness seq(256, _ => [])

  // ---------------------------------------------------------------------------
  // Lists of entries
  // ---------------------------------------------------------------------------

  /** How many entries of `s` carry `id`. */
  function Count(s: seq<Entry>, id: int): nat
  {
    if s == [] then 0 else (if s[0].id == id then 1 else 0) + Count(s[1..], id)
  }

  /** The position at which the search loop of `unbindUp` / `unbindDown` stops: the first entry with `id`, or |s|. */
  function FirstIndex(s: seq<Entry>, id: int): (i: nat)
    ensures i <= |s|
    ensures forall j :: 0 <= j < i ==> s[j].id != id
    ensures i < |s| ==> s[i].id == id
  {
    if s == [] then 0 else if s[0].id == id then 0 else 1 + FirstIndex(s[1..], id)
  }

  /** `erase` of the first entry with `id`; a list without such an entry is left as it is. */
  function RemoveFirst(s: seq<Entry>, id: int): seq<Entry>
  {
    var i := FirstIndex(s, id);
    if i == |s| then s else s[..i] + s[i + 1..]
  }

  lemma {:induction false} CountConcat(a: seq<Entry>, b: seq<Entry>, id: int)
    ensures Count(a + b, id) == Count(a, id) + Count(b, id)
  {
    if a == [] {
      assert a + b == b;
    } else {
      assert (a + b)[1..] == a[1..] + b;
      CountConcat(a[1..], b, id);
    }
  }

  /** No entry carries `id` exactly when `id` is counted zero times. */
  lemma {:induction false} CountZero(s: seq<Entry>, id: int)
    ensures Count(s, id) == 0 <==> forall e :: e in s ==> e.id != id
  {
    if s != [] {
      CountZero(s[1..], id);
      assert s == [s[0]] + s[1..];
    }
  }

  /** Removing the first entry with `id` lowers the count of `id` by one when there is one, and no other count. */
  lemma CountRemoveFirst(s: seq<Entry>, id: int, other: int)
    ensures Count(RemoveFirst(s, id), other) ==
            Count(s, other) - (if other == id && Count(s, id) > 0 then 1 else 0)
  {
    var i := FirstIndex(s, id);
    if i == |s| {
      CountZero(s, id);
    } else {
      assert s == s[..i] + ([s[i]] + s[i + 1..]);
      CountConcat(s[..i], [s[i]] + s[i + 1..], other);
      CountConcat([s[i]], s[i + 1..], other);
      CountConcat(s[..i], s[i + 1..], other);
      CountZero(s[..i], id);
      if other == id {
        assert Count(s, id) > 0;
      } else {
        assert Count(s[i + 1..], id) >= 0;
      }
    }
  }

  /** The removal keeps the remaining entries, in their order, and never adds one. */
  lemma RemoveFirstKeepsOrder(s: seq<Entry>, id: int)
    ensures Count(s, id) == 0 ==> RemoveFirst(s, id) == s
    ensures Count(s, id) > 0 ==>
      exists i :: 0 <= i < |s| && s[i].id == id &&
        (forall j :: 0 <= j < i ==> s[j].id != id) && RemoveFirst(s, id) == s[..i] + s[i + 1..]
    ensures forall e :: e in RemoveFirst(s, id) ==> e in s
  {
    CountZero(s, id);
    var i := FirstIndex(s, id);
    if i < |s| {
      assert s[i] in s;
      assert s == s[..i] + [s[i]] + s[i + 1..];
    }
  }

  // ---------------------------------------------------------------------------
  // The table
  // ---------------------------------------------------------------------------

  /** What `unbindUp` / `unbindDown` do to the table, given the recorded key and the direction's id. */
  function Detach(t: Table, key: Key, id: int): Table
  {
    if key == Unbound then t else t[key := RemoveFirst(t[key], id)]
  }

  /** `keyMap[key].push_back(e)`. */
  function Attach(t: Table, key: Key, e: Entry): Table
  {
    t[key := t[key] + [e]]
  }

  /** A key and the entry bound to it. */
  type Binding = (Key, Entry)

  /** The bindings of `bs` appended to the table in order. */
  function AttachAll(t: Table, bs: seq<Binding>): Table
    decreases |bs|
  {
    if bs == [] then t else Attach(AttachAll(t, bs[..|bs| - 1]), bs[|bs| - 1].0, bs[|bs| - 1].1)
  }

  /** The entries `bs` binds to `k`, in order. */
  function EntriesAt(bs: seq<Binding>, k: Key): seq<Entry>
    decreases |bs|
  {
    if bs == [] then [] else EntriesAt(bs[..|bs| - 1], k) + (if bs[|bs| - 1].0 == k then [bs[|bs| - 1].1] else [])
  }

  /** After a run of bindings, each key's list is its old list followed by the entries bound to it, in order. */
  lemma {:induction false} AttachAllAt(t: Table, bs: seq<Binding>, k: Key)
    ensures AttachAll(t, bs)[k] == t[k] + EntriesAt(bs, k)
    decreases |bs|
  {
    if bs != [] {
      AttachAllAt(t, bs[..|bs| - 1], k);
    }
  }

  /** Two runs of bindings are one run of both. */
  lemma {:induction false} AttachAllConcat(t: Table, a: seq<Binding>, b: seq<Binding>)
    ensures AttachAll(AttachAll(t, a), b) == AttachAll(t, a + b)
    decreases |b|
  {
    if b == [] {
      assert a + b == a;
    } else {
      AttachAllConcat(t, a, b[..|b| - 1]);
      assert (a + b)[..|a + b| - 1] == a + b[..|b| - 1];
    }
  }

  /** A run of two bindings is two appends. */
  lemma AttachAllTwo(t: Table, a: Binding, b: Binding)
    ensures AttachAll(t, [a, b]) == Attach(Attach(t, a.0, a.1), b.0, b.1)
    ensures forall k: Key :: EntriesAt([a, b], k) == (if a.0 == k then [a.1] else []) + (if b.0 == k then [b.1] else [])
  {
    assert [a, b][..1] == [a];
    assert [a][..0] == [];
    assert AttachAll(t, [a]) == Attach(AttachAll(t, []), a.0, a.1);
    forall k: Key ensures EntriesAt([a, b], k) == (if a.0 == k then [a.1] else []) + (if b.0 == k then [b.1] else []) {
      assert EntriesAt([a], k) == EntriesAt([], k) + (if a.0 == k then [a.1] else []);
    }
  }

  /** The entries bound to a key by two runs are those of the first run, then those of the second. */
  lemma {:induction false} EntriesAtConcat(a: seq<Binding>, b: seq<Binding>, k: Key)
    ensures EntriesAt(a + b, k) == EntriesAt(a, k) + EntriesAt(b, k)
    decreases |b|
  {
    if b == [] {
      assert a + b == a;
    } else {
      EntriesAtConcat(a, b[..|b| - 1], k);
      assert (a + b)[..|a + b| - 1] == a + b[..|b| - 1];
    }
  }

  /** What `bindUp(key)` / `bindDown(key)` do to the table: unbind at the recorded key, then append at `key`. */
  function Rebind(t: Table, recorded: Key, key: Key, e: Entry): Table
  {
    Attach(Detach(t, recorded, e.id), key, e)
  }

  /**
   * The placement invariant of one direction of one parameter: apart from the
   * sentinel key 0, its id occurs at most once, and only under the key it has
   * recorded.
   */
  predicate Placed(t: Table, id: int, key: Key)
  {
    (forall k: Key :: k != Unbound && k != key ==> Count(t[k], id) == 0) &&
    (key != Unbound ==> Count(t[key], id) <= 1)
  }

  /** No entry with `id` under any proper key: the direction is fully unbound. */
  predicate Cleared(t: Table, id: int)
  {
    forall k: Key :: k != Unbound ==> Count(t[k], id) == 0
  }

  /** Unbinding removes the direction's entry from every proper key. */
  lemma DetachClears(t: Table, key: Key, id: int)
    requires Placed(t, id, key)
    ensures Cleared(Detach(t, key, id), id)
  {
    if key != Unbound {
      CountRemoveFirst(t[key], id, id);
    }
  }

  /** Unbinding never raises a count, so it keeps every placement and every clearance. */
  lemma DetachKeeps(t: Table, key: Key, id: int, other: int, otherKey: Key)
    ensures Placed(t, other, otherKey) ==> Placed(Detach(t, key, id), other, otherKey)
    ensures Cleared(t, other) ==> Cleared(Detach(t, key, id), other)
    ensures forall k: Key, e :: e in Detach(t, key, id)[k] ==> e in t[k]
  {
    if key != Unbound {
      CountRemoveFirst(t[key], id, other);
      RemoveFirstKeepsOrder(t[key], id);
    }
  }

  /** Appending one entry adds one to its own id's count under that key and changes no other count. */
  lemma AttachCount(t: Table, key: Key, e: Entry, other: int)
    ensures forall k: Key :: Count(Attach(t, key, e)[k], other) ==
              Count(t[k], other) + (if k == key && e.id == other then 1 else 0)
  {
    CountConcat(t[key], [e], other);
  }

  /** Unbinding twice is unbinding once, for a direction whose placement invariant holds. */
  lemma DetachIdempotent(t: Table, key: Key, id: int)
    requires Placed(t, id, key)
    ensures Detach(Detach(t, key, id), key, id) == Detach(t, key, id)
  {
    if key != Unbound {
      var once := RemoveFirst(t[key], id);
      CountRemoveFirst(t[key], id, id);
      RemoveFirstKeepsOrder(once, id);
      assert Detach(t, key, id)[key] == once;
    }
  }

  /**
   * A rebinding keeps the invariant of its own direction (now at `key`) and of
   * every other id.
   */
  lemma RebindKeeps(t: Table, recorded: Key, key: Key, e: Entry, other: int, otherKey: Key)
    requires Placed(t, e.id, recorded)
    ensures Placed(Rebind(t, recorded, key, e), e.id, key)
    ensures other != e.id && Placed(t, other, otherKey) ==> Placed(Rebind(t, recorded, key, e), other, otherKey)
    ensures forall k: Key, x :: x in Rebind(t, recorded, key, e)[k] ==> x in t[k] || x == e
  {
    var d := Detach(t, recorded, e.id);
    DetachClears(t, recorded, e.id);
    DetachKeeps(t, recorded, e.id, other, otherKey);
    AttachCount(d, key, e, e.id);
    AttachCount(d, key, e, other);
    forall k: Key, x | x in Rebind(t, recorded, key, e)[k] ensures x in t[k] || x == e {
      if k == key {
        assert Rebind(t, recorded, key, e)[k] == d[key] + [e];
        if x in d[key] { assert x in d[k]; }
      } else {
        assert x in d[k];
      }
    }
  }

  /**
   * One bind call appends exactly one entry, at the end of `key`'s list, after
   * taking the direction's earlier entry out of the recorded key's list; every
   * other list is untouched.
   */
  lemma RebindShape(t: Table, recorded: Key, key: Key, e: Entry)
    requires Placed(t, e.id, recorded)
    ensures var r := Rebind(t, recorded, key, e);
      |r[key]| >= 1 && r[key][|r[key]| - 1] == e &&
      r[key][..|r[key]| - 1] == Detach(t, recorded, e.id)[key] &&
      (key != Unbound ==> Count(r[key], e.id) == 1) &&
      (recorded != key && recorded != Unbound ==> Count(r[recorded], e.id) == 0) &&
      (forall k: Key :: k != key && k != recorded ==> r[k] == t[k])
  {
    var r := Rebind(t, recorded, key, e);
    assert r[key][..|r[key]| - 1] == Detach(t, recorded, e.id)[key];
    DetachClears(t, recorded, e.id);
    AttachCount(Detach(t, recorded, e.id), key, e, e.id);
  }

  /**
   * Rebinding retires the old key: after binding a direction to k1 and then to
   * k2, the list of k1 holds no entry of that direction and the list of k2
   * holds exactly one.
   */
  lemma RebindRetires(t: Table, recorded: Key, k1: Key, k2: Key, e: Entry)
    requires Placed(t, e.id, recorded)
    requires k1 != k2 && k1 != Unbound && k2 != Unbound
    ensures var t2 := Rebind(Rebind(t, recorded, k1, e), k1, k2, e);
      Count(t2[k1], e.id) == 0 && Count(t2[k2], e.id) == 1
  {
    RebindKeeps(t, recorded, k1, e, e.id, k1);
    RebindShape(Rebind(t, recorded, k1, e), k1, k2, e);
  }

  /**
   * Key 0 is never retired: since 0 also means "not bound", an entry bound to
   * key 0 is still in its list after the direction is rebound to another key.
   * Destroying the parameter does not retire it either, so key code 0 would
   * still run an action on the parameter after its matrix is deleted.
   */
  lemma KeyZeroLingers(t: Table, recorded: Key, k2: Key, e: Entry)
    requires Placed(t, e.id, recorded)
    ensures var t2 := Rebind(Rebind(t, recorded, Unbound, e), Unbound, k2, e);
      Count(t2[Unbound], e.id) >= 1
  {
    var t1 := Rebind(t, recorded, Unbound, e);
    var d := Detach(t, recorded, e.id);
    AttachCount(d, Unbound, e, e.id);
    AttachCount(t1, k2, e, e.id);
  }

  // ---------------------------------------------------------------------------
  // Dispatch
  // ---------------------------------------------------------------------------

  /** The parameters the actions of a list step. */
  function Targets(s: seq<Entry>): set<ParamData>
  {
    set e | e in s :: e.target
  }

  /** The signed number of steps a list applies to `p`: one per up entry, minus one per down entry. */
  function Net(s: seq<Entry>, p: ParamData): int
  {
    if s == [] then 0
    else
      var last := s[|s| - 1];
      Net(s[..|s| - 1], p) + (if last.target != p then 0 else if last.dir == Up then 1 else -1)
  }

  /** The value `p` reaches once the actions of `s` have run, read in the state before the run. */
  ghost function Stepped(s: seq<Entry>, p: ParamData): real
    reads p
  {
    p.val + (Net(s, p) as real) * p.step
  }

  /** A run one entry longer moves its own parameter by one more step and no other parameter. */
  lemma SteppedNext(s: seq<Entry>, i: nat, p: ParamData)
    requires i < |s|
    ensures Stepped(s[..i + 1], p) ==
      Stepped(s[..i], p) + (if s[i].target != p then 0.0 else if s[i].dir == Up then p.step else -p.step)
  {
    assert s[..i + 1][..i] == s[..i];
    var n := Net(s[..i], p);
    if s[i].target == p {
      if s[i].dir == Up {
        assert Net(s[..i + 1], p) == n + 1;
        assert ((n + 1) as real) * p.step == (n as real) * p.step + p.step;
      } else {
        assert Net(s[..i + 1], p) == n - 1;
        assert ((n - 1) as real) * p.step == (n as real) * p.step - p.step;
      }
    }
  }

  /**
   * The trigger invocations that running the actions of `s` in order produces,
   * each with the value its parameter has just reached.
   */
  ghost function Fired(s: seq<Entry>): seq<Call>
    reads Targets(s)
  {
    if s == [] then []
    else Fired(s[..|s| - 1]) + [Call(s[|s| - 1].target, Stepped(s, s[|s| - 1].target))]
  }

  /** The value of the latest call on `p` in `calls`, or `default` when there is none. */
  function Latest(calls: seq<Call>, p: ParamData, default: real): real
  {
    if calls == [] then default
    else if calls[|calls| - 1].target == p then calls[|calls| - 1].value
    else Latest(calls[..|calls| - 1], p, default)
  }

  /** The triggers fire once per entry, in list order. */
  lemma {:induction false} FiredInOrder(s: seq<Entry>)
    ensures |Fired(s)| == |s|
    ensures forall j :: 0 <= j < |s| ==> Fired(s)[j].target == s[j].target
  {
    if s != [] {
      FiredInOrder(s[..|s| - 1]);
    }
  }

  /**
   * A trigger is never left stale: the latest value a list hands to `p`'s
   * trigger is the value `p` ends with.
   */
  lemma {:induction false} TriggerSeesFinalValue(s: seq<Entry>, p: ParamData)
    ensures Latest(Fired(s), p, p.val) == Stepped(s, p)
  {
    if s != [] {
      var pre := s[..|s| - 1];
      var t := s[|s| - 1].target;
      assert Fired(s) == Fired(pre) + [Call(t, Stepped(s, t))];
      if t != p {
        assert Fired(s)[..|Fired(pre)|] == Fired(pre);
        assert Net(s, p) == Net(pre, p);
        TriggerSeesFinalValue(pre, p);
      }
    }
  }

  /** The latest call of a concatenation is the latest of the second part, falling back on the first. */
  lemma {:induction false} LatestConcat(a: seq<Call>, b: seq<Call>, p: ParamData, default: real)
    ensures Latest(a + b, p, default) == Latest(b, p, Latest(a, p, default))
  {
    if b == [] {
      assert a + b == a;
    } else {
      assert (a + b)[..|a + b| - 1] == a + b[..|b| - 1];
      LatestConcat(a, b[..|b| - 1], p, default);
    }
  }

  /** When `p` has a call in `calls`, the default does not matter. */
  lemma {:induction false} LatestDefault(calls: seq<Call>, p: ParamData, d1: real, d2: real)
    requires exists i :: 0 <= i < |calls| && calls[i].target == p
    ensures Latest(calls, p, d1) == Latest(calls, p, d2)
  {
    if calls[|calls| - 1].target != p {
      var i :| 0 <= i < |calls| && calls[i].target == p;
      assert calls[..|calls| - 1][i] == calls[i];
      LatestDefault(calls[..|calls| - 1], p, d1, d2);
    }
  }

  /** Call i is on `p`, and no later call is. */
  predicate LastCallAt(calls: seq<Call>, p: ParamData, i: int)
  {
    0 <= i < |calls| && calls[i].target == p && forall j :: i < j < |calls| ==> calls[j].target != p
  }

  /** `Latest` is the value of the last call on `p`. */
  lemma {:induction false} LatestAt(calls: seq<Call>, p: ParamData, default: real, i: nat)
    requires LastCallAt(calls, p, i)
    ensures Latest(calls, p, default) == calls[i].value
  {
    if i < |calls| - 1 {
      var init := calls[..|calls| - 1];
      assert init[i] == calls[i];
      assert forall j :: i < j < |init| ==> init[j] == calls[j];
      LatestAt(init, p, default, i);
    }
  }

  /** `LatestAt` for every position at once. */
  lemma LatestIsLast(calls: seq<Call>, p: ParamData, default: real)
    ensures forall i :: LastCallAt(calls, p, i) ==> Latest(calls, p, default) == calls[i].value
  {
    forall i | LastCallAt(calls, p, i)
      ensures Latest(calls, p, default) == calls[i].value
    {
      LatestAt(calls, p, default, i);
    }
  }

  /** A trace with no call on `p` leaves the default. */
  lemma {:induction false} LatestNone(calls: seq<Call>, p: ParamData, default: real)
    requires forall i :: 0 <= i < |calls| ==> calls[i].target != p
    ensures Latest(calls, p, default) == default
  {
    if calls != [] {
      LatestNone(calls[..|calls| - 1], p, default);
    }
  }

  /**
   * After a run is appended to any trace, the latest call on a parameter the
   * run steps carries the value the parameter ends with, and the latest call on
   * any other parameter is what it was.
   */
  lemma LatestAfterRun(calls: seq<Call>, s: seq<Entry>, p: ParamData, default: real)
    ensures p in Targets(s) ==> Latest(calls + Fired(s), p, default) == Stepped(s, p)
    ensures p !in Targets(s) ==> Latest(calls + Fired(s), p, default) == Latest(calls, p, default)
  {
    FiredInOrder(s);
    LatestConcat(calls, Fired(s), p, default);
    if p in Targets(s) {
      var j :| 0 <= j < |s| && s[j].target == p;
      assert Fired(s)[j].target == p;
      TriggerSeesFinalValue(s, p);
      LatestDefault(Fired(s), p, Latest(calls, p, default), p.val);
    } else {
      forall i | 0 <= i < |Fired(s)| ensures Fired(s)[i].target != p {
        assert s[i] in s;
      }
      LatestNone(Fired(s), p, Latest(calls, p, default));
    }
  }

  /**
   * A parameter none of whose ids is in a well-formed list is not stepped by
   * it: this is why dispatching a former key of a destroyed parameter is a no-op.
   */
  lemma UnboundNotTarget(s: seq<Entry>, p: ParamData)
    requires forall e :: e in s ==> e.id == e.target.IdOf(e.dir)
    requires Count(s, p.upId) == 0 && Count(s, p.downId) == 0
    ensures p !in Targets(s)
    ensures Net(s, p) == 0
  {
    CountZero(s, p.upId);
    CountZero(s, p.downId);
    forall i | 0 <= i < |s| ensures s[i].target != p {
      assert s[i] in s;
    }
    NetOutside(s, p);
  }

  lemma {:induction false} NetOutside(s: seq<Entry>, p: ParamData)
    requires p !in Targets(s)
    ensures Net(s, p) == 0
  {
    if s != [] {
      assert s[|s| - 1].target in Targets(s);
      assert Targets(s[..|s| - 1]) <= Targets(s) by {
        forall q | q in Targets(s[..|s| - 1]) ensures q in Targets(s) {
          var i :| 0 <= i < |s| - 1 && s[..|s| - 1][i].target == q;
          assert s[i].target == q;
        }
      }
      NetOutside(s[..|s| - 1], p);
    }
  }
  // ---------------------------------------------------------------------------
  // Invariants of the whole table
  // ---------------------------------------------------------------------------

  /** Every parameter holds two consecutive ids below the counter, and no id is shared. */
  predicate IdsIssued(g: Globals, params: set<ParamData>, funcCnt: int)
  {
    0 <= funcCnt &&
    (forall p :: p in params ==> p.g == g && 0 <= p.upId && p.downId == p.upId + 1 && p.downId < funcCnt) &&
    (forall p, q :: p in params && q in params && p != q ==>
      p.upId != q.upId && p.upId != q.downId && p.downId != q.downId)
  }

  /** Every entry steps a known parameter and carries the id of that parameter's direction. */
  predicate WellFormed(t: Table, params: set<ParamData>)
  {
    forall k: Key, e :: e in t[k] ==> e.target in params && e.id == e.target.IdOf(e.dir)
  }

  /** Both directions of every parameter are placed at their recorded keys. */
  ghost predicate AllPlaced(t: Table, params: set<ParamData>)
    reads params
  {
    forall p :: p in params ==> Placed(t, p.upId, p.upKey) && Placed(t, p.downId, p.downKey)
  }

  /** A fresh pair of ids at the counter is absent from a well-formed table. */
  lemma FreshIdsAbsent(g: Globals, t: Table, params: set<ParamData>, funcCnt: int)
    requires IdsIssued(g, params, funcCnt) && WellFormed(t, params)
    ensures Cleared(t, funcCnt) && Cleared(t, funcCnt + 1)
  {
    forall k: Key ensures Count(t[k], funcCnt) == 0 && Count(t[k], funcCnt + 1) == 0 {
      CountZero(t[k], funcCnt);
      CountZero(t[k], funcCnt + 1);
    }
  }

  /** Registering a new parameter with the next two ids and no keys keeps the table's invariants. */
  lemma AddParamValid(g: Globals, t: Table, params: set<ParamData>, funcCnt: int, p: ParamData)
    requires IdsIssued(g, params, funcCnt) && WellFormed(t, params) && AllPlaced(t, params)
    requires p !in params && p.g == g && p.upId == funcCnt && p.downId == funcCnt + 1
    requires p.upKey == Unbound && p.downKey == Unbound
    ensures IdsIssued(g, params + {p}, funcCnt + 2) && WellFormed(t, params + {p}) && AllPlaced(t, params + {p})
  {
    FreshIdsAbsent(g, t, params, funcCnt);
  }

  /** Unbinding keeps the table well formed and every placement. */
  lemma DetachValid(t: Table, key: Key, id: int, params: set<ParamData>)
    requires WellFormed(t, params) && AllPlaced(t, params)
    ensures WellFormed(Detach(t, key, id), params) && AllPlaced(Detach(t, key, id), params)
  {
    DetachFormed(t, key, id, params);
    DetachPlaced(t, key, id, params);
  }

  /** Unbinding only removes entries, so it keeps the table well formed. */
  lemma DetachFormed(t: Table, key: Key, id: int, params: set<ParamData>)
    requires WellFormed(t, params)
    ensures WellFormed(Detach(t, key, id), params)
  {
    DetachKeeps(t, key, id, id, key);
  }

  /** Unbinding keeps every placement. */
  lemma DetachPlaced(t: Table, key: Key, id: int, params: set<ParamData>)
    requires AllPlaced(t, params)
    ensures AllPlaced(Detach(t, key, id), params)
  {
    forall p | p in params
      ensures Placed(Detach(t, key, id), p.upId, p.upKey) && Placed(Detach(t, key, id), p.downId, p.downKey)
    {
      DetachKeeps(t, key, id, p.upId, p.upKey);
      DetachKeeps(t, key, id, p.downId, p.downKey);
    }
  }

  /**
   * Appending the entry of a direction that is cleared everywhere and has just
   * recorded `key` keeps the table well formed and every placement.
   */
  lemma AttachValid(g: Globals, t: Table, key: Key, e: Entry, params: set<ParamData>)
    requires IdsIssued(g, params, g.funcCnt) && WellFormed(t, params)
    requires e.target in params && e.id == e.target.IdOf(e.dir) && e.target.KeyOf(e.dir) == key
    requires Cleared(t, e.id)
    requires forall p :: p in params ==>
      (p.upId == e.id || Placed(t, p.upId, p.upKey)) && (p.downId == e.id || Placed(t, p.downId, p.downKey))
    ensures WellFormed(Attach(t, key, e), params) && AllPlaced(Attach(t, key, e), params)
  {
    AttachFormed(t, key, e, params);
    AttachPlaced(g, t, key, e, params);
  }

  /** Appending an entry of a known parameter with its direction's id keeps the table well formed. */
  lemma AttachFormed(t: Table, key: Key, e: Entry, params: set<ParamData>)
    requires WellFormed(t, params) && e.target in params && e.id == e.target.IdOf(e.dir)
    ensures WellFormed(Attach(t, key, e), params)
  {
    var r := Attach(t, key, e);
    forall k: Key, x | x in r[k] ensures x.target in params && x.id == x.target.IdOf(x.dir) {
      if k == key && x !in t[k] {
        assert r[k] == t[k] + [e];
      }
    }
  }

  /** Appending the entry of a cleared direction at the key it records keeps every placement. */
  lemma AttachPlaced(g: Globals, t: Table, key: Key, e: Entry, params: set<ParamData>)
    requires IdsIssued(g, params, g.funcCnt)
    requires e.target in params && e.id == e.target.IdOf(e.dir) && e.target.KeyOf(e.dir) == key
    requires Cleared(t, e.id)
    requires forall p :: p in params ==>
      (p.upId == e.id || Placed(t, p.upId, p.upKey)) && (p.downId == e.id || Placed(t, p.downId, p.downKey))
    ensures AllPlaced(Attach(t, key, e), params)
  {
    var r := Attach(t, key, e);
    forall p | p in params ensures Placed(r, p.upId, p.upKey) && Placed(r, p.downId, p.downKey) {
      AttachCount(t, key, e, p.upId);
      AttachCount(t, key, e, p.downId);
    }
  }

  // ---------------------------------------------------------------------------
  // State
  // ---------------------------------------------------------------------------

  /** The process-wide state the bindings share: `keyMap`, `func_cnt`, and the triggers' trace. */
  class Globals {
    /** `keyMap[256]`. */
    const keyMap: array<seq<Entry>>
    /** `ParamData::func_cnt`: the next unused action id. */
    var funcCnt: int
    /** Every trigger invocation so far, in order. */
    var calls: seq<Call>
    /** Every parameter constructed against this table. */
    ghost var params: set<ParamData>

    ghost predicate Valid()
      reads this, keyMap, params
    {
      keyMap.Length == 256 &&
      IdsIssued(this, params, funcCnt) &&
      WellFormed(keyMap[..], params) &&
      AllPlaced(keyMap[..], params)
    }

    /** The table at program start: every key's list empty, no id handed out. */
    constructor ()
      ensures Valid() && fresh(keyMap)
      ensures keyMap[..] == seq(256, _ => []) && funcCnt == 0 && calls == [] && params == {}
    {
      keyMap := new seq<Entry>[256](_ => []);
      funcCnt := 0;
      calls := [];
      params := {};
    }
  }

  /** A stepped value with two ids and the keys its two directions are bound to. */
  class ParamData {
    const g: Globals
    var val: real
    const step: real
    var upKey: Key
    var downKey: Key
    const upId: int
    const downId: int

    function KeyOf(d: Direction): Key
      reads this
    {
      if d == Up then upKey else downKey
    }

    function IdOf(d: Direction): int
    {
      if d == Up then upId else downId
    }

    /** Takes two fresh consecutive ids from `func_cnt`; neither direction is bound. */
    constructor (g: Globals, val: real, step: real)
      requires g.Valid()
      modifies g
      ensures this.g == g && this.val == val && this.step == step
      ensures upKey == Unbound && downKey == Unbound
      ensures upId == old(g.funcCnt) && downId == upId + 1
      ensures g.funcCnt == old(g.funcCnt) + 2 && g.calls == old(g.calls)
      ensures g.params == old(g.params) + {this}
      ensures g.Valid()
    {
      this.g := g;
      this.val := val;
      this.step := step;
      upKey, downKey := Unbound, Unbound;
      upId, downId := g.funcCnt, g.funcCnt + 1;
      new;
      AddParamValid(g, g.keyMap[..], g.params, g.funcCnt, this);
      g.funcCnt := g.funcCnt + 2;
      g.params := g.params + {this};
    }

    /**
     * `unbindUp` / `unbindDown`: when the recorded key is not 0, erase the first
     * entry with this direction's id from that key's list.  The recorded key
     * itself is kept.
     */
    method Unbind(d: Direction)
      requires g.Valid() && this in g.params
      modifies g.keyMap
      ensures g.keyMap[..] == Detach(old(g.keyMap[..]), KeyOf(d), IdOf(d))
      ensures Cleared(g.keyMap[..], IdOf(d))
      ensures g.Valid()
    {
      ghost var t: Table := g.keyMap[..];
      var key := KeyOf(d);
      var id := IdOf(d);
      assert Placed(t, id, key);
      if key != Unbound {
        var s := g.keyMap[key];
        var i := 0;
        while i < |s|
          invariant 0 <= i <= |s|
          invariant forall j :: 0 <= j < i ==> s[j].id != id
          invariant g.keyMap[..] == t
        {
          if s[i].id == id {
            assert FirstIndex(s, id) == i;
            g.keyMap[key] := s[..i] + s[i + 1..];
            break;
          }
          i := i + 1;
        }
        assert i == |s| ==> FirstIndex(s, id) == |s|;
      }
      assert g.keyMap[..] == Detach(t, key, id);
      DetachClears(t, key, id);
      DetachValid(t, key, id, g.params);
    }

    /**
     * `bindUp(key)` / `bindDown(key)`: unbind the direction, record `key`, and
     * append the direction's action with its id to the end of `key`'s list.
     */
    method Bind(d: Direction, key: Key)
      requires g.Valid() && this in g.params
      modifies this`upKey, this`downKey, g.keyMap
      ensures KeyOf(d) == key
      ensures d == Up ==> downKey == old(downKey)
      ensures d == Down ==> upKey == old(upKey)
      ensures g.keyMap[..] == Rebind(old(g.keyMap[..]), old(KeyOf(d)), key, Entry(this, d, IdOf(d)))
      ensures g.Valid()
    {
      var e := Entry(this, d, IdOf(d));
      Unbind(d);
      ghost var t: Table := g.keyMap[..];
      label Unbound:
      if d == Up { upKey := key; } else { downKey := key; }
      forall p | p in g.params
        ensures (p.upId == e.id || Placed(t, p.upId, p.upKey)) && (p.downId == e.id || Placed(t, p.downId, p.downKey))
      {
        assert p != this ==> p.upKey == old@Unbound(p.upKey) && p.downKey == old@Unbound(p.downKey);
      }
      g.keyMap[key] := g.keyMap[key] + [e];
      assert g.keyMap[..] == Attach(t, key, e);
      AttachValid(g, t, key, e, g.params);
    }
  }

  /**
   * `keyboard(key, x, y)`: run every action of `keyMap[key]` in list order.  An
   * up action adds `step` to its parameter's value, a down action subtracts it,
   * and either one hands the new value to the parameter's trigger.
   */
  method Keyboard(g: Globals, key: Key)
    requires g.Valid()
    modifies g`calls, Targets(g.keyMap[key])`val
    ensures forall p :: p in Targets(g.keyMap[key]) ==> p.val == old(Stepped(g.keyMap[key], p))
    ensures g.calls == old(g.calls) + old(Fired(g.keyMap[key]))
    ensures g.Valid()
  {
    Run(g, g.keyMap[key]);
  }

  /** The loop of `keyboard` over one list. */
  method Run(g: Globals, list: seq<Entry>)
    modifies g`calls, Targets(list)`val
    ensures forall p :: p in Targets(list) ==> p.val == old(Stepped(list, p))
    ensures g.calls == old(g.calls) + old(Fired(list))
  {
    for i := 0 to |list|
      invariant forall p :: p in Targets(list) ==> p.val == old(Stepped(list[..i], p))
      invariant g.calls == old(g.calls) + old(Fired(list[..i]))
    {
      var e := list[i];
      assert e.target in Targets(list);
      assert list[..i + 1][..i] == list[..i];
      forall p | p in Targets(list) ensures old(Stepped(list[..i + 1], p)) ==
        old(Stepped(list[..i], p)) + (if e.target != p then 0.0 else if e.dir == Up then p.step else -p.step)
      {
        SteppedNext(list, i, p);
      }
      Fire(g, e);
    }
    assert list[..|list|] == list;
  }

  /** One action of `keyboard`: step the target in the entry's direction and run its trigger. */
  method Fire(g: Globals, e: Entry)
    modifies g`calls, e.target`val
    ensures e.target.val == old(e.target.val) + (if e.dir == Up then e.target.step else -e.target.step)
    ensures g.calls == old(g.calls) + [Call(e.target, e.target.val)]
  {
    if e.dir == Up {
      e.target.val := e.target.val + e.target.step;
    } else {
      e.target.val := e.target.val - e.target.step;
    }
    g.calls := g.calls + [Call(e.target, e.target.val)];
  }
}
