/** Keys, versioned leaf records and sorted key sequences. */
module Records {
  import opened Options

  type Key = nat
  type Val = nat

  const B := 8
  const MAX_KEYS := 2 * B - 1
  const MAX_SLOTS := 8

  /** A delta of a fat leaf. */
  datatype Slot = Slot(version: nat, key: Key, value: Val)

  function KeySet(s: seq<Key>): set<Key> {
    set k | k in s
  }

  ghost predicate Sorted(s: seq<Key>) {
    forall i, j :: 0 <= i < j < |s| ==> s[i] < s[j]
  }

  ghost predicate Within(s: seq<Key>, lo: nat, hi: nat) {
    forall i :: 0 <= i < |s| ==> lo <= s[i] < hi
  }

  /** Slots are reserved in ticket order on a leaf older than all of them. */
  ghost predicate SlotsOf(slots: seq<Slot>, ver: nat, lo: nat, hi: nat) {
    && |slots| <= MAX_SLOTS
    && (forall i :: 0 <= i < |slots| ==> ver < slots[i].version && lo <= slots[i].key < hi)
    && (forall i, j :: 0 <= i < j < |slots| ==> slots[i].version < slots[j].version)
  }

  /** The map a leaf's base arrays stand for. */
  function Base(keys: seq<Key>, vals: seq<Val>): map<Key, Val>
    requires |keys| == |vals|
  {
    if keys == [] then map[] else
    Base(keys[..|keys|-1], vals[..|keys|-1])[keys[|keys|-1] := vals[|keys|-1]]
  }

  /** A map with the slots up to a version written over it, in order. */
  function Overlay(m: map<Key, Val>, slots: seq<Slot>, version: nat): map<Key, Val> {
    if slots == [] then m else
    var rest := Overlay(m, slots[..|slots|-1], version);
    var last := slots[|slots|-1];
    if last.version <= version then rest[last.key := last.value] else rest
  }

  /** What a snapshot of a version sees in a leaf. */
  function LeafView(keys: seq<Key>, vals: seq<Val>, slots: seq<Slot>, version: nat): map<Key, Val>
    requires |keys| == |vals|
  {
    Overlay(Base(keys, vals), slots, version)
  }

  function Lookup(m: map<Key, Val>, k: Key): Option<Val> {
    if k in m then Some(m[k]) else None
  }

  lemma {:induction false} BaseKeys(keys: seq<Key>, vals: seq<Val>)
    requires |keys| == |vals|
    ensures Base(keys, vals).Keys == KeySet(keys)
    ensures Sorted(keys) ==> forall i :: 0 <= i < |keys| ==> Base(keys, vals)[keys[i]] == vals[i]
  {
    if keys != [] {
      var n := |keys| - 1;
      BaseKeys(keys[..n], vals[..n]);
      assert keys == keys[..n] + [keys[n]];
      if Sorted(keys) {
        forall i | 0 <= i < |keys|
          ensures Base(keys, vals)[keys[i]] == vals[i]
        {
          if i < n {
            assert keys[..n][i] == keys[i] && vals[..n][i] == vals[i];
          }
        }
      }
    }
  }

  function SlotKeys(slots: seq<Slot>, version: nat): set<Key> {
    set i | 0 <= i < |slots| && slots[i].version <= version :: slots[i].key
  }

  lemma {:induction false} OverlayKeys(m: map<Key, Val>, slots: seq<Slot>, version: nat)
    ensures Overlay(m, slots, version).Keys == m.Keys + SlotKeys(slots, version)
  {
    if slots != [] {
      var n := |slots| - 1;
      OverlayKeys(m, slots[..n], version);
      assert forall i :: 0 <= i < n ==> slots[..n][i] == slots[i];
      forall k
        ensures k in Overlay(m, slots, version).Keys <==> k in m.Keys + SlotKeys(slots, version)
      {
        if k in SlotKeys(slots, version) {
          var i :| 0 <= i < |slots| && slots[i].version <= version && slots[i].key == k;
          if i < n { assert slots[..n][i].key == k; }
        }
        if k in SlotKeys(slots[..n], version) {
          var i :| 0 <= i < n && slots[..n][i].version <= version && slots[..n][i].key == k;
          assert slots[i].key == k;
        }
      }
    }
  }

  /** Later slots do not show in an earlier snapshot. */
  lemma {:induction false} OverlayPrefix(m: map<Key, Val>, slots: seq<Slot>, more: seq<Slot>, version: nat)
    requires forall i :: 0 <= i < |more| ==> version < more[i].version
    ensures Overlay(m, slots + more, version) == Overlay(m, slots, version)
  {
    if more == [] {
      assert slots + more == slots;
    } else {
      var n := |more| - 1;
      assert (slots + more)[..|slots + more| - 1] == slots + more[..n];
      OverlayPrefix(m, slots, more[..n], version);
    }
  }

  lemma OverlayAppend(m: map<Key, Val>, slots: seq<Slot>, s: Slot, version: nat)
    requires s.version <= version
    ensures Overlay(m, slots + [s], version) == Overlay(m, slots, version)[s.key := s.value]
  {
    assert (slots + [s])[..|slots|] == slots;
  }

  /** A snapshot at or past every slot sees all of them. */
  lemma {:induction false} OverlayAll(m: map<Key, Val>, slots: seq<Slot>, v: nat, w: nat)
    requires forall i :: 0 <= i < |slots| ==> slots[i].version <= v && slots[i].version <= w
    ensures Overlay(m, slots, v) == Overlay(m, slots, w)
  {
    if slots != [] {
      OverlayAll(m, slots[..|slots|-1], v, w);
    }
  }

  // ---- positions in sorted keys -------------------------------------------

  /** findch: the first position whose key is above k. */
  function FindCh(keys: seq<Key>, k: Key): (pos: nat)
    ensures pos <= |keys|
    ensures forall i :: 0 <= i < pos ==> keys[i] <= k
    ensures pos < |keys| ==> k < keys[pos]
  {
    FindFrom(keys, k, 0)
  }

  function FindFrom(keys: seq<Key>, k: Key, from: nat): (pos: nat)
    requires from <= |keys| && forall i :: 0 <= i < from ==> keys[i] <= k
    ensures from <= pos <= |keys|
    ensures forall i :: 0 <= i < pos ==> keys[i] <= k
    ensures pos < |keys| ==> k < keys[pos]
    decreases |keys| - from
  {
    if from < |keys| && keys[from] <= k then FindFrom(keys, k, from + 1) else from
  }

  function LoAt(keys: seq<Key>, lo: nat, i: nat): nat
    requires i <= |keys|
  {
    if i == 0 then lo else keys[i-1]
  }

  function HiAt(keys: seq<Key>, hi: nat, i: nat): nat
    requires i <= |keys|
  {
    if i == |keys| then hi else keys[i]
  }

  lemma FindChIs(keys: seq<Key>, k: Key, i: nat, lo: nat, hi: nat)
    requires Sorted(keys) && i <= |keys| && LoAt(keys, lo, i) <= k < HiAt(keys, hi, i)
    ensures FindCh(keys, k) == i
  {
    var p := FindCh(keys, k);
    assert forall j :: 0 <= j < i ==> keys[j] <= k;
  }

  // ---- a leaf is determined by its map ------------------------------------

  function MinOf(s: set<Key>): (m: Key)
    requires s != {}
    ensures m in s && forall x :: x in s ==> m <= x
  {
    MinExists(s);
    var m :| m in s && forall x :: x in s ==> m <= x;
    m
  }

  lemma MinExists(s: set<Key>)
    requires s != {}
    ensures exists m :: m in s && forall x :: x in s ==> m <= x
  {
    var m :| m in s;
    if s == {m} {
    } else {
      var r := s - {m};
      MinExists(r);
      var n :| n in r && forall x :: x in r ==> n <= x;
      var w := if m < n then m else n;
      assert forall x :: x in s ==> x == m || x in r;
      assert w in s && forall x :: x in s ==> w <= x;
    }
  }

  /** The elements of a set in increasing order. */
  function Ascending(s: set<Key>): (keys: seq<Key>)
    ensures Sorted(keys) && |keys| == |s| && KeySet(keys) == s
    decreases |s|
  {
    if s == {} then [] else
    var m := MinOf(s);
    var rest := Ascending(s - {m});
    assert forall k :: k in rest ==> k in s - {m};
    assert forall k :: k in s - {m} ==> k in rest;
    [m] + rest
  }

  function ValuesOf(m: map<Key, Val>, keys: seq<Key>): (vals: seq<Val>)
    requires forall i :: 0 <= i < |keys| ==> keys[i] in m
    ensures |vals| == |keys|
    ensures forall i :: 0 <= i < |keys| ==> vals[i] == m[keys[i]]
  {
    seq(|keys|, i requires 0 <= i < |keys| => m[keys[i]])
  }

  lemma {:induction false} SortedUnique(a: seq<Key>, b: seq<Key>)
    requires Sorted(a) && Sorted(b) && KeySet(a) == KeySet(b)
    ensures a == b
  {
    var sa, sb := KeySet(a), KeySet(b);
    if a == [] {
      EmptyKeySet(b);
    } else {
      assert a[0] in sa;
      assert a[0] in b;
      assert b[0] in sb;
      assert b[0] in a;
      assert a[0] == b[0];
      DropFirst(a);
      DropFirst(b);
      SortedUnique(a[1..], b[1..]);
      assert a == [a[0]] + a[1..] && b == [b[0]] + b[1..];
    }
  }

  lemma EmptyKeySet(a: seq<Key>)
    ensures KeySet(a) == {} ==> a == []
  {
    if a != [] {
      assert a[0] in KeySet(a);
    }
  }

  lemma DropFirst(a: seq<Key>)
    requires Sorted(a) && a != []
    ensures KeySet(a[1..]) == KeySet(a) - {a[0]}
  {
    assert a == [a[0]] + a[1..];
    assert forall i :: 0 <= i < |a[1..]| ==> a[1..][i] == a[i+1];
  }
}

/** B+Trees as values whose nodes carry the identity of the physical node, so
    that sharing and retirement can be stated. */
module BTree {
  import opened Options
  import opened Records
  import opened Nodes

  /** The separators and children of an internal node, of any length. */
  datatype Seg = Seg(keys: seq<Key>, chs: seq<Tree>)

  datatype Tree =
    | Leaf(id: Id, ver: nat, keys: seq<Key>, vals: seq<Val>)
    | Node(id: Id, ver: nat, kids: Seg)

  /** Sidecars of fat leaves, by physical leaf. */
  type Side = map<Id, seq<Slot>>

  function SlotsAt(side: Side, id: Id): seq<Slot> {
    if id in side then side[id] else []
  }

  // ---- well-formedness ----------------------------------------------------

  ghost predicate LeafOk(keys: seq<Key>, vals: seq<Val>, lo: nat, hi: nat) {
    |keys| == |vals| <= MAX_KEYS && Sorted(keys) && Within(keys, lo, hi)
  }

  /** Keys in [lo, hi), separators strictly inside, all leaves h levels down. */
  ghost predicate Wf(t: Tree, side: Side, lo: nat, hi: nat, h: nat)
    decreases t
  {
    match t
    case Leaf(id, ver, keys, vals) => ver == id.Version() && h == 0 && lo < hi && LeafOk(keys, vals, lo, hi) && SlotsOf(SlotsAt(side, id), ver, lo, hi)
    case Node(id, ver, kids) => ver == id.Version() && h > 0 && 1 <= |kids.keys| <= MAX_KEYS && Fits(kids, side, lo, hi, h - 1)
  }

  /** The same for a run of siblings, with no limit on their number. */
  ghost predicate Fits(s: Seg, side: Side, lo: nat, hi: nat, h: nat)
    decreases s
  {
    && |s.chs| == |s.keys| + 1
    && Sorted(s.keys)
    && (forall i :: 0 <= i < |s.keys| ==> lo < s.keys[i] < hi)
    && (forall i :: 0 <= i < |s.chs| ==> Wf(s.chs[i], side, LoAt(s.keys, lo, i), HiAt(s.keys, hi, i), h))
  }

  // ---- point lookup -------------------------------------------------------

  function Get(t: Tree, side: Side, version: nat, k: Key): Option<Val>
    decreases t
  {
    match t
    case Leaf(id, _, keys, vals) =>
      if |keys| == |vals| then Lookup(LeafView(keys, vals, SlotsAt(side, id), version), k) else None
    case Node(_, _, kids) => SegGet(kids, side, version, k)
  }

  function SegGet(s: Seg, side: Side, version: nat, k: Key): Option<Val>
    decreases s
  {
    var i := FindCh(s.keys, k);
    if i < |s.chs| then Get(s.chs[i], side, version, k) else None
  }

  /** The leaf a key is routed to. */
  function Route(t: Tree, k: Key): Tree
    decreases t
  {
    match t
    case Leaf(_, _, _, _) => t
    case Node(_, _, kids) =>
      var i := FindCh(kids.keys, k);
      if i < |kids.chs| then Route(kids.chs[i], k) else t
  }

  // ---- runs of siblings ---------------------------------------------------

  function One(t: Tree): Seg { Seg([], [t]) }

  function Two(l: Tree, sep: Key, r: Tree): Seg { Seg([sep], [l, r]) }

  function Join(a: Seg, sep: Key, b: Seg): Seg {
    Seg(a.keys + [sep] + b.keys, a.chs + b.chs)
  }

  lemma TwoFits(l: Tree, sep: Key, r: Tree, side: Side, lo: nat, hi: nat, h: nat)
    requires lo < sep < hi && Wf(l, side, lo, sep, h) && Wf(r, side, sep, hi, h)
    ensures Fits(Two(l, sep, r), side, lo, hi, h)
  {
  }

  lemma OneFits(t: Tree, side: Side, lo: nat, hi: nat, h: nat)
    requires Wf(t, side, lo, hi, h)
    ensures Fits(One(t), side, lo, hi, h)
  {
  }

  lemma TwoGet(l: Tree, sep: Key, r: Tree, side: Side, version: nat, k: Key)
    ensures SegGet(Two(l, sep, r), side, version, k) == Get(if k < sep then l else r, side, version, k)
    ensures SegGet(One(l), side, version, k) == Get(l, side, version, k)
  {
    var i := FindCh([sep], k);
    assert [sep][0] == sep;
  }

  /** The siblings before and after separator i. */
  function Before(s: Seg, i: nat): Seg
    requires i < |s.keys| && |s.chs| == |s.keys| + 1
  {
    Seg(s.keys[..i], s.chs[..i+1])
  }

  function After(s: Seg, i: nat): Seg
    requires i < |s.keys| && |s.chs| == |s.keys| + 1
  {
    Seg(s.keys[i+1..], s.chs[i+1..])
  }

  lemma JoinFits(a: Seg, sep: Key, b: Seg, side: Side, lo: nat, hi: nat, h: nat)
    requires lo < sep < hi && Fits(a, side, lo, sep, h) && Fits(b, side, sep, hi, h)
    ensures Fits(Join(a, sep, b), side, lo, hi, h)
  {
    var s := Join(a, sep, b);
    var n := |a.keys|;
    forall i | 0 <= i < |s.chs|
      ensures Wf(s.chs[i], side, LoAt(s.keys, lo, i), HiAt(s.keys, hi, i), h)
    {
      if i <= n {
        assert s.chs[i] == a.chs[i];
        assert LoAt(s.keys, lo, i) == LoAt(a.keys, lo, i) && HiAt(s.keys, hi, i) == HiAt(a.keys, sep, i);
      } else {
        var j := i - n - 1;
        assert s.chs[i] == b.chs[j];
        assert LoAt(s.keys, lo, i) == LoAt(b.keys, sep, j) && HiAt(s.keys, hi, i) == HiAt(b.keys, hi, j);
      }
    }
  }

  lemma BeforeFits(s: Seg, i: nat, side: Side, lo: nat, hi: nat, h: nat)
    requires Fits(s, side, lo, hi, h) && i < |s.keys|
    ensures Fits(Before(s, i), side, lo, s.keys[i], h)
  {
    var a := Before(s, i);
    forall j | 0 <= j < |a.chs|
      ensures Wf(a.chs[j], side, LoAt(a.keys, lo, j), HiAt(a.keys, s.keys[i], j), h)
    {
      assert a.chs[j] == s.chs[j];
      assert LoAt(a.keys, lo, j) == LoAt(s.keys, lo, j) && HiAt(a.keys, s.keys[i], j) == HiAt(s.keys, hi, j);
    }
  }

  lemma AfterFits(s: Seg, i: nat, side: Side, lo: nat, hi: nat, h: nat)
    requires Fits(s, side, lo, hi, h) && i < |s.keys|
    ensures Fits(After(s, i), side, s.keys[i], hi, h)
  {
    var b, d := After(s, i), i + 1;
    forall j | 0 <= j < |b.chs|
      ensures Wf(b.chs[j], side, LoAt(b.keys, s.keys[i], j), HiAt(b.keys, hi, j), h)
    {
      assert b.chs[j] == s.chs[d + j];
      assert LoAt(b.keys, s.keys[i], j) == LoAt(s.keys, lo, d + j) && HiAt(b.keys, hi, j) == HiAt(s.keys, hi, d + j);
    }
  }

  lemma SplitFits(s: Seg, i: nat, side: Side, lo: nat, hi: nat, h: nat)
    requires Fits(s, side, lo, hi, h) && i < |s.keys|
    ensures Fits(Before(s, i), side, lo, s.keys[i], h) && Fits(After(s, i), side, s.keys[i], hi, h)
    ensures s == Join(Before(s, i), s.keys[i], After(s, i))
  {
    hide Wf;
    BeforeFits(s, i, side, lo, hi, h);
    AfterFits(s, i, side, lo, hi, h);
    assert s.keys == s.keys[..i] + [s.keys[i]] + s.keys[i+1..];
    assert s.chs == s.chs[..i+1] + s.chs[i+1..];
  }

  lemma JoinGet(a: Seg, sep: Key, b: Seg, side: Side, version: nat, k: Key)
    requires |a.chs| == |a.keys| + 1 && |b.chs| == |b.keys| + 1 && Sorted((a.keys + [sep] + b.keys))
    ensures SegGet(Join(a, sep, b), side, version, k) == if k < sep then SegGet(a, side, version, k) else SegGet(b, side, version, k)
  {
    var s := Join(a, sep, b);
    var n := |a.keys|;
    assert s.keys[n] == sep;
    if k < sep {
      var i := FindCh(a.keys, k);
      JoinPosition(a.keys, sep, b.keys, k, i);
      assert s.chs[i] == a.chs[i];
    } else {
      var i := FindCh(b.keys, k);
      JoinPosition(a.keys, sep, b.keys, k, n + 1 + i);
      assert s.chs[n+1+i] == b.chs[i];
    }
  }

  lemma JoinPosition(a: seq<Key>, sep: Key, b: seq<Key>, k: Key, i: nat)
    requires Sorted(a + [sep] + b)
    requires i == if k < sep then FindCh(a, k) else |a| + 1 + FindCh(b, k)
    ensures FindCh(a + [sep] + b, k) == i
  {
    var s := a + [sep] + b;
    assert s[|a|] == sep;
    assert forall j :: 0 <= j < |a| ==> s[j] == a[j];
    assert forall j :: |a| < j < |s| ==> s[j] == b[j - |a| - 1];
    assert i > 0 ==> s[i-1] <= k;
    assert i < |s| ==> k < s[i];
    FindChIs(s, k, i, 0, k + 1);
  }

  // ---- identities ---------------------------------------------------------

  function Ids(t: Tree): set<Id>
    decreases t
  {
    match t
    case Leaf(id, _, _, _) => {id}
    case Node(id, _, kids) => {id} + SegIds(kids)
  }

  function SegIds(s: Seg): set<Id>
    decreases s
  {
    set i, x | 0 <= i < |s.chs| && x in Ids(s.chs[i]) :: x
  }

  /** No physical node occurs twice. */
  ghost predicate Distinct(t: Tree)
    decreases t
  {
    t.Node? ==> t.id !in SegIds(t.kids) && SegDistinct(t.kids)
  }

  ghost predicate SegDistinct(s: Seg)
    decreases s
  {
    && (forall i :: 0 <= i < |s.chs| ==> Distinct(s.chs[i]))
    && (forall i, j :: 0 <= i < j < |s.chs| ==> Ids(s.chs[i]) !! Ids(s.chs[j]))
  }

  lemma JoinIds(a: Seg, sep: Key, b: Seg)
    ensures SegIds(Join(a, sep, b)) == SegIds(a) + SegIds(b)
  {
    var s := Join(a, sep, b);
    var n := |a.chs|;
    assert forall i :: 0 <= i < n ==> s.chs[i] == a.chs[i];
    assert forall i :: n <= i < |s.chs| ==> s.chs[i] == b.chs[i - n];
    forall x
      ensures x in SegIds(s) <==> x in SegIds(a) + SegIds(b)
    {
      if x in SegIds(a) {
        var i :| 0 <= i < n && x in Ids(a.chs[i]);
        assert x in Ids(s.chs[i]);
      }
      if x in SegIds(b) {
        var i :| 0 <= i < |b.chs| && x in Ids(b.chs[i]);
        assert x in Ids(s.chs[n + i]);
      }
    }
  }

  lemma JoinDistinct(a: Seg, sep: Key, b: Seg)
    requires SegDistinct(a) && SegDistinct(b) && SegIds(a) !! SegIds(b)
    ensures SegDistinct(Join(a, sep, b))
  {
    var s := Join(a, sep, b);
    var n := |a.chs|;
    assert forall i :: n <= i < |s.chs| ==> s.chs[i] == b.chs[i - n];
    forall i, j | 0 <= i < j < |s.chs|
      ensures Ids(s.chs[i]) !! Ids(s.chs[j])
    {
      if i < n <= j {
        ChildIds(a, i);
        ChildIds(b, j - n);
      }
    }
  }

  lemma ChildIds(s: Seg, i: nat)
    requires i < |s.chs|
    ensures Ids(s.chs[i]) <= SegIds(s)
  {
  }

  lemma SplitDistinct(a: Seg, sep: Key, b: Seg)
    requires SegDistinct(Join(a, sep, b))
    ensures SegDistinct(a) && SegDistinct(b) && SegIds(a) !! SegIds(b)
  {
    var s := Join(a, sep, b);
    var n := |a.chs|;
    assert forall i :: 0 <= i < n ==> s.chs[i] == a.chs[i];
    forall i | 0 <= i < |b.chs|
      ensures Distinct(b.chs[i])
    {
      assert s.chs[n + i] == b.chs[i];
    }
    forall i, j | 0 <= i < j < |b.chs|
      ensures Ids(b.chs[i]) !! Ids(b.chs[j])
    {
      assert s.chs[n + i] == b.chs[i] && s.chs[n + j] == b.chs[j];
    }
    forall i, j | 0 <= i < n && 0 <= j < |b.chs|
      ensures Ids(a.chs[i]) !! Ids(b.chs[j])
    {
      assert s.chs[i] == a.chs[i] && s.chs[n + j] == b.chs[j];
    }
  }
}
