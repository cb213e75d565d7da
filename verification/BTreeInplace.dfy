/** Updating a B+Tree in place, and path copying as its persistent form. */
module BTreeInplace {
  import opened Options
  import opened Records
  import opened Nodes
  import opened BTree
  import opened BTreeCow

  /** A tree without identities and versions. */
  datatype Shape = ShapeLeaf(keys: seq<Key>, vals: seq<Val>) | ShapeNode(kids: Kids)
  datatype Kids = Kids(keys: seq<Key>, chs: seq<Shape>)

  function ShapeOf(t: Tree): Shape
    decreases t, 0
  {
    match t
    case Leaf(_, _, keys, vals) => ShapeLeaf(keys, vals)
    case Node(_, _, kids) => ShapeNode(KidsOf(kids))
  }

  function KidsOf(s: Seg): Kids
    decreases s, 1
  {
    Kids(s.keys, ShapesOf(s.chs))
  }

  function ShapesOf(ts: seq<Tree>): (r: seq<Shape>)
    ensures |r| == |ts|
    decreases ts, 0
  {
    seq(|ts|, i requires 0 <= i < |ts| => ShapeOf(ts[i]))
  }

  // ---- the in-place update --------------------------------------------------

  /** findval: the first position whose key is not below k. */
  function FindVal(keys: seq<Key>, k: Key, from: nat): (pos: nat)
    requires from <= |keys| && forall i :: 0 <= i < from ==> keys[i] < k
    ensures from <= pos <= |keys|
    ensures forall i :: 0 <= i < pos ==> keys[i] < k
    ensures pos < |keys| ==> k <= keys[pos]
    decreases |keys| - from
  {
    if from < |keys| && keys[from] < k then FindVal(keys, k, from + 1) else from
  }

  function Insert<T>(s: seq<T>, i: nat, x: T): seq<T>
    requires i <= |s|
  {
    s[..i] + [x] + s[i..]
  }

  /** update_leaf_inplace: overwrite, insert, or split a full leaf around the
      new record. */
  function LeafInplace(keys: seq<Key>, vals: seq<Val>, k: Key, v: Val): (r: Kids)
    requires |keys| == |vals| <= MAX_KEYS
    ensures 1 <= |r.chs| <= 2 && |r.chs| == |r.keys| + 1
  {
    var i := FindVal(keys, k, 0);
    if i < |keys| && keys[i] == k then Kids([], [ShapeLeaf(keys, vals[i := v])])
    else if |keys| < MAX_KEYS then Kids([], [ShapeLeaf(Insert(keys, i, k), Insert(vals, i, v))])
    else if i < B then
      Kids([keys[B-1..][0]], [ShapeLeaf(Insert(keys[..B-1], i, k), Insert(vals[..B-1], i, v)), ShapeLeaf(keys[B-1..], vals[B-1..])])
    else
      var right := Insert(keys[B..], i - B, k);
      Kids([right[0]], [ShapeLeaf(keys[..B], vals[..B]), ShapeLeaf(right, Insert(vals[B..], i - B, v))])
  }

  /** A child store, or insert_child. */
  function Put(s: Kids, i: nat, r: Kids): Kids
    requires i < |s.chs| == |s.keys| + 1
  {
    Kids(s.keys[..i] + r.keys + s.keys[i..], s.chs[..i] + r.chs + s.chs[i+1..])
  }

  /** update_internal_inplace on a node that is not full. */
  function InternalInplace(s: Kids, h: nat, k: Key, v: Val): Kids
    decreases h, 0
  {
    var i := FindCh(s.keys, k);
    if |s.chs| != |s.keys| + 1 then s else
    match s.chs[i]
    case ShapeLeaf(keys, vals) => if |keys| == |vals| <= MAX_KEYS then Put(s, i, LeafInplace(keys, vals, k, v)) else s
    case ShapeNode(kids) =>
      if h == 0 || |kids.chs| != |kids.keys| + 1 then s
      else if |kids.keys| < MAX_KEYS then Put(s, i, Kids([], [ShapeNode(InternalInplace(kids, h - 1, k, v))]))
      else if |kids.keys| == MAX_KEYS then Put(s, i, SplitInplace(kids, h - 1, k, v)) else s
  }

  /** A full node is split, and the half the key belongs to is updated. */
  function SplitInplace(kids: Kids, h: nat, k: Key, v: Val): (r: Kids)
    requires |kids.keys| == MAX_KEYS && |kids.chs| == |kids.keys| + 1
    ensures |r.chs| == 2 && |r.keys| == 1
    decreases h, 1
  {
    var p := kids.keys[B-1];
    var l, r := Kids(kids.keys[..B-1], kids.chs[..B]), Kids(kids.keys[B..], kids.chs[B..]);
    if p <= k then Kids([p], [ShapeNode(l), ShapeNode(InternalInplace(r, h, k, v))])
    else Kids([p], [ShapeNode(InternalInplace(l, h, k, v)), ShapeNode(r)])
  }

  function Rooted(r: Kids): Shape
    requires |r.chs| >= 1
  {
    if |r.chs| == 1 then r.chs[0] else ShapeNode(r)
  }

  /** update_root_inplace. */
  function RootInplace(t: Shape, h: nat, k: Key, v: Val): Shape {
    match t
    case ShapeLeaf(keys, vals) => if |keys| == |vals| <= MAX_KEYS then Rooted(LeafInplace(keys, vals, k, v)) else t
    case ShapeNode(kids) =>
      if h == 0 || |kids.chs| != |kids.keys| + 1 then t
      else if |kids.keys| < MAX_KEYS then ShapeNode(InternalInplace(kids, h - 1, k, v))
      else if |kids.keys| == MAX_KEYS then Rooted(SplitInplace(kids, h - 1, k, v)) else t
  }

  // ---- leaves ---------------------------------------------------------------

  lemma InsertSorted(keys: seq<Key>, vals: seq<Val>, k: Key, v: Val, i: nat)
    requires |keys| == |vals| && Sorted(keys) && i <= |keys|
    requires (forall j :: 0 <= j < i ==> keys[j] < k) && (i < |keys| ==> k < keys[i])
    ensures Sorted(Insert(keys, i, k)) && Base(Insert(keys, i, k), Insert(vals, i, v)) == Base(keys, vals)[k := v]
  {
    var ks, vs := Insert(keys, i, k), Insert(vals, i, v);
    InsertAt(keys, i, k);
    InsertAt(vals, i, v);
    assert forall j :: i <= j < |keys| ==> k < keys[j];
    assert Sorted(ks);
    SameMap(keys, vals, ks, vs, k, v, i);
  }

  lemma InsertAt<T>(s: seq<T>, i: nat, x: T)
    requires i <= |s|
    ensures |Insert(s, i, x)| == |s| + 1 && Insert(s, i, x)[i] == x
    ensures forall j :: 0 <= j < i ==> Insert(s, i, x)[j] == s[j]
    ensures forall j :: i < j <= |s| ==> Insert(s, i, x)[j] == s[j-1]
  {
  }

  lemma SameMap(keys: seq<Key>, vals: seq<Val>, ks: seq<Key>, vs: seq<Val>, k: Key, v: Val, i: nat)
    requires |keys| == |vals| && Sorted(keys) && i <= |keys| && ks == Insert(keys, i, k) && vs == Insert(vals, i, v) && Sorted(ks)
    ensures |ks| == |vs| && Base(ks, vs) == Base(keys, vals)[k := v]
  {
    hide Base, Insert;
    InsertAt(keys, i, k);
    InsertAt(vals, i, v);
    var m, m' := Base(keys, vals)[k := v], Base(ks, vs);
    forall x: Key ensures Lookup(m', x) == Lookup(m, x) {
      PointSame(keys, vals, ks, vs, k, v, i, x);
    }
    SameLookups(m, m');
  }

  lemma SameLookups(m: map<Key, Val>, m': map<Key, Val>)
    requires forall x: Key :: Lookup(m', x) == Lookup(m, x)
    ensures m' == m
  {
    forall x: Key ensures x in m <==> x in m' { assert Lookup(m', x) == Lookup(m, x); }
    forall x | x in m ensures m'[x] == m[x] { assert Lookup(m', x) == Lookup(m, x); }
  }

  lemma PointSame(keys: seq<Key>, vals: seq<Val>, ks: seq<Key>, vs: seq<Val>, k: Key, v: Val, i: nat, x: Key)
    requires |keys| == |vals| && Sorted(keys) && i <= |keys| && ks == Insert(keys, i, k) && vs == Insert(vals, i, v) && Sorted(ks) && |ks| == |vs|
    ensures Lookup(Base(ks, vs), x) == if x == k then Some(v) else Lookup(Base(keys, vals), x)
  {
    hide Base, Insert, Lookup, Sorted;
    if x == k {
      InsertAt(keys, i, k);
      InsertAt(vals, i, v);
      LookupIn(ks, vs, i);
    } else if x in keys {
      var j :| 0 <= j < |keys| && keys[j] == x;
      PointKept(keys, vals, ks, vs, k, v, i, j);
    } else {
      PointAbsent(keys, ks, k, i, x);
      LookupOut(keys, vals, x);
      LookupOut(ks, vs, x);
    }
  }

  lemma PointKept(keys: seq<Key>, vals: seq<Val>, ks: seq<Key>, vs: seq<Val>, k: Key, v: Val, i: nat, j: nat)
    requires |keys| == |vals| && Sorted(keys) && i <= |keys| && ks == Insert(keys, i, k) && vs == Insert(vals, i, v) && Sorted(ks) && |ks| == |vs|
    requires j < |keys|
    ensures Lookup(Base(ks, vs), keys[j]) == Lookup(Base(keys, vals), keys[j])
  {
    hide Base, Insert, Lookup, Sorted;
    InsertAt(keys, i, k);
    InsertAt(vals, i, v);
    var at := if j < i then j else j + 1;
    assert ks[at] == keys[j] && vs[at] == vals[j];
    LookupIn(keys, vals, j);
    LookupIn(ks, vs, at);
  }

  lemma PointAbsent(keys: seq<Key>, ks: seq<Key>, k: Key, i: nat, x: Key)
    requires i <= |keys| && ks == Insert(keys, i, k) && x != k && x !in keys
    ensures x !in ks
  {
  }

  lemma OverwriteSorted(keys: seq<Key>, vals: seq<Val>, v: Val, i: nat)
    requires |keys| == |vals| && Sorted(keys) && i < |keys|
    ensures Base(keys, vals[i := v]) == Base(keys, vals)[keys[i] := v]
  {
    hide Base;
    BaseKeys(keys, vals);
    BaseKeys(keys, vals[i := v]);
    var m, m' := Base(keys, vals)[keys[i] := v], Base(keys, vals[i := v]);
    assert keys[i] in KeySet(keys);
    forall x | x in m ensures m[x] == m'[x] {
      assert x in KeySet(keys);
      var j :| 0 <= j < |keys| && keys[j] == x;
      assert m'[keys[j]] == vals[i := v][j] && Base(keys, vals)[keys[j]] == vals[j];
    }
  }

  /** Sorted records are the canonical records of their map. */
  lemma Canonical(ks: seq<Key>, vs: seq<Val>, m: map<Key, Val>)
    requires |ks| == |vs| && Sorted(ks) && Base(ks, vs) == m
    ensures (forall i :: 0 <= i < |Ascending(m.Keys)| ==> Ascending(m.Keys)[i] in m)
    ensures ks == Ascending(m.Keys) && vs == ValuesOf(m, Ascending(m.Keys))
  {
    hide Base, Ascending;
    BaseKeys(ks, vs);
    AscendingIn(m.Keys);
    SortedUnique(ks, Ascending(m.Keys));
    forall i | 0 <= i < |vs| ensures vs[i] == ValuesOf(m, ks)[i] {
      assert m[ks[i]] == vs[i];
    }
  }

  /** The records of a leaf after the update, before any split. */
  function UpdatedRecords(keys: seq<Key>, vals: seq<Val>, k: Key, v: Val): (seq<Key>, seq<Val>)
    requires |keys| == |vals|
  {
    var i := FindVal(keys, k, 0);
    if i < |keys| && keys[i] == k then (keys, vals[i := v]) else (Insert(keys, i, k), Insert(vals, i, v))
  }

  lemma RecordsCanonical(keys: seq<Key>, vals: seq<Val>, k: Key, v: Val)
    requires |keys| == |vals| && Sorted(keys)
    ensures var r := UpdatedRecords(keys, vals, k, v);
            |r.0| == |r.1| && Sorted(r.0) && Base(r.0, r.1) == Base(keys, vals)[k := v] && |r.0| <= |keys| + 1
  {
    hide Base;
    var i := FindVal(keys, k, 0);
    if i < |keys| && keys[i] == k {
      OverwriteSorted(keys, vals, v, i);
    } else {
      InsertSorted(keys, vals, k, v, i);
    }
  }

  /** Splitting around the insertion is inserting and cutting in half. */
  lemma SplitInsert<T>(s: seq<T>, i: nat, x: T)
    requires |s| == MAX_KEYS && i <= |s|
    ensures i < B ==> Insert(s, i, x)[..B] == Insert(s[..B-1], i, x) && Insert(s, i, x)[B..] == s[B-1..]
    ensures i >= B ==> Insert(s, i, x)[..B] == s[..B] && Insert(s, i, x)[B..] == Insert(s[B..], i - B, x)
  {
  }

  lemma LeafIsRun(keys: seq<Key>, vals: seq<Val>, k: Key, v: Val, ticket: nat, stage: nat)
    requires |keys| == |vals| <= MAX_KEYS && Sorted(keys)
    ensures var r := UpdatedRecords(keys, vals, k, v);
            |r.0| == |r.1| && KidsOf(RunOf(r.0, r.1, ticket, stage)) == LeafInplace(keys, vals, k, v)
  {
    var i := FindVal(keys, k, 0);
    var r := UpdatedRecords(keys, vals, k, v);
    if i < |keys| && keys[i] == k {
      RunShape(r.0, r.1, ticket, stage);
    } else if |keys| < MAX_KEYS {
      RunShape(r.0, r.1, ticket, stage);
    } else {
      SplitInsert(keys, i, k);
      SplitInsert(vals, i, v);
      RunShape(r.0, r.1, ticket, stage);
      assert r.0[B..][0] == r.0[B];
    }
  }

  lemma RunShape(ks: seq<Key>, vs: seq<Val>, ticket: nat, stage: nat)
    requires |ks| == |vs|
    ensures KidsOf(RunOf(ks, vs, ticket, stage))
            == if |ks| <= MAX_KEYS then Kids([], [ShapeLeaf(ks, vs)])
               else var n := |ks| / 2; Kids([ks[n]], [ShapeLeaf(ks[..n], vs[..n]), ShapeLeaf(ks[n..], vs[n..])])
  {
    var n := |ks| / 2;
    if |ks| <= MAX_KEYS {
      assert ShapesOf(RunOf(ks, vs, ticket, stage).chs) == [ShapeLeaf(ks, vs)];
    } else {
      assert ShapesOf(RunOf(ks, vs, ticket, stage).chs) == [ShapeLeaf(ks[..n], vs[..n]), ShapeLeaf(ks[n..], vs[n..])];
    }
  }

  lemma LeafSame(t: Tree, ticket: nat, stage: nat, k: Key, v: Val)
    requires t.Leaf? && |t.keys| == |t.vals| <= MAX_KEYS && Sorted(t.keys)
    ensures KidsOf(ReplaceLeaf(t, map[], ticket, stage, k, v)) == LeafInplace(t.keys, t.vals, k, v)
  {
    hide Base, RunOf, UpdatedRecords, LeafInplace, Ascending;
    var r := UpdatedRecords(t.keys, t.vals, k, v);
    RecordsCanonical(t.keys, t.vals, k, v);
    Canonical(r.0, r.1, Base(t.keys, t.vals)[k := v]);
    LeafIsRun(t.keys, t.vals, k, v, ticket, stage);
    AscendingIn(Base(t.keys, t.vals)[k := v].Keys);
    NoOverlay(Base(t.keys, t.vals), ticket);
  }

  lemma NoOverlay(m: map<Key, Val>, ticket: nat)
    ensures Overlay(m, [], ticket) == m
  {
  }

  // ---- the descent ----------------------------------------------------------

  lemma SpliceShape(s: Seg, i: nat, r: Seg)
    requires i < |s.chs| == |s.keys| + 1 && |r.chs| == |r.keys| + 1
    ensures KidsOf(Splice(s, i, r)) == Put(KidsOf(s), i, KidsOf(r))
  {
    hide ShapeOf, Splice;
    SpliceSlices(s, i, r);
    assert ShapesOf(s.chs[..i] + r.chs + s.chs[i+1..]) == ShapesOf(s.chs)[..i] + ShapesOf(r.chs) + ShapesOf(s.chs)[i+1..];
  }

  lemma OneShape(t: Tree)
    ensures KidsOf(One(t)) == Kids([], [ShapeOf(t)])
  {
    assert ShapesOf([t]) == [ShapeOf(t)];
  }

  lemma TwoShape(l: Tree, sep: Key, r: Tree)
    ensures KidsOf(Two(l, sep, r)) == Kids([sep], [ShapeOf(l), ShapeOf(r)])
  {
    assert ShapesOf([l, r]) == [ShapeOf(l), ShapeOf(r)];
  }

  lemma {:induction false} GrowSame(s: Seg, h: nat, ticket: nat, stage: nat, k: Key, v: Val, lo: nat, hi: nat)
    requires Fits(s, map[], lo, hi, h) && lo <= k < hi
    ensures KidsOf(Grow(s, h, map[], ticket, stage, k, v)) == InternalInplace(KidsOf(s), h, k, v)
    decreases h, 0
  {
    hide Splice, ReplaceLeaf, Put, LeafInplace, Halves, SplitInplace, Fits;
    KidWf(s, map[], lo, hi, h, k);
    var i := FindCh(s.keys, k);
    var kid := s.chs[i];
    var klo, khi := LoAt(s.keys, lo, i), HiAt(s.keys, hi, i);
    assert KidsOf(s).chs[i] == ShapeOf(kid);
    if kid.Leaf? {
      LeafSorted(kid, klo, khi);
      LeafSame(kid, ticket, stage + 1, k, v);
      SpliceShape(s, i, ReplaceLeaf(kid, map[], ticket, stage + 1, k, v));
    } else if |kid.kids.keys| == MAX_KEYS {
      HalvesSame(kid.kids, h - 1, ticket, stage + 1, k, v, klo, khi);
      SpliceShape(s, i, Halves(kid.kids, h - 1, map[], ticket, stage + 1, k, v));
    } else {
      GrowSame(kid.kids, h - 1, ticket, stage + 1, k, v, klo, khi);
      var c := Node(New(ticket, stage + 1, WholeNode), ticket, Grow(kid.kids, h - 1, map[], ticket, stage + 1, k, v));
      OneShape(c);
      SpliceShape(s, i, One(c));
    }
  }

  lemma LeafSorted(t: Tree, lo: nat, hi: nat)
    requires t.Leaf? && Wf(t, map[], lo, hi, 0)
    ensures |t.keys| == |t.vals| <= MAX_KEYS && Sorted(t.keys)
  {
  }

  lemma {:induction false} HalvesSame(kids: Seg, h: nat, ticket: nat, stage: nat, k: Key, v: Val, lo: nat, hi: nat)
    requires |kids.keys| == MAX_KEYS && Fits(kids, map[], lo, hi, h) && lo <= k < hi
    ensures KidsOf(Halves(kids, h, map[], ticket, stage, k, v)) == SplitInplace(KidsOf(kids), h, k, v)
    decreases h, 1
  {
    hide Fits, Grow, InternalInplace;
    var sep := kids.keys[B-1];
    FullKids(kids, lo, hi, h);
    var l, r := Before(kids, B-1), After(kids, B-1);
    SplitFits(kids, B-1, map[], lo, hi, h);
    HalfShapes(kids);
    var c := Halves(kids, h, map[], ticket, stage, k, v);
    if k < sep {
      GrowSame(l, h, ticket, stage, k, v, lo, sep);
    } else {
      GrowSame(r, h, ticket, stage, k, v, sep, hi);
    }
    TwoShape(c.chs[0], sep, c.chs[1]);
  }

  lemma FullKids(s: Seg, lo: nat, hi: nat, h: nat)
    requires Fits(s, map[], lo, hi, h)
    ensures |s.chs| == |s.keys| + 1 && forall i :: 0 <= i < |s.keys| ==> lo < s.keys[i] < hi
  {
  }

  lemma HalfShapes(s: Seg)
    requires |s.keys| == MAX_KEYS && |s.chs| == |s.keys| + 1
    ensures KidsOf(Before(s, B-1)) == Kids(s.keys[..B-1], KidsOf(s).chs[..B])
    ensures KidsOf(After(s, B-1)) == Kids(s.keys[B..], KidsOf(s).chs[B..])
  {
    hide ShapeOf;
    assert ShapesOf(s.chs[..B]) == ShapesOf(s.chs)[..B];
    assert ShapesOf(s.chs[B..]) == ShapesOf(s.chs)[B..];
  }

  /** Without slots, path copying builds exactly the tree that the in-place
      update leaves, whatever versions and identities its nodes carry. */
  lemma CopyingIsInplace(t: Tree, h: nat, ticket: nat, k: Key, v: Val, hi: nat)
    requires Wf(t, map[], 0, hi, h) && k < hi
    ensures ShapeOf(Cow(t, h, map[], ticket, k, v)) == RootInplace(ShapeOf(t), h, k, v)
  {
    hide ReplaceLeaf, LeafInplace, Halves, SplitInplace, Grow, InternalInplace;
    if t.Leaf? {
      LeafSorted(t, 0, hi);
      LeafSame(t, ticket, 0, k, v);
      WrapShape(ReplaceLeaf(t, map[], ticket, 0, k, v), ticket);
    } else {
      FullKids(t.kids, 0, hi, h - 1);
      if |t.kids.keys| == MAX_KEYS {
        HalvesSame(t.kids, h - 1, ticket, 0, k, v, 0, hi);
        WrapShape(Halves(t.kids, h - 1, map[], ticket, 0, k, v), ticket);
      } else {
        GrowSame(t.kids, h - 1, ticket, 0, k, v, 0, hi);
      }
    }
  }

  lemma WrapShape(r: Seg, ticket: nat)
    requires 1 <= |r.chs| <= 2
    ensures ShapeOf(Wrap(r, ticket)) == Rooted(KidsOf(r))
  {
    assert KidsOf(r).chs[0] == ShapeOf(r.chs[0]);
  }
}
