/** BeTrees: a fixed upper part, a boundary, and elastic subtrees below it whose
    height grows as they split. Nodes carry the identity of the physical node. */
module BeTree {
  import opened Options
  import opened Records
  import opened Nodes
  import BTree
  import LeafScan
  import Scan = BTreeScan

  const E := 3

  datatype Kind = Upper | Lower | Boundary

  datatype Node =
    | Leaf(id: Id, ver: nat, verge: nat, keys: seq<Key>, vals: seq<Val>)
    | Inner(id: Id, ver: nat, kind: Kind, verge: nat, height: nat, keys: seq<Key>, chs: seq<Node>)

  type Side = BTree.Side

  /** Elastic levels above the bottom part a node belongs to. */
  function HeightOf(t: Node): nat {
    if t.Leaf? then 0 else t.height
  }

  // ---- the map --------------------------------------------------------------

  function View(t: Node, side: Side, v: nat): map<Key, Val>
    requires t.Leaf? && |t.keys| == |t.vals|
  {
    LeafView(t.keys, t.vals, BTree.SlotsAt(side, t.id), v)
  }

  /** find at a version. */
  function Get(t: Node, side: Side, v: nat, k: Key): Option<Val>
    decreases t
  {
    match t
    case Leaf(_, _, _, keys, vals) => if |keys| == |vals| then Lookup(View(t, side, v), k) else None
    case Inner(_, _, _, _, _, keys, chs) =>
      var i := FindCh(keys, k);
      if i < |chs| then Get(chs[i], side, v, k) else None
  }

  /** unfold_elems: the pairs of a version, leaf by leaf. */
  function Pairs(t: Node, side: Side, v: nat): seq<(Key, Val)>
    decreases t, 0
  {
    match t
    case Leaf(_, _, _, keys, vals) => if |keys| == |vals| then LeafScan.Items(View(t, side, v)) else []
    case Inner(_, _, _, _, _, _, chs) => AllPairs(chs, side, v)
  }

  function AllPairs(ts: seq<Node>, side: Side, v: nat): seq<(Key, Val)>
    decreases ts, |ts|
  {
    if ts == [] then [] else Pairs(ts[0], side, v) + AllPairs(ts[1..], side, v)
  }

  /** Keys in [lo, hi), separators strictly inside, any depth. */
  ghost predicate Ordered(t: Node, side: Side, lo: nat, hi: nat)
    decreases t, 0
  {
    match t
    case Leaf(id, ver, _, keys, vals) => ver == id.Version() && lo < hi && BTree.LeafOk(keys, vals, lo, hi) && SlotsOf(BTree.SlotsAt(side, id), ver, lo, hi)
    case Inner(_, _, _, _, _, keys, chs) => RowOk(keys, chs, side, lo, hi)
  }

  /** Neighbours, with the separators between them. */
  ghost predicate RowOk(keys: seq<Key>, chs: seq<Node>, side: Side, lo: nat, hi: nat)
    decreases chs, 1
  {
    && |chs| == |keys| + 1 && Sorted(keys)
    && (forall i :: 0 <= i < |keys| ==> lo < keys[i] < hi)
    && (forall i :: 0 <= i < |chs| ==> Ordered(chs[i], side, LoAt(keys, lo, i), HiAt(keys, hi, i)))
  }

  lemma LeafPairs(t: Node, side: Side, v: nat, lo: nat, hi: nat, k: Key)
    requires t.Leaf? && Ordered(t, side, lo, hi)
    ensures Scan.InOrder(Pairs(t, side, v), lo, hi) && Scan.Assoc(Pairs(t, side, v), k) == Get(t, side, v, k)
  {
    hide LeafView;
    ViewIn(t, side, v, lo, hi);
    ItemsLookup(View(t, side, v), k);
  }

  lemma ViewIn(t: Node, side: Side, v: nat, lo: nat, hi: nat)
    requires t.Leaf? && Ordered(t, side, lo, hi)
    ensures forall k :: k in View(t, side, v) ==> lo <= k < hi
  {
    BaseKeys(t.keys, t.vals);
    var ss := BTree.SlotsAt(side, t.id);
    OverlayKeys(Base(t.keys, t.vals), ss, v);
    forall k | k in View(t, side, v) ensures lo <= k < hi {
      assert k in KeySet(t.keys) + SlotKeys(ss, v);
    }
  }

  lemma ItemsLookup(m: map<Key, Val>, k: Key)
    ensures Scan.Assoc(LeafScan.Items(m), k) == Lookup(m, k)
    ensures forall i, j :: 0 <= i < j < |LeafScan.Items(m)| ==> LeafScan.Items(m)[i].0 < LeafScan.Items(m)[j].0
  {
    hide Scan.Assoc, Ascending;
    var s, ks := LeafScan.Items(m), Ascending(m.Keys);
    assert forall i :: 0 <= i < |s| ==> s[i].0 == ks[i];
    Scan.ItemsAssoc(s, m, k);
    if k in m {
      assert k in KeySet(ks);
      var i :| 0 <= i < |ks| && ks[i] == k;
      assert s[i].0 == k;
    }
  }

  lemma PairsFrom(chs: seq<Node>, i: nat, side: Side, v: nat)
    requires i < |chs|
    ensures AllPairs(chs[i..], side, v) == Pairs(chs[i], side, v) + AllPairs(chs[i+1..], side, v)
  {
    hide Pairs;
    assert chs[i..][1..] == chs[i+1..];
  }

  lemma NoPairs(side: Side, v: nat)
    ensures AllPairs([], side, v) == []
  {
  }

  /** The pairs of an ordered tree are sorted, and list for each key what find
      finds. */
  lemma {:induction false} PairsAre(t: Node, side: Side, v: nat, lo: nat, hi: nat, k: Key)
    requires Ordered(t, side, lo, hi)
    ensures lo < hi && Scan.InOrder(Pairs(t, side, v), lo, hi)
    ensures lo <= k < hi ==> Scan.Assoc(Pairs(t, side, v), k) == Get(t, side, v, k)
    decreases t, 0, 0
  {
    hide Scan.InOrder, Scan.Assoc, AllPairs, Ordered, RowOk;
    if t.Leaf? {
      LeafRange(t, side, lo, hi);
      LeafPairs(t, side, v, lo, hi, k);
    } else {
      InnerRow(t, side, lo, hi);
      RowPairs(t.keys, t.chs, 0, side, v, lo, hi, k);
      assert t.chs[0..] == t.chs;
    }
  }

  lemma LeafRange(t: Node, side: Side, lo: nat, hi: nat)
    requires t.Leaf? && Ordered(t, side, lo, hi)
    ensures lo < hi
  {
  }

  lemma InnerRow(t: Node, side: Side, lo: nat, hi: nat)
    requires t.Inner?
    ensures Ordered(t, side, lo, hi) <==> RowOk(t.keys, t.chs, side, lo, hi)
    ensures Ordered(t, side, lo, hi) ==> |t.chs| == |t.keys| + 1
  {
  }

  lemma RowFacts(keys: seq<Key>, chs: seq<Node>, side: Side, lo: nat, hi: nat, i: nat)
    requires RowOk(keys, chs, side, lo, hi) && i < |chs|
    ensures |chs| == |keys| + 1 && Sorted(keys) && Ordered(chs[i], side, LoAt(keys, lo, i), HiAt(keys, hi, i))
    ensures forall j :: 0 <= j < |keys| ==> lo < keys[j] < hi
  {
    hide Ordered, Sorted;
  }

  /** The child of a key among neighbours. */
  function RowGet(keys: seq<Key>, chs: seq<Node>, side: Side, v: nat, k: Key): Option<Val> {
    var i := FindCh(keys, k);
    if i < |chs| then Get(chs[i], side, v, k) else None
  }

  lemma {:induction false} RowPairs(keys: seq<Key>, chs: seq<Node>, i: nat, side: Side, v: nat, lo: nat, hi: nat, k: Key)
    requires RowOk(keys, chs, side, lo, hi) && i < |chs| == |keys| + 1
    ensures LoAt(keys, lo, i) < hi && Scan.InOrder(AllPairs(chs[i..], side, v), LoAt(keys, lo, i), hi)
    ensures LoAt(keys, lo, i) <= k < hi ==> Scan.Assoc(AllPairs(chs[i..], side, v), k) == RowGet(keys, chs, side, v, k)
    decreases chs, 1, |chs| - i
  {
    hide Scan.InOrder, Scan.Assoc, Ordered, RowOk, Pairs, Get, AllPairs;
    RowFacts(keys, chs, side, lo, hi, i);
    PairsAre(chs[i], side, v, LoAt(keys, lo, i), HiAt(keys, hi, i), k);
    PairsFrom(chs, i, side, v);
    if i + 1 < |chs| {
      RowPairs(keys, chs, i + 1, side, v, lo, hi, k);
      Scan.OrderJoin(Pairs(chs[i], side, v), AllPairs(chs[i+1..], side, v), LoAt(keys, lo, i), keys[i], hi);
      if LoAt(keys, lo, i) <= k < hi {
        Scan.AssocSplit(Pairs(chs[i], side, v), AllPairs(chs[i+1..], side, v), LoAt(keys, lo, i), keys[i], hi, k);
        if k < keys[i] { FindChIs(keys, k, i, lo, hi); }
      }
    } else {
      assert chs[i+1..] == [];
      NoPairs(side, v);
      assert Pairs(chs[i], side, v) + [] == Pairs(chs[i], side, v);
      if LoAt(keys, lo, i) <= k < hi { FindChIs(keys, k, i, lo, hi); }
    }
  }

  // ---- identities -----------------------------------------------------------

  function Ids(t: Node): set<Id>
    decreases t, 0
  {
    match t
    case Leaf(id, _, _, _, _) => {id}
    case Inner(id, _, _, _, _, _, chs) => {id} + AllIds(chs)
  }

  function AllIds(ts: seq<Node>): set<Id>
    decreases ts, 0
  {
    set i, x | 0 <= i < |ts| && x in Ids(ts[i]) :: x
  }

  /** No physical node occurs twice. */
  ghost predicate Distinct(t: Node)
    decreases t, 0
  {
    t.Inner? ==> t.id !in AllIds(t.chs) && AllDistinct(t.chs)
  }

  ghost predicate AllDistinct(ts: seq<Node>)
    decreases ts, 0
  {
    && (forall i :: 0 <= i < |ts| ==> Distinct(ts[i]))
    && (forall i, j :: 0 <= i < j < |ts| ==> Ids(ts[i]) !! Ids(ts[j]))
  }

  lemma ChildIds(ts: seq<Node>, i: nat)
    requires i < |ts|
    ensures Ids(ts[i]) <= AllIds(ts)
  {
  }

  lemma JoinIds(a: seq<Node>, b: seq<Node>)
    ensures AllIds(a + b) == AllIds(a) + AllIds(b)
    ensures AllDistinct(a + b) <==> AllDistinct(a) && AllDistinct(b) && AllIds(a) !! AllIds(b)
  {
    hide Ids, Distinct;
    var c := a + b;
    forall i | 0 <= i < |a| ensures c[i] == a[i] {
    }
    forall i | 0 <= i < |b| ensures c[|a| + i] == b[i] {
    }
    assert AllIds(c) <= AllIds(a) + AllIds(b) by {
      forall x | x in AllIds(c) ensures x in AllIds(a) + AllIds(b) {
        var i :| 0 <= i < |c| && x in Ids(c[i]);
        if i < |a| { assert x in Ids(a[i]); } else { assert x in Ids(b[i - |a|]); }
      }
    }
    forall x | x in AllIds(a) + AllIds(b) ensures x in AllIds(c) {
      if x in AllIds(a) {
        var i :| 0 <= i < |a| && x in Ids(a[i]);
        assert x in Ids(c[i]);
      } else {
        var i :| 0 <= i < |b| && x in Ids(b[i]);
        assert x in Ids(c[|a| + i]);
      }
    }
    if AllDistinct(a) && AllDistinct(b) && AllIds(a) !! AllIds(b) { JoinApart(a, b); }
    if AllDistinct(c) { SplitApart(a, b); }
  }

  lemma JoinApart(a: seq<Node>, b: seq<Node>)
    requires AllDistinct(a) && AllDistinct(b) && AllIds(a) !! AllIds(b)
    ensures AllDistinct(a + b)
  {
    hide Ids, Distinct;
    var c := a + b;
    forall i, j | 0 <= i < j < |c| ensures Ids(c[i]) !! Ids(c[j]) {
      if i < |a| { ChildIds(a, i); }
      if j >= |a| { ChildIds(b, j - |a|); }
    }
  }

  lemma SplitApart(a: seq<Node>, b: seq<Node>)
    requires AllDistinct(a + b)
    ensures AllDistinct(a) && AllDistinct(b) && AllIds(a) !! AllIds(b)
  {
    hide Ids, Distinct;
    var c := a + b;
    assert forall i :: 0 <= i < |a| ==> c[i] == a[i];
    assert forall i :: 0 <= i < |b| ==> c[|a| + i] == b[i];
    forall i, j | 0 <= i < |a| && 0 <= j < |b| ensures Ids(a[i]) !! Ids(b[j]) {
      assert Ids(c[i]) !! Ids(c[|a| + j]);
    }
  }

  // ---- shape ----------------------------------------------------------------

  /** At least one separator, at most fifteen. */
  predicate Sized(t: Node) {
    t.Inner? ==> |t.chs| == |t.keys| + 1 && 1 <= |t.keys| <= MAX_KEYS
  }

  function Below(height: nat): nat {
    if height > 0 then height - 1 else 0
  }

  /** An elastic subtree: a node of height k > 0 has children of height k - 1
      only, and below height 0 there is only height 0. */
  ghost predicate Low(t: Node)
    decreases t
  {
    t.Inner? ==> t.kind == Lower && Sized(t) && forall i :: 0 <= i < |t.chs| ==> Low(t.chs[i]) && HeightOf(t.chs[i]) == Below(t.height)
  }

  /** h levels of upper nodes, then a boundary node over elastic subtrees. */
  ghost predicate Elastic(t: Node, h: nat)
    decreases t
  {
    && t.Inner? && Sized(t)
    && if h == 0 then t.kind == Boundary && forall i :: 0 <= i < |t.chs| ==> Low(t.chs[i])
       else t.kind == Upper && forall i :: 0 <= i < |t.chs| ==> Elastic(t.chs[i], h - 1)
  }

  /** Every elastic subtree is at most e levels high. */
  ghost predicate AtMost(t: Node, h: nat, e: nat)
    decreases t
  {
    t.Inner? ==> forall i :: 0 <= i < |t.chs| ==> if h == 0 then HeightOf(t.chs[i]) <= e else AtMost(t.chs[i], h - 1, e)
  }

  /** Upper and boundary nodes are as they were: separators, number of children
      and kinds. */
  ghost predicate SameTop(t: Node, u: Node, h: nat)
    decreases t
  {
    && t.Inner? && u.Inner? && u.keys == t.keys && |u.chs| == |t.chs| && u.kind == t.kind && u.verge == t.verge && u.height == t.height
    && (h > 0 ==> forall i :: 0 <= i < |t.chs| ==> SameTop(t.chs[i], u.chs[i], h - 1))
  }

  /** Upper and boundary nodes have eight children at least. */
  ghost predicate Wide(t: Node, h: nat)
    decreases t
  {
    t.Inner? && |t.chs| >= B && (h > 0 ==> forall i :: 0 <= i < |t.chs| ==> Wide(t.chs[i], h - 1))
  }

  /** ... but the root. */
  ghost predicate WideRoot(t: Node, h: nat) {
    t.Inner? && |t.chs| >= 2 && (h > 0 ==> forall i :: 0 <= i < |t.chs| ==> Wide(t.chs[i], h - 1))
  }
}
