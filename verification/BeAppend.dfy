/** Appending to a leaf of a BeTree in place. */
module BeAppend {
  import opened Options
  import opened Records
  import opened Nodes
  import opened BeTree
  import BTree
  import LeafScan
  import H = BTreeHistory

  /** concurrent_fat_target. */
  function Route(t: Node, key: Key): Node
    decreases t
  {
    if t.Inner? && FindCh(t.keys, key) < |t.chs| then Route(t.chs[FindCh(t.keys, key)], key) else t
  }

  lemma {:induction false} RouteIn(t: Node, key: Key)
    ensures Route(t, key).id in Ids(t)
    decreases t
  {
    hide AllIds;
    if t.Inner? && FindCh(t.keys, key) < |t.chs| {
      RouteIn(t.chs[FindCh(t.keys, key)], key);
      ChildIds(t.chs, FindCh(t.keys, key));
    }
  }

  // ---- slots elsewhere ------------------------------------------------------

  ghost predicate SameOn(ids: set<Id>, a: Side, b: Side) {
    forall x :: x in ids ==> BTree.SlotsAt(a, x) == BTree.SlotsAt(b, x)
  }

  lemma SameOnSub(small: set<Id>, ids: set<Id>, a: Side, b: Side)
    requires SameOn(ids, a, b) && small <= ids
    ensures SameOn(small, a, b)
  {
  }

  lemma {:induction false} Elsewhere(t: Node, a: Side, b: Side, lo: nat, hi: nat)
    requires Ordered(t, a, lo, hi) && SameOn(Ids(t), a, b)
    ensures Ordered(t, b, lo, hi)
    decreases t
  {
    hide Ids, AllIds, SameOn, RowOk, Sorted;
    if t.Leaf? {
      LeafElsewhere(t, a, b, lo, hi);
    } else {
      InnerRow(t, a, lo, hi);
      InnerRow(t, b, lo, hi);
      RowShape(t.keys, t.chs, a, lo, hi);
      forall i | 0 <= i < |t.chs| ensures Ordered(t.chs[i], b, LoAt(t.keys, lo, i), HiAt(t.keys, hi, i)) {
        RowFacts(t.keys, t.chs, a, lo, hi, i);
        KidIn(t, i);
        SameOnSub(Ids(t.chs[i]), Ids(t), a, b);
        Elsewhere(t.chs[i], a, b, LoAt(t.keys, lo, i), HiAt(t.keys, hi, i));
      }
      RowBuilt(t.keys, t.chs, b, lo, hi);
    }
  }

  lemma LeafElsewhere(t: Node, a: Side, b: Side, lo: nat, hi: nat)
    requires t.Leaf? && Ordered(t, a, lo, hi) && SameOn(Ids(t), a, b)
    ensures Ordered(t, b, lo, hi)
  {
    assert t.id in Ids(t);
  }

  lemma KidIn(t: Node, i: nat)
    requires t.Inner? && i < |t.chs|
    ensures Ids(t.chs[i]) <= Ids(t)
  {
    hide AllIds;
    ChildIds(t.chs, i);
  }

  lemma RowShape(keys: seq<Key>, chs: seq<Node>, side: Side, lo: nat, hi: nat)
    requires RowOk(keys, chs, side, lo, hi)
    ensures |chs| == |keys| + 1 && Sorted(keys) && forall i :: 0 <= i < |keys| ==> lo < keys[i] < hi
  {
    hide Ordered, Sorted;
  }

  lemma RowBuilt(keys: seq<Key>, chs: seq<Node>, side: Side, lo: nat, hi: nat)
    requires |chs| == |keys| + 1 && Sorted(keys) && forall i :: 0 <= i < |keys| ==> lo < keys[i] < hi
    requires forall i :: 0 <= i < |chs| ==> Ordered(chs[i], side, LoAt(keys, lo, i), HiAt(keys, hi, i))
    ensures RowOk(keys, chs, side, lo, hi)
  {
    hide Ordered, Sorted;
  }

  lemma {:induction false} GetElsewhere(t: Node, a: Side, b: Side, v: nat, k: Key)
    requires SameOn(Ids(t), a, b)
    ensures Get(t, b, v, k) == Get(t, a, v, k)
    decreases t
  {
    hide AllIds, SameOn, Ids;
    if t.Leaf? {
      LeafSame(t, a, b);
    } else {
      var i := FindCh(t.keys, k);
      if i < |t.chs| {
        KidIn(t, i);
        SameOnSub(Ids(t.chs[i]), Ids(t), a, b);
        GetElsewhere(t.chs[i], a, b, v, k);
      }
    }
  }

  lemma LeafSame(t: Node, a: Side, b: Side)
    requires t.Leaf? && SameOn(Ids(t), a, b)
    ensures BTree.SlotsAt(a, t.id) == BTree.SlotsAt(b, t.id)
  {
    assert t.id in Ids(t);
  }

  // ---- one slot more --------------------------------------------------------

  ghost predicate Newest(side: Side, ids: set<Id>, s: Slot) {
    && (forall x, i :: x in side && 0 <= i < |side[x]| ==> side[x][i].version < s.version)
    && (forall x :: x in ids ==> x.Version() < s.version)
  }

  lemma LeafAppend(t: Node, side: Side, lo: nat, hi: nat, s: Slot, v: nat, k: Key)
    requires t.Leaf? && Ordered(t, side, lo, hi) && lo <= s.key < hi && Newest(side, Ids(t), s)
    requires |BTree.SlotsAt(side, t.id)| < MAX_SLOTS
    ensures Ordered(t, H.Append(side, t.id, s), lo, hi)
    ensures s.version <= v ==> Get(t, H.Append(side, t.id, s), v, k) == if k == s.key then Some(s.value) else Get(t, side, v, k)
  {
    var ss := BTree.SlotsAt(side, t.id);
    assert t.id in Ids(t);
    assert BTree.SlotsAt(H.Append(side, t.id, s), t.id) == ss + [s];
    if s.version <= v {
      OverlayAppend(Base(t.keys, t.vals), ss, s, v);
    }
  }

  lemma OtherKids(t: Node, side: Side, i: nat, x: Id, s: Slot)
    requires t.Inner? && Distinct(t) && i < |t.chs| && x in Ids(t.chs[i])
    ensures forall j :: 0 <= j < |t.chs| && j != i ==> SameOn(Ids(t.chs[j]), side, H.Append(side, x, s))
    ensures Distinct(t.chs[i])
  {
    hide Ids, Distinct;
    NodeApart(t, i);
  }

  lemma NodeApart(t: Node, i: nat)
    requires t.Inner? && Distinct(t) && i < |t.chs|
    ensures Distinct(t.chs[i]) && forall j :: 0 <= j < |t.chs| && j != i ==> Ids(t.chs[j]) !! Ids(t.chs[i])
  {
    hide Ids;
  }

  lemma NewestSub(side: Side, small: set<Id>, ids: set<Id>, s: Slot)
    requires Newest(side, ids, s) && small <= ids
    ensures Newest(side, small, s)
  {
  }

  /** A published slot changes the map at its key only, for every snapshot that
      includes it, and keeps the order of keys. */
  lemma {:induction false} AppendOk(t: Node, side: Side, lo: nat, hi: nat, s: Slot, v: nat, k: Key)
    requires Ordered(t, side, lo, hi) && Distinct(t) && lo <= s.key < hi && lo <= k < hi && Newest(side, Ids(t), s)
    requires |BTree.SlotsAt(side, Route(t, s.key).id)| < MAX_SLOTS
    ensures var b := H.Append(side, Route(t, s.key).id, s);
            Ordered(t, b, lo, hi) && (s.version <= v ==> Get(t, b, v, k) == if k == s.key then Some(s.value) else Get(t, side, v, k))
    decreases t
  {
    hide Ordered, RowOk, Ids, AllIds, Distinct, AllDistinct, Newest, SameOn, H.Append, Get, Sorted;
    if t.Leaf? {
      LeafAppend(t, side, lo, hi, s, v, k);
    } else {
      InnerRow(t, side, lo, hi);
      RowShape(t.keys, t.chs, side, lo, hi);
      var i := FindCh(t.keys, s.key);
      var x := Route(t, s.key).id;
      var b := H.Append(side, x, s);
      RouteIn(t.chs[i], s.key);
      OtherKids(t, side, i, x, s);
      KidIn(t, i);
      NewestSub(side, Ids(t.chs[i]), Ids(t), s);
      RowFacts(t.keys, t.chs, side, lo, hi, i);
      FindIn(t.keys, s.key, lo, hi);
      FindIn(t.keys, k, lo, hi);
      var inside := if FindCh(t.keys, k) == i then k else s.key;
      AppendOk(t.chs[i], side, LoAt(t.keys, lo, i), HiAt(t.keys, hi, i), s, v, inside);
      forall j | 0 <= j < |t.chs| ensures Ordered(t.chs[j], b, LoAt(t.keys, lo, j), HiAt(t.keys, hi, j)) {
        if j != i {
          RowFacts(t.keys, t.chs, side, lo, hi, j);
          Elsewhere(t.chs[j], side, b, LoAt(t.keys, lo, j), HiAt(t.keys, hi, j));
        }
      }
      RowBuilt(t.keys, t.chs, b, lo, hi);
      InnerRow(t, b, lo, hi);
      InnerGets(t, side, v, k);
      InnerGets(t, b, v, k);
      var j := FindCh(t.keys, k);
      if j != i {
        GetElsewhere(t.chs[j], side, b, v, k);
      }
    }
  }

  lemma FindIn(keys: seq<Key>, k: Key, lo: nat, hi: nat)
    requires Sorted(keys) && lo <= k < hi
    ensures LoAt(keys, lo, FindCh(keys, k)) <= k < HiAt(keys, hi, FindCh(keys, k))
  {
  }

  lemma InnerGets(t: Node, side: Side, v: nat, k: Key)
    requires t.Inner? && FindCh(t.keys, k) < |t.chs|
    ensures Get(t, side, v, k) == Get(t.chs[FindCh(t.keys, k)], side, v, k)
  {
  }

  // ---- earlier snapshots ----------------------------------------------------

  lemma ViewLater(t: Node, side: Side, id: Id, s: Slot, v: nat)
    requires t.Leaf? && |t.keys| == |t.vals| && v < s.version
    ensures View(t, H.Append(side, id, s), v) == View(t, side, v)
  {
    if t.id == id {
      OverlayPrefix(Base(t.keys, t.vals), BTree.SlotsAt(side, id), [s], v);
    }
  }

  /** Later slots do not show, to find or to scan. */
  lemma {:induction false} LaterAppend(t: Node, side: Side, id: Id, s: Slot, v: nat, k: Key)
    requires v < s.version
    ensures Get(t, H.Append(side, id, s), v, k) == Get(t, side, v, k)
    ensures Pairs(t, H.Append(side, id, s), v) == Pairs(t, side, v)
    decreases t, 0
  {
    hide H.Append, View, AllPairs, LeafScan.Items;
    if t.Leaf? {
      if |t.keys| == |t.vals| { ViewLater(t, side, id, s, v); }
    } else {
      RowLater(t.chs, 0, side, id, s, v);
      assert t.chs[0..] == t.chs;
      var i := FindCh(t.keys, k);
      if i < |t.chs| { LaterAppend(t.chs[i], side, id, s, v, k); }
    }
  }

  lemma {:induction false} RowLater(chs: seq<Node>, i: nat, side: Side, id: Id, s: Slot, v: nat)
    requires v < s.version && i <= |chs|
    ensures AllPairs(chs[i..], H.Append(side, id, s), v) == AllPairs(chs[i..], side, v)
    decreases chs, 1, |chs| - i
  {
    hide H.Append, Pairs, AllPairs;
    if i == |chs| {
      assert chs[i..] == [];
      NoPairs(side, v);
      NoPairs(H.Append(side, id, s), v);
    } else {
      LaterAppend(chs[i], side, id, s, v, 0);
      RowLater(chs, i + 1, side, id, s, v);
      PairsFrom(chs, i, side, v);
      PairsFrom(chs, i, H.Append(side, id, s), v);
    }
  }

  /** Past the newest slot the version no longer matters. */
  lemma {:induction false} GetSettled(t: Node, side: Side, n: nat, v: nat, k: Key)
    requires (forall x, i :: x in side && 0 <= i < |side[x]| ==> side[x][i].version <= n) && n <= v
    ensures Get(t, side, v, k) == Get(t, side, n, k)
    decreases t
  {
    if t.Leaf? {
      if |t.keys| == |t.vals| { OverlayAll(Base(t.keys, t.vals), BTree.SlotsAt(side, t.id), v, n); }
    } else {
      var i := FindCh(t.keys, k);
      if i < |t.chs| { GetSettled(t.chs[i], side, n, v, k); }
    }
  }
}
