/** How full the nodes of a B+Tree stay, and the height that allows. */
module BTreeFill {
  import opened Records
  import opened Nodes
  import opened BTree
  import opened BTreeCow
  import opened BTreeBuild

  /** The records in the leaves. */
  function KeysIn(t: Tree): nat
    decreases t, 0
  {
    match t
    case Leaf(_, _, keys, _) => |keys|
    case Node(_, _, kids) => SegKeys(kids, 0)
  }

  function SegKeys(s: Seg, i: nat): nat
    decreases s, |s.chs| - i
  {
    if i >= |s.chs| then 0 else KeysIn(s.chs[i]) + SegKeys(s, i + 1)
  }

  function Pow8(h: nat): (r: nat)
    ensures r >= 1
  {
    if h == 0 then 1 else 8 * Pow8(h - 1)
  }

  lemma {:induction false} FilledCount(t: Tree, side: Side, lo: nat, hi: nat, h: nat)
    requires Wf(t, side, lo, hi, h) && Filled(t)
    ensures KeysIn(t) >= 8 * Pow8(h)
    decreases t, 0
  {
    if t.Node? {
      SegCount(t.kids, 0, side, lo, hi, h - 1);
      TimesMono(|t.kids.chs|, 8, 8 * Pow8(h - 1));
    }
  }

  lemma TimesMono(n: nat, b: nat, p: nat)
    requires n >= b
    ensures n * p >= b * p
  {
  }

  lemma {:induction false} SegCount(s: Seg, i: nat, side: Side, lo: nat, hi: nat, h: nat)
    requires Fits(s, side, lo, hi, h) && i <= |s.chs| && forall j :: 0 <= j < |s.chs| ==> Filled(s.chs[j])
    ensures SegKeys(s, i) >= (|s.chs| - i) * (8 * Pow8(h))
    decreases s, |s.chs| - i
  {
    if i < |s.chs| {
      FilledCount(s.chs[i], side, LoAt(s.keys, lo, i), HiAt(s.keys, hi, i), h);
      SegCount(s, i + 1, side, lo, hi, h);
      assert (|s.chs| - i) * (8 * Pow8(h)) == (|s.chs| - (i + 1)) * (8 * Pow8(h)) + 8 * Pow8(h);
    }
  }

  /** A tree with h > 0 internal levels holds at least 2 * 8^h keys. */
  lemma HeightBound(t: Tree, side: Side, hi: nat, h: nat)
    requires Wf(t, side, 0, hi, h) && FilledRoot(t) && h > 0
    ensures KeysIn(t) >= 2 * Pow8(h)
  {
    SegCount(t.kids, 0, side, 0, hi, h - 1);
    TimesMono(|t.kids.chs|, 2, 8 * Pow8(h - 1));
  }

  // ---- updates keep nodes filled --------------------------------------------

  ghost predicate AllFilled(ts: seq<Tree>) {
    forall i :: 0 <= i < |ts| ==> Filled(ts[i])
  }

  lemma SortedSize(keys: seq<Key>)
    requires Sorted(keys)
    ensures |KeySet(keys)| == |keys|
  {
    SortedUnique(keys, Ascending(KeySet(keys)));
  }

  /** A leaf's replacement has at least its keys; two halves have eight each. */
  lemma RunFilled(t: Tree, side: Side, ticket: nat, stage: nat, key: Key, val: Val, lo: nat, hi: nat)
    requires t.Leaf? && Wf(t, side, lo, hi, 0)
    ensures var r := ReplaceLeaf(t, side, ticket, stage, key, val);
            |r.chs| == 2 || Filled(t) ==> AllFilled(r.chs)
  {
    hide LeafView;
    var m := LeafView(t.keys, t.vals, SlotsAt(side, t.id), ticket);
    ViewBounds(t, side, ticket, lo, hi);
    SortedSize(t.keys);
    SubsetSize(KeySet(t.keys), m[key := val].Keys);
    AscendingIn(m[key := val].Keys);
    RunSizes(m[key := val], ticket, stage);
  }

  lemma RunSizes(m: map<Key, Val>, ticket: nat, stage: nat)
    ensures |LeafRun(m, ticket, stage).chs| == 2 || |m.Keys| >= B ==> AllFilled(LeafRun(m, ticket, stage).chs)
  {
    AscendingIn(m.Keys);
  }

  lemma SpliceFilled(s: Seg, i: nat, r: Seg)
    requires i < |s.chs| == |s.keys| + 1 && |r.chs| == |r.keys| + 1 && AllFilled(s.chs) && AllFilled(r.chs)
    ensures AllFilled(Splice(s, i, r).chs) && |Splice(s, i, r).chs| == |s.chs| + |r.chs| - 1
  {
    hide Filled;
    SpliceSlices(s, i, r);
  }

  lemma {:induction false} GrowFilled(s: Seg, h: nat, side: Side, ticket: nat, stage: nat, key: Key, val: Val, lo: nat, hi: nat)
    requires Fits(s, side, lo, hi, h) && lo <= key < hi && AllFilled(s.chs)
    ensures var g := Grow(s, h, side, ticket, stage, key, val); AllFilled(g.chs) && |g.chs| >= |s.chs|
    decreases h, 0
  {
    hide Fits, Filled, Splice, ReplaceLeaf, Halves;
    KidWf(s, side, lo, hi, h, key);
    var i := FindCh(s.keys, key);
    var kid := s.chs[i];
    var klo, khi := LoAt(s.keys, lo, i), HiAt(s.keys, hi, i);
    if kid.Leaf? {
      RunFilled(kid, side, ticket, stage + 1, key, val, klo, khi);
      SpliceFilled(s, i, ReplaceLeaf(kid, side, ticket, stage + 1, key, val));
    } else {
      KidsFilled(kid);
      if |kid.kids.keys| == MAX_KEYS {
        HalvesFilled(kid.kids, h - 1, side, ticket, stage + 1, key, val, klo, khi);
        SpliceFilled(s, i, Halves(kid.kids, h - 1, side, ticket, stage + 1, key, val));
      } else {
        GrowFilled(kid.kids, h - 1, side, ticket, stage + 1, key, val, klo, khi);
        var c := Node(New(ticket, stage + 1, WholeNode), ticket, Grow(kid.kids, h - 1, side, ticket, stage + 1, key, val));
        NodeFilled(c);
        SpliceFilled(s, i, One(c));
      }
    }
  }

  lemma KidsFilled(t: Tree)
    requires t.Node? && Filled(t)
    ensures AllFilled(t.kids.chs) && |t.kids.chs| >= B
  {
  }

  lemma NodeFilled(t: Tree)
    requires t.Node? && AllFilled(t.kids.chs)
    ensures |t.kids.chs| >= B ==> Filled(t)
    ensures |t.kids.chs| >= 2 ==> FilledRoot(t)
  {
  }

  lemma {:induction false} HalvesFilled(kids: Seg, h: nat, side: Side, ticket: nat, stage: nat, key: Key, val: Val, lo: nat, hi: nat)
    requires |kids.keys| == MAX_KEYS && Fits(kids, side, lo, hi, h) && lo <= key < hi && AllFilled(kids.chs)
    ensures AllFilled(Halves(kids, h, side, ticket, stage, key, val).chs)
    decreases h, 1
  {
    hide Fits, Filled;
    KidsCount(kids, side, lo, hi, h);
    var sep := kids.keys[B-1];
    var l, r := Before(kids, B-1), After(kids, B-1);
    SplitFits(kids, B-1, side, lo, hi, h);
    if key < sep {
      GrowFilled(l, h, side, ticket, stage, key, val, lo, sep);
    } else {
      GrowFilled(r, h, side, ticket, stage, key, val, sep, hi);
    }
    var c := Halves(kids, h, side, ticket, stage, key, val);
    NodeFilled(c.chs[0]);
    NodeFilled(c.chs[1]);
  }

  lemma KidsCount(s: Seg, side: Side, lo: nat, hi: nat, h: nat)
    requires Fits(s, side, lo, hi, h)
    ensures |s.chs| == |s.keys| + 1
  {
  }

  /** However a tree is updated, its nodes stay filled, so the height bound
      keeps holding. */
  lemma CowFilled(t: Tree, h: nat, side: Side, ticket: nat, key: Key, val: Val, hi: nat)
    requires Wf(t, side, 0, hi, h) && key < hi && FilledRoot(t)
    ensures FilledRoot(Cow(t, h, side, ticket, key, val))
  {
    hide Filled, Grow, Halves, ReplaceLeaf;
    if t.Leaf? {
      RunFilled(t, side, ticket, 0, key, val, 0, hi);
      LeafRoot(ReplaceLeaf(t, side, ticket, 0, key, val), ticket, t, side, key, val);
    } else if |t.kids.keys| == MAX_KEYS {
      HalvesFilled(t.kids, h - 1, side, ticket, 0, key, val, 0, hi);
      NodeFilled(Wrap(Halves(t.kids, h - 1, side, ticket, 0, key, val), ticket));
    } else {
      GrowFilled(t.kids, h - 1, side, ticket, 0, key, val, 0, hi);
      NodeFilled(Node(New(ticket, 0, WholeNode), ticket, Grow(t.kids, h - 1, side, ticket, 0, key, val)));
    }
  }

  lemma LeafRoot(r: Seg, ticket: nat, t: Tree, side: Side, key: Key, val: Val)
    requires t.Leaf? && |t.keys| == |t.vals| && r == ReplaceLeaf(t, side, ticket, 0, key, val) && (|r.chs| == 2 ==> AllFilled(r.chs))
    ensures FilledRoot(Wrap(r, ticket))
  {
  }
}
