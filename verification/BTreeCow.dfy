/** Path-copying update of a B+Tree: preemptive splits on the way down,
    materialization of the leaf, and what it keeps, changes and retires. */
module BTreeCow {
  import opened Options
  import opened Records
  import opened Nodes
  import opened BTree

  /** The siblings from separator i on, glued behind a run. */
  function Tail(s: Seg, i: nat, r: Seg): Seg
    requires i < |s.chs| == |s.keys| + 1
  {
    if i < |s.keys| then Join(r, s.keys[i], After(s, i)) else r
  }

  /** Replacing child i by a run of siblings. */
  function Splice(s: Seg, i: nat, r: Seg): Seg
    requires i < |s.chs| == |s.keys| + 1
  {
    if i > 0 then Join(Before(s, i-1), s.keys[i-1], Tail(s, i, r)) else Tail(s, i, r)
  }

  /** With one or two nodes this is a child store, or insert_child. */
  lemma SpliceSlices(s: Seg, i: nat, r: Seg)
    requires i < |s.chs| == |s.keys| + 1 && |r.chs| == |r.keys| + 1
    ensures Splice(s, i, r).keys == s.keys[..i] + r.keys + s.keys[i..]
    ensures Splice(s, i, r).chs == s.chs[..i] + r.chs + s.chs[i+1..]
  {
    assert i < |s.keys| ==> s.keys[i..] == [s.keys[i]] + s.keys[i+1..];
    assert i > 0 ==> s.keys[..i] == s.keys[..i-1] + [s.keys[i-1]];
    assert Splice(s, i, r).keys == s.keys[..i] + r.keys + s.keys[i..];
    assert Splice(s, i, r).chs == s.chs[..i] + r.chs + s.chs[i+1..];
  }

  /** Sorted records as one leaf, or as two halves when they are too many. */
  function RunOf(keys: seq<Key>, vals: seq<Val>, ticket: nat, stage: nat): (r: Seg)
    requires |keys| == |vals|
    ensures 1 <= |r.chs| <= 2 && |r.chs| == |r.keys| + 1
  {
    if |keys| <= MAX_KEYS then
      One(Leaf(New(ticket, stage, WholeLeaf), ticket, keys, vals))
    else
      var n := |keys| / 2;
      Two(Leaf(New(ticket, stage, LeftLeaf), ticket, keys[..n], vals[..n]), keys[n],
          Leaf(New(ticket, stage, RightLeaf), ticket, keys[n..], vals[n..]))
  }

  /** The leaf run that stands for a map. */
  function LeafRun(m: map<Key, Val>, ticket: nat, stage: nat): (r: Seg)
    ensures 1 <= |r.chs| <= 2 && |r.chs| == |r.keys| + 1
  {
    AscendingIn(m.Keys);
    RunOf(Ascending(m.Keys), ValuesOf(m, Ascending(m.Keys)), ticket, stage)
  }

  lemma AscendingIn(s: set<Key>)
    ensures forall i :: 0 <= i < |Ascending(s)| ==> Ascending(s)[i] in s
  {
    forall i | 0 <= i < |Ascending(s)| ensures Ascending(s)[i] in s {
      assert Ascending(s)[i] in KeySet(Ascending(s));
    }
  }

  function ReplaceLeaf(t: Tree, side: Side, ticket: nat, stage: nat, key: Key, val: Val): (r: Seg)
    requires t.Leaf? && |t.keys| == |t.vals|
    ensures 1 <= |r.chs| <= 2 && |r.chs| == |r.keys| + 1
  {
    LeafRun(LeafView(t.keys, t.vals, SlotsAt(side, t.id), ticket)[key := val], ticket, stage)
  }

  /** The children of a copied, non-full node after the update below it; h is
      the number of levels below those children. */
  function Grow(s: Seg, h: nat, side: Side, ticket: nat, stage: nat, key: Key, val: Val): Seg
    decreases h, 0
  {
    var i := FindCh(s.keys, key);
    if |s.chs| != |s.keys| + 1 then s else
    var kid := s.chs[i];
    match kid
    case Leaf(_, _, keys, vals) =>
      if |keys| == |vals| then Splice(s, i, ReplaceLeaf(kid, side, ticket, stage + 1, key, val)) else s
    case Node(_, _, kids) =>
      if h == 0 || |kids.chs| != |kids.keys| + 1 then s
      else if |kids.keys| == MAX_KEYS then
        Splice(s, i, Halves(kids, h - 1, side, ticket, stage + 1, key, val))
      else
        Splice(s, i, One(Node(New(ticket, stage + 1, WholeNode), ticket, Grow(kids, h - 1, side, ticket, stage + 1, key, val))))
  }

  /** A full node's children split around the middle separator, with the
      update applied to the half it belongs to. */
  function Halves(kids: Seg, h: nat, side: Side, ticket: nat, stage: nat, key: Key, val: Val): (r: Seg)
    requires |kids.keys| == MAX_KEYS && |kids.chs| == |kids.keys| + 1
    ensures |r.chs| == 2 && |r.keys| == 1
    decreases h, 1
  {
    var sep := kids.keys[B-1];
    var l, r := Before(kids, B-1), After(kids, B-1);
    var l', r' := if key < sep then Grow(l, h, side, ticket, stage, key, val) else l,
                  if key < sep then r else Grow(r, h, side, ticket, stage, key, val);
    Two(Node(New(ticket, stage, LeftHalf), ticket, l'), sep, Node(New(ticket, stage, RightHalf), ticket, r'))
  }

  function Wrap(r: Seg, ticket: nat): Tree
    requires |r.chs| >= 1
  {
    if |r.chs| == 1 then r.chs[0] else Node(New(ticket, 0, Root), ticket, r)
  }

  /** The whole update; h is the height of the tree. */
  function Cow(t: Tree, h: nat, side: Side, ticket: nat, key: Key, val: Val): Tree {
    match t
    case Leaf(_, _, keys, vals) => if |keys| == |vals| then Wrap(ReplaceLeaf(t, side, ticket, 0, key, val), ticket) else t
    case Node(_, _, kids) =>
      if h == 0 || |kids.chs| != |kids.keys| + 1 then t
      else if |kids.keys| == MAX_KEYS then Wrap(Halves(kids, h - 1, side, ticket, 0, key, val), ticket)
      else Node(New(ticket, 0, WholeNode), ticket, Grow(kids, h - 1, side, ticket, 0, key, val))
  }

  // ---- splicing -----------------------------------------------------------

  lemma TailFits(s: Seg, i: nat, r: Seg, side: Side, lo: nat, hi: nat, h: nat)
    requires Fits(s, side, lo, hi, h) && i < |s.chs|
    requires Fits(r, side, LoAt(s.keys, lo, i), HiAt(s.keys, hi, i), h)
    ensures Fits(Tail(s, i, r), side, LoAt(s.keys, lo, i), hi, h)
  {
    if i < |s.keys| {
      SplitFits(s, i, side, lo, hi, h);
      assert i > 0 ==> s.keys[i-1] < s.keys[i];
      JoinFits(r, s.keys[i], After(s, i), side, LoAt(s.keys, lo, i), hi, h);
    }
  }

  lemma SpliceFits(s: Seg, i: nat, r: Seg, side: Side, lo: nat, hi: nat, h: nat)
    requires Fits(s, side, lo, hi, h) && i < |s.chs|
    requires Fits(r, side, LoAt(s.keys, lo, i), HiAt(s.keys, hi, i), h)
    ensures Fits(Splice(s, i, r), side, lo, hi, h)
  {
    TailFits(s, i, r, side, lo, hi, h);
    if i > 0 {
      SplitFits(s, i - 1, side, lo, hi, h);
      JoinFits(Before(s, i-1), s.keys[i-1], Tail(s, i, r), side, lo, hi, h);
    }
  }

  lemma TailGet(s: Seg, i: nat, r: Seg, side: Side, lo: nat, hi: nat, h: nat, version: nat, k: Key)
    requires Fits(s, side, lo, hi, h) && i < |s.chs| && LoAt(s.keys, lo, i) <= k < hi
    requires Fits(r, side, LoAt(s.keys, lo, i), HiAt(s.keys, hi, i), h)
    ensures SegGet(Tail(s, i, r), side, version, k)
            == if k < HiAt(s.keys, hi, i) then SegGet(r, side, version, k) else SegGet(s, side, version, k)
  {
    if i < |s.keys| {
      TailFits(s, i, r, side, lo, hi, h);
      SplitFits(s, i, side, lo, hi, h);
      JoinGet(r, s.keys[i], After(s, i), side, version, k);
      JoinGet(Before(s, i), s.keys[i], After(s, i), side, version, k);
    }
  }

  /** Only the keys of child i see the replacement. */
  lemma SpliceGet(s: Seg, i: nat, r: Seg, side: Side, lo: nat, hi: nat, h: nat, version: nat, k: Key)
    requires Fits(s, side, lo, hi, h) && i < |s.chs| && lo <= k < hi
    requires Fits(r, side, LoAt(s.keys, lo, i), HiAt(s.keys, hi, i), h)
    ensures SegGet(Splice(s, i, r), side, version, k)
            == if LoAt(s.keys, lo, i) <= k < HiAt(s.keys, hi, i) then SegGet(r, side, version, k) else SegGet(s, side, version, k)
  {
    SpliceFits(s, i, r, side, lo, hi, h);
    if LoAt(s.keys, lo, i) <= k {
      TailGet(s, i, r, side, lo, hi, h, version, k);
    }
    if i > 0 {
      SplitFits(s, i - 1, side, lo, hi, h);
      JoinGet(Before(s, i-1), s.keys[i-1], Tail(s, i, r), side, version, k);
      JoinGet(Before(s, i-1), s.keys[i-1], After(s, i-1), side, version, k);
    }
  }

  // ---- the replaced leaf --------------------------------------------------

  /** The ticket's nodes are new, and every slot is older than the ticket. */
  ghost predicate Below(side: Side, ticket: nat) {
    && (forall id :: id in side ==> !(id.New? && id.ticket == ticket))
    && (forall id, i :: id in side && 0 <= i < |side[id]| ==> side[id][i].version < ticket)
  }

  lemma {:induction false} KeySetSize(s: seq<Key>)
    ensures |KeySet(s)| <= |s|
  {
    if s == [] {
      assert KeySet(s) == {};
    } else {
      var n := |s| - 1;
      KeySetSize(s[..n]);
      assert s == s[..n] + [s[n]];
      assert KeySet(s) == KeySet(s[..n]) + {s[n]};
    }
  }

  lemma SlotKeysSize(slots: seq<Slot>, version: nat)
    ensures |SlotKeys(slots, version)| <= |slots|
  {
    var ks := seq(|slots|, i requires 0 <= i < |slots| => slots[i].key);
    KeySetSize(ks);
    forall k | k in SlotKeys(slots, version) ensures k in KeySet(ks) {
      var i :| 0 <= i < |slots| && slots[i].version <= version && slots[i].key == k;
      assert ks[i] == k;
    }
    SubsetSize(SlotKeys(slots, version), KeySet(ks));
  }

  lemma SubsetSize(a: set<Key>, b: set<Key>)
    requires a <= b
    ensures |a| <= |b|
  {
    assert b == a + (b - a);
  }

  /** A leaf's view has keys of its range, and no more of them than records. */
  lemma ViewBounds(t: Tree, side: Side, version: nat, lo: nat, hi: nat)
    requires t.Leaf? && Wf(t, side, lo, hi, 0)
    ensures var m := LeafView(t.keys, t.vals, SlotsAt(side, t.id), version);
            && |m| <= MAX_KEYS + MAX_SLOTS
            && KeySet(t.keys) <= m.Keys
            && (forall k :: k in m ==> lo <= k < hi)
  {
    var slots := SlotsAt(side, t.id);
    BaseKeys(t.keys, t.vals);
    OverlayKeys(Base(t.keys, t.vals), slots, version);
    KeySetSize(t.keys);
    SlotKeysSize(slots, version);
    var m := LeafView(t.keys, t.vals, slots, version);
    assert |m| == |m.Keys|;
    assert m.Keys == KeySet(t.keys) + SlotKeys(slots, version);
    assert |m.Keys| <= |KeySet(t.keys)| + |SlotKeys(slots, version)|;
  }

  lemma {:induction false} BaseOf(m: map<Key, Val>, keys: seq<Key>)
    requires KeySet(keys) == m.Keys && Sorted(keys)
    requires forall i :: 0 <= i < |keys| ==> keys[i] in m
    ensures Base(keys, ValuesOf(m, keys)) == m
  {
    var vals := ValuesOf(m, keys);
    BaseKeys(keys, vals);
    forall k | k in m ensures Base(keys, vals)[k] == m[k] {
      assert k in KeySet(keys);
      var i :| 0 <= i < |keys| && keys[i] == k;
    }
  }

  lemma LookupIn(keys: seq<Key>, vals: seq<Val>, i: nat)
    requires |keys| == |vals| && Sorted(keys) && i < |keys|
    ensures Lookup(Base(keys, vals), keys[i]) == Some(vals[i])
  {
    BaseKeys(keys, vals);
    assert keys[i] in KeySet(keys);
  }

  lemma LookupOut(keys: seq<Key>, vals: seq<Val>, k: Key)
    requires |keys| == |vals| && k !in keys
    ensures Lookup(Base(keys, vals), k) == None
  {
    BaseKeys(keys, vals);
    assert k !in KeySet(keys);
  }

  /** Cutting sorted records in two cuts their map at the separator. */
  lemma BaseCut(keys: seq<Key>, vals: seq<Val>, n: nat, k: Key)
    requires |keys| == |vals| && Sorted(keys) && n < |keys|
    ensures Lookup(Base(keys, vals), k)
            == if k < keys[n] then Lookup(Base(keys[..n], vals[..n]), k) else Lookup(Base(keys[n..], vals[n..]), k)
  {
    if k in keys {
      var i :| 0 <= i < |keys| && keys[i] == k;
      LookupIn(keys, vals, i);
      if i < n {
        LookupIn(keys[..n], vals[..n], i);
        assert keys[i] < keys[n];
      } else {
        LookupIn(keys[n..], vals[n..], i - n);
        assert i > n ==> keys[n] < keys[i];
      }
    } else {
      LookupOut(keys, vals, k);
      LookupOut(keys[..n], vals[..n], k);
      LookupOut(keys[n..], vals[n..], k);
    }
  }

  lemma NewLeafOk(id: Id, ticket: nat, keys: seq<Key>, vals: seq<Val>, side: Side, lo: nat, hi: nat)
    requires LeafOk(keys, vals, lo, hi) && lo < hi && Below(side, ticket) && id.New? && id.ticket == ticket
    ensures Wf(Leaf(id, ticket, keys, vals), side, lo, hi, 0)
    ensures forall version, k :: Get(Leaf(id, ticket, keys, vals), side, version, k) == Lookup(Base(keys, vals), k)
  {
    assert SlotsAt(side, id) == [];
  }

  lemma LeafRunOk(m: map<Key, Val>, ticket: nat, stage: nat, side: Side, lo: nat, hi: nat, version: nat, k: Key)
    requires 1 <= |m| <= 2 * MAX_KEYS && (forall k :: k in m ==> lo <= k < hi) && Below(side, ticket)
    ensures Fits(LeafRun(m, ticket, stage), side, lo, hi, 0)
    ensures SegGet(LeafRun(m, ticket, stage), side, version, k) == Lookup(m, k)
  {
    var ks := Ascending(m.Keys);
    AscendingIn(m.Keys);
    var vs := ValuesOf(m, ks);
    BaseOf(m, ks);
    assert |ks| == |m.Keys| == |m|;
    RunOfOk(ks, vs, ticket, stage, side, lo, hi, version, k);
  }

  lemma RunOfOk(keys: seq<Key>, vals: seq<Val>, ticket: nat, stage: nat, side: Side, lo: nat, hi: nat, version: nat, k: Key)
    requires 1 <= |keys| == |vals| <= 2 * MAX_KEYS && Sorted(keys) && Within(keys, lo, hi) && Below(side, ticket)
    ensures Fits(RunOf(keys, vals, ticket, stage), side, lo, hi, 0)
    ensures SegGet(RunOf(keys, vals, ticket, stage), side, version, k) == Lookup(Base(keys, vals), k)
  {
    if |keys| <= MAX_KEYS {
      WholeLeafOk(New(ticket, stage, WholeLeaf), ticket, keys, vals, side, lo, hi, version, k);
    } else {
      SplitLeafOk(ticket, stage, keys, vals, side, lo, hi, version, k);
    }
  }

  lemma WholeLeafOk(id: Id, ticket: nat, keys: seq<Key>, vals: seq<Val>, side: Side, lo: nat, hi: nat, version: nat, k: Key)
    requires LeafOk(keys, vals, lo, hi) && keys != [] && Below(side, ticket) && id.New? && id.ticket == ticket
    ensures Fits(One(Leaf(id, ticket, keys, vals)), side, lo, hi, 0)
    ensures SegGet(One(Leaf(id, ticket, keys, vals)), side, version, k) == Lookup(Base(keys, vals), k)
  {
    assert lo <= keys[0] < hi;
    var t := Leaf(id, ticket, keys, vals);
    NewLeafOk(id, ticket, keys, vals, side, lo, hi);
    OneFits(t, side, lo, hi, 0);
    TwoGet(t, 0, t, side, version, k);
  }

  lemma SplitLeafOk(ticket: nat, stage: nat, keys: seq<Key>, vals: seq<Val>, side: Side, lo: nat, hi: nat, version: nat, k: Key)
    requires MAX_KEYS < |keys| == |vals| <= 2 * MAX_KEYS && Sorted(keys) && Within(keys, lo, hi) && Below(side, ticket)
    ensures var n := |keys| / 2;
            var r := Two(Leaf(New(ticket, stage, LeftLeaf), ticket, keys[..n], vals[..n]), keys[n],
                         Leaf(New(ticket, stage, RightLeaf), ticket, keys[n..], vals[n..]));
            && Fits(r, side, lo, hi, 0)
            && SegGet(r, side, version, k) == Lookup(Base(keys, vals), k)
  {
    var n := |keys| / 2;
    var l, r := New(ticket, stage, LeftLeaf), New(ticket, stage, RightLeaf);
    BaseCut(keys, vals, n, k);
    assert lo <= keys[0] < keys[n] < hi;
    NewLeafOk(l, ticket, keys[..n], vals[..n], side, lo, keys[n]);
    NewLeafOk(r, ticket, keys[n..], vals[n..], side, keys[n], hi);
    TwoFits(Leaf(l, ticket, keys[..n], vals[..n]), keys[n], Leaf(r, ticket, keys[n..], vals[n..]), side, lo, hi, 0);
    TwoGet(Leaf(l, ticket, keys[..n], vals[..n]), keys[n], Leaf(r, ticket, keys[n..], vals[n..]), side, version, k);
  }

  lemma ReplaceLeafOk(t: Tree, side: Side, ticket: nat, stage: nat, key: Key, val: Val, lo: nat, hi: nat,
                      version: nat, k: Key)
    requires t.Leaf? && Wf(t, side, lo, hi, 0) && lo <= key < hi && Below(side, ticket) && ticket <= version
    ensures Fits(ReplaceLeaf(t, side, ticket, stage, key, val), side, lo, hi, 0)
    ensures SegGet(ReplaceLeaf(t, side, ticket, stage, key, val), side, version, k)
            == if k == key then Some(val) else Get(t, side, version, k)
  {
    var slots := SlotsAt(side, t.id);
    var m := LeafView(t.keys, t.vals, slots, ticket);
    ViewBounds(t, side, ticket, lo, hi);
    assert |m[key := val]| <= |m| + 1 by {
      assert m[key := val].Keys == m.Keys + {key};
      assert |m[key := val].Keys| == |m[key := val]| && |m.Keys| == |m|;
    }
    assert key in m[key := val];
    LeafRunOk(m[key := val], ticket, stage, side, lo, hi, version, k);
    OverlayAll(Base(t.keys, t.vals), slots, ticket, version);
  }

  // ---- the descent --------------------------------------------------------

  /** What one replaced child has to be for its parent. */
  ghost predicate Updates(r: Seg, prior: Seg, side: Side, lo: nat, hi: nat, h: nat, key: Key, val: Val, version: nat, k: Key) {
    && Fits(r, side, lo, hi, h)
    && (lo <= k < hi ==> SegGet(r, side, version, k) == if k == key then Some(val) else SegGet(prior, side, version, k))
  }

  lemma SpliceUpdates(s: Seg, i: nat, r: Seg, side: Side, lo: nat, hi: nat, h: nat, key: Key, val: Val, version: nat, k: Key)
    requires Fits(s, side, lo, hi, h) && i < |s.chs| && LoAt(s.keys, lo, i) <= key < HiAt(s.keys, hi, i)
    requires Updates(r, One(s.chs[i]), side, LoAt(s.keys, lo, i), HiAt(s.keys, hi, i), h, key, val, version, k)
    ensures Updates(Splice(s, i, r), s, side, lo, hi, h, key, val, version, k)
    ensures |Splice(s, i, r).keys| == |s.keys| + |r.keys|
  {
    SpliceFits(s, i, r, side, lo, hi, h);
    SpliceSlices(s, i, r);
    if lo <= k < hi {
      SpliceGet(s, i, r, side, lo, hi, h, version, k);
      if LoAt(s.keys, lo, i) <= k < HiAt(s.keys, hi, i) {
        FindChIs(s.keys, k, i, lo, hi);
        TwoGet(s.chs[i], 0, s.chs[i], side, version, k);
      }
    }
  }

  lemma KidWf(s: Seg, side: Side, lo: nat, hi: nat, h: nat, key: Key)
    requires Fits(s, side, lo, hi, h) && lo <= key < hi
    ensures var i := FindCh(s.keys, key);
            && i < |s.chs| == |s.keys| + 1
            && LoAt(s.keys, lo, i) <= key < HiAt(s.keys, hi, i)
            && var kid, klo, khi := s.chs[i], LoAt(s.keys, lo, i), HiAt(s.keys, hi, i);
               && Wf(kid, side, klo, khi, h)
               && (kid.Leaf? ==> h == 0 && |kid.keys| == |kid.vals|)
               && (kid.Node? ==> h > 0 && |kid.kids.chs| == |kid.kids.keys| + 1 && 1 <= |kid.kids.keys| <= MAX_KEYS
                                 && Fits(kid.kids, side, klo, khi, h - 1))
  {
    var i := FindCh(s.keys, key);
    var kid, klo, khi := s.chs[i], LoAt(s.keys, lo, i), HiAt(s.keys, hi, i);
    assert Wf(kid, side, klo, khi, h);
    if kid.Node? {
      assert Fits(kid.kids, side, klo, khi, h - 1);
    }
  }

  lemma CopyUpdates(id: Id, ticket: nat, g: Seg, kid: Tree, side: Side, lo: nat, hi: nat, h: nat, key: Key, val: Val,
                    version: nat, k: Key)
    requires kid.Node? && Updates(g, kid.kids, side, lo, hi, h, key, val, version, k)
    requires 1 <= |g.keys| <= MAX_KEYS && id.New? && id.ticket == ticket
    ensures Updates(One(Node(id, ticket, g)), One(kid), side, lo, hi, h + 1, key, val, version, k)
  {
    var n := Node(id, ticket, g);
    OneFits(n, side, lo, hi, h + 1);
    TwoGet(n, 0, n, side, version, k);
    TwoGet(kid, 0, kid, side, version, k);
  }

  lemma LeafUpdates(t: Tree, side: Side, ticket: nat, stage: nat, key: Key, val: Val, lo: nat, hi: nat, version: nat, k: Key)
    requires t.Leaf? && Wf(t, side, lo, hi, 0) && lo <= key < hi && Below(side, ticket) && ticket <= version
    ensures Updates(ReplaceLeaf(t, side, ticket, stage, key, val), One(t), side, lo, hi, 0, key, val, version, k)
  {
    hide ReplaceLeaf, Fits;
    ReplaceLeafOk(t, side, ticket, stage, key, val, lo, hi, version, k);
    TwoGet(t, 0, t, side, version, k);
  }

  lemma OneUpdates(r: Seg, kid: Tree, side: Side, lo: nat, hi: nat, h: nat, key: Key, val: Val, version: nat, k: Key)
    requires kid.Node? && Updates(r, kid.kids, side, lo, hi, h, key, val, version, k)
    ensures Updates(r, One(kid), side, lo, hi, h, key, val, version, k)
  {
    hide Fits;
    TwoGet(kid, 0, kid, side, version, k);
  }

  /** The descent keeps the tree well-formed and changes exactly one key, for
      every snapshot that includes the ticket. */
  lemma {:induction false} GrowOk(s: Seg, h: nat, side: Side, ticket: nat, stage: nat, key: Key, val: Val,
                                  lo: nat, hi: nat, version: nat, k: Key)
    requires Fits(s, side, lo, hi, h) && lo <= key < hi && Below(side, ticket) && ticket <= version
    ensures var g := Grow(s, h, side, ticket, stage, key, val);
            Updates(g, s, side, lo, hi, h, key, val, version, k) && |s.keys| <= |g.keys| <= |s.keys| + 1
    decreases h, 0
  {
    hide Fits, Updates, Splice, ReplaceLeaf, Halves, Get, Below;
    KidWf(s, side, lo, hi, h, key);
    var i := FindCh(s.keys, key);
    var kid := s.chs[i];
    var klo, khi := LoAt(s.keys, lo, i), HiAt(s.keys, hi, i);
    if kid.Leaf? {
      LeafUpdates(kid, side, ticket, stage + 1, key, val, klo, khi, version, k);
      SpliceUpdates(s, i, ReplaceLeaf(kid, side, ticket, stage + 1, key, val), side, lo, hi, h, key, val, version, k);
    } else if |kid.kids.keys| == MAX_KEYS {
      HalvesOk(kid.kids, h - 1, side, ticket, stage + 1, key, val, klo, khi, version, k);
      var r := Halves(kid.kids, h - 1, side, ticket, stage + 1, key, val);
      OneUpdates(r, kid, side, klo, khi, h, key, val, version, k);
      SpliceUpdates(s, i, r, side, lo, hi, h, key, val, version, k);
    } else {
      GrowOk(kid.kids, h - 1, side, ticket, stage + 1, key, val, klo, khi, version, k);
      var g := Grow(kid.kids, h - 1, side, ticket, stage + 1, key, val);
      CopyUpdates(New(ticket, stage + 1, WholeNode), ticket, g, kid, side, klo, khi, h - 1, key, val, version, k);
      SpliceUpdates(s, i, One(Node(New(ticket, stage + 1, WholeNode), ticket, g)), side, lo, hi, h, key, val, version, k);
    }
  }

  lemma {:induction false} HalvesOk(kids: Seg, h: nat, side: Side, ticket: nat, stage: nat, key: Key, val: Val,
                                    lo: nat, hi: nat, version: nat, k: Key)
    requires |kids.keys| == MAX_KEYS && Fits(kids, side, lo, hi, h)
    requires lo <= key < hi && Below(side, ticket) && ticket <= version
    ensures Updates(Halves(kids, h, side, ticket, stage, key, val), kids, side, lo, hi, h + 1, key, val, version, k)
    decreases h, 1
  {
    var sep := kids.keys[B-1];
    var l, r := Before(kids, B-1), After(kids, B-1);
    SplitFits(kids, B-1, side, lo, hi, h);
    JoinGet(l, sep, r, side, version, k);
    var h' := Halves(kids, h, side, ticket, stage, key, val);
    if key < sep {
      GrowOk(l, h, side, ticket, stage, key, val, lo, sep, version, k);
    } else {
      GrowOk(r, h, side, ticket, stage, key, val, sep, hi, version, k);
    }
    TwoGet(h'.chs[0], sep, h'.chs[1], side, version, k);
    TwoFits(h'.chs[0], sep, h'.chs[1], side, lo, hi, h + 1);
  }

  lemma WrapOk(r: Seg, ticket: nat, side: Side, lo: nat, hi: nat, h: nat, version: nat, k: Key)
    requires Fits(r, side, lo, hi, h) && 1 <= |r.chs| <= 2
    ensures Wf(Wrap(r, ticket), side, lo, hi, if |r.chs| == 1 then h else h + 1)
    ensures Get(Wrap(r, ticket), side, version, k) == SegGet(r, side, version, k)
  {
    if |r.chs| == 1 {
      assert r == One(r.chs[0]);
      TwoGet(r.chs[0], 0, r.chs[0], side, version, k);
    }
  }

  /** The height after an update. */
  function CowHeight(t: Tree, h: nat, side: Side, ticket: nat, key: Key, val: Val): nat {
    match t
    case Leaf(_, _, keys, vals) =>
      if |keys| == |vals| && |ReplaceLeaf(t, side, ticket, 0, key, val).chs| == 2 then h + 1 else h
    case Node(_, _, kids) => if |kids.keys| == MAX_KEYS then h + 1 else h
  }

  /** A path-copying update yields a well-formed tree whose snapshots from the
      ticket on are the old ones with exactly the updated key changed. */
  lemma CowOk(t: Tree, h: nat, side: Side, ticket: nat, key: Key, val: Val, hi: nat, version: nat, k: Key)
    requires Wf(t, side, 0, hi, h) && key < hi && k < hi && Below(side, ticket) && ticket <= version
    ensures Wf(Cow(t, h, side, ticket, key, val), side, 0, hi, CowHeight(t, h, side, ticket, key, val))
    ensures Get(Cow(t, h, side, ticket, key, val), side, version, k) == if k == key then Some(val) else Get(t, side, version, k)
  {
    if t.Leaf? {
      CowLeafOk(t, h, side, ticket, key, val, hi, version, k);
    } else if |t.kids.keys| == MAX_KEYS {
      CowHalvesOk(t, h, side, ticket, key, val, hi, version, k);
    } else {
      CowCopyOk(t, h, side, ticket, key, val, hi, version, k);
    }
  }

  lemma CowLeafOk(t: Tree, h: nat, side: Side, ticket: nat, key: Key, val: Val, hi: nat, version: nat, k: Key)
    requires t.Leaf?
    requires Wf(t, side, 0, hi, h) && key < hi && k < hi && Below(side, ticket) && ticket <= version
    ensures Wf(Cow(t, h, side, ticket, key, val), side, 0, hi, CowHeight(t, h, side, ticket, key, val))
    ensures Get(Cow(t, h, side, ticket, key, val), side, version, k) == if k == key then Some(val) else Get(t, side, version, k)
  {
    ReplaceLeafOk(t, side, ticket, 0, key, val, 0, hi, version, k);
    WrapOk(ReplaceLeaf(t, side, ticket, 0, key, val), ticket, side, 0, hi, 0, version, k);
  }

  lemma CowHalvesOk(t: Tree, h: nat, side: Side, ticket: nat, key: Key, val: Val, hi: nat, version: nat, k: Key)
    requires t.Node? && |t.kids.keys| == MAX_KEYS
    requires Wf(t, side, 0, hi, h) && key < hi && k < hi && Below(side, ticket) && ticket <= version
    ensures Wf(Cow(t, h, side, ticket, key, val), side, 0, hi, h + 1)
    ensures Get(Cow(t, h, side, ticket, key, val), side, version, k) == if k == key then Some(val) else Get(t, side, version, k)
  {
    HalvesOk(t.kids, h - 1, side, ticket, 0, key, val, 0, hi, version, k);
    WrapOk(Halves(t.kids, h - 1, side, ticket, 0, key, val), ticket, side, 0, hi, h, version, k);
  }

  lemma CowCopyOk(t: Tree, h: nat, side: Side, ticket: nat, key: Key, val: Val, hi: nat, version: nat, k: Key)
    requires t.Node? && |t.kids.keys| < MAX_KEYS
    requires Wf(t, side, 0, hi, h) && key < hi && k < hi && Below(side, ticket) && ticket <= version
    ensures Wf(Cow(t, h, side, ticket, key, val), side, 0, hi, h)
    ensures Get(Cow(t, h, side, ticket, key, val), side, version, k) == if k == key then Some(val) else Get(t, side, version, k)
  {
    GrowOk(t.kids, h - 1, side, ticket, 0, key, val, 0, hi, version, k);
    var g := Grow(t.kids, h - 1, side, ticket, 0, key, val);
    assert Cow(t, h, side, ticket, key, val) == Node(New(ticket, 0, WholeNode), ticket, g);
  }

  // ---- sharing and retirement ---------------------------------------------

  /** The nodes on the search path, root first: what an update retires. */
  function Path(t: Tree, key: Key): seq<Id>
    decreases t
  {
    match t
    case Leaf(id, _, _, _) => [id]
    case Node(id, _, kids) => [id] + SegPath(kids, key)
  }

  function SegPath(s: Seg, key: Key): seq<Id>
    decreases s
  {
    var i := FindCh(s.keys, key);
    if i < |s.chs| then Path(s.chs[i], key) else []
  }

  /** The nodes under the siblings of child i. */
  function Others(s: Seg, i: nat): set<Id>
    requires i < |s.chs| == |s.keys| + 1
  {
    (if i > 0 then SegIds(Before(s, i-1)) else {}) + (if i < |s.keys| then SegIds(After(s, i)) else {})
  }

  lemma SpliceIds(s: Seg, i: nat, r: Seg)
    requires i < |s.chs| == |s.keys| + 1
    ensures SegIds(Splice(s, i, r)) == Others(s, i) + SegIds(r)
    ensures SegDistinct(s) && SegDistinct(r) && Others(s, i) !! SegIds(r) ==> SegDistinct(Splice(s, i, r))
  {
    if i < |s.keys| {
      JoinIds(r, s.keys[i], After(s, i));
    }
    if i > 0 {
      JoinIds(Before(s, i-1), s.keys[i-1], Tail(s, i, r));
    }
    if SegDistinct(s) && SegDistinct(r) && Others(s, i) !! SegIds(r) {
      OthersDistinct(s, i);
      if i < |s.keys| {
        JoinDistinct(r, s.keys[i], After(s, i));
      }
      if i > 0 {
        JoinDistinct(Before(s, i-1), s.keys[i-1], Tail(s, i, r));
      }
    }
  }

  lemma OthersDistinct(s: Seg, i: nat)
    requires i < |s.chs| == |s.keys| + 1 && SegDistinct(s)
    ensures i > 0 ==> SegDistinct(Before(s, i-1))
    ensures i < |s.keys| ==> SegDistinct(After(s, i))
    ensures 0 < i < |s.keys| ==> SegIds(Before(s, i-1)) !! SegIds(After(s, i))
    ensures SegIds(s) == Others(s, i) + Ids(s.chs[i]) && Others(s, i) !! Ids(s.chs[i])
  {
    var one := One(s.chs[i]);
    OneIds(s.chs[i]);
    SpliceOne(s, i);
    if i > 0 {
      SplitDistinct(Before(s, i-1), s.keys[i-1], Tail(s, i, one));
      JoinIds(Before(s, i-1), s.keys[i-1], Tail(s, i, one));
    }
    TailDistinct(s, i);
  }

  lemma SpliceOne(s: Seg, i: nat)
    requires i < |s.chs| == |s.keys| + 1
    ensures Splice(s, i, One(s.chs[i])) == s
  {
    SpliceSlices(s, i, One(s.chs[i]));
    assert s.keys[..i] + [] + s.keys[i..] == s.keys;
    assert s.chs[..i] + [s.chs[i]] + s.chs[i+1..] == s.chs;
  }

  lemma TailDistinct(s: Seg, i: nat)
    requires i < |s.chs| == |s.keys| + 1 && SegDistinct(Tail(s, i, One(s.chs[i])))
    ensures i < |s.keys| ==> SegDistinct(After(s, i)) && SegIds(After(s, i)) !! Ids(s.chs[i])
    ensures SegIds(Tail(s, i, One(s.chs[i]))) == Ids(s.chs[i]) + (if i < |s.keys| then SegIds(After(s, i)) else {})
  {
    var one := One(s.chs[i]);
    OneIds(s.chs[i]);
    if i < |s.keys| {
      SplitDistinct(one, s.keys[i], After(s, i));
      JoinIds(one, s.keys[i], After(s, i));
    }
  }

  lemma OneIds(t: Tree)
    ensures SegIds(One(t)) == Ids(t)
    ensures SegDistinct(One(t)) <==> Distinct(t)
  {
    assert One(t).chs[0] == t;
  }

  lemma TwoIds(l: Tree, sep: Key, r: Tree)
    ensures SegIds(Two(l, sep, r)) == Ids(l) + Ids(r)
    ensures SegDistinct(Two(l, sep, r)) <==> Distinct(l) && Distinct(r) && Ids(l) !! Ids(r)
  {
    assert Two(l, sep, r).chs[0] == l && Two(l, sep, r).chs[1] == r;
  }

  /** New nodes of a ticket from a stage on. */
  predicate Fresh(id: Id, ticket: nat, stage: nat) {
    id.New? && id.ticket == ticket && id.stage >= stage && id.role != Root
  }

  /** Everything of the old nodes except the path is shared, and what is not
      shared is new. */
  ghost predicate SharesIds(ids: set<Id>, nodes: set<Id>, path: seq<Id>, ticket: nat, stage: nat) {
    && (forall x :: x in ids ==> (x in nodes && x !in path) || Fresh(x, ticket, stage))
    && (forall x :: x in nodes && x !in path ==> x in ids)
  }

  ghost predicate Shares(r: Seg, nodes: set<Id>, path: seq<Id>, ticket: nat, stage: nat) {
    SegDistinct(r) && SharesIds(SegIds(r), nodes, path, ticket, stage)
  }

  ghost predicate NoneOf(nodes: set<Id>, ticket: nat) {
    forall x :: x in nodes ==> !(x.New? && x.ticket == ticket)
  }

  lemma {:induction false} PathIn(t: Tree, key: Key)
    ensures forall x :: x in Path(t, key) ==> x in Ids(t)
    decreases t
  {
    if t.Node? {
      SegPathIn(t.kids, key);
    }
  }

  lemma {:induction false} SegPathIn(s: Seg, key: Key)
    ensures forall x :: x in SegPath(s, key) ==> x in SegIds(s)
    decreases s
  {
    var i := FindCh(s.keys, key);
    if i < |s.chs| {
      PathIn(s.chs[i], key);
      ChildIds(s, i);
    }
  }

  lemma SpliceShares(s: Seg, i: nat, r: Seg, key: Key, ticket: nat, stage: nat)
    requires i < |s.chs| == |s.keys| + 1 && i == FindCh(s.keys, key) && SegDistinct(s) && NoneOf(SegIds(s), ticket)
    requires Shares(r, Ids(s.chs[i]), Path(s.chs[i], key), ticket, stage)
    ensures Shares(Splice(s, i, r), SegIds(s), SegPath(s, key), ticket, stage)
  {
    OthersDistinct(s, i);
    PathIn(s.chs[i], key);
    SpliceIds(s, i, r);
  }

  lemma ReplaceLeafShares(t: Tree, side: Side, ticket: nat, stage: nat, key: Key, val: Val)
    requires t.Leaf? && |t.keys| == |t.vals|
    ensures Shares(ReplaceLeaf(t, side, ticket, stage, key, val), Ids(t), Path(t, key), ticket, stage)
  {
    var r := ReplaceLeaf(t, side, ticket, stage, key, val);
    if |r.chs| == 1 {
      OneIds(r.chs[0]);
      assert r == One(r.chs[0]);
    } else {
      TwoIds(r.chs[0], r.keys[0], r.chs[1]);
      assert r == Two(r.chs[0], r.keys[0], r.chs[1]);
    }
  }

  lemma {:induction false} GrowShares(s: Seg, h: nat, side: Side, ticket: nat, stage: nat, key: Key, val: Val, lo: nat, hi: nat)
    requires Fits(s, side, lo, hi, h) && SegDistinct(s) && NoneOf(SegIds(s), ticket)
    ensures Shares(Grow(s, h, side, ticket, stage, key, val), SegIds(s), SegPath(s, key), ticket, stage + 1)
    decreases h, 0
  {
    var i := FindCh(s.keys, key);
    var kid := s.chs[i];
    var klo, khi := LoAt(s.keys, lo, i), HiAt(s.keys, hi, i);
    assert Wf(kid, side, klo, khi, h) && Distinct(kid);
    ChildIds(s, i);
    if kid.Leaf? {
      ReplaceLeafShares(kid, side, ticket, stage + 1, key, val);
      SpliceShares(s, i, ReplaceLeaf(kid, side, ticket, stage + 1, key, val), key, ticket, stage + 1);
    } else if |kid.kids.keys| == MAX_KEYS {
      HalvesShares(kid, h - 1, side, ticket, stage + 1, key, val, klo, khi);
      SpliceShares(s, i, Halves(kid.kids, h - 1, side, ticket, stage + 1, key, val), key, ticket, stage + 1);
    } else {
      CopyShares(kid, h - 1, side, ticket, stage + 1, key, val, klo, khi);
      SpliceShares(s, i, One(Copy(kid, h - 1, side, ticket, stage + 1, key, val)), key, ticket, stage + 1);
    }
  }

  /** The copy of a non-full internal node. */
  function Copy(t: Tree, h: nat, side: Side, ticket: nat, stage: nat, key: Key, val: Val): Tree
    requires t.Node?
  {
    Node(New(ticket, stage, WholeNode), ticket, Grow(t.kids, h, side, ticket, stage, key, val))
  }

  lemma {:induction false} CopyShares(t: Tree, h: nat, side: Side, ticket: nat, stage: nat, key: Key, val: Val, lo: nat, hi: nat)
    requires t.Node? && Fits(t.kids, side, lo, hi, h) && Distinct(t) && NoneOf(Ids(t), ticket)
    ensures Shares(One(Copy(t, h, side, ticket, stage, key, val)), Ids(t), Path(t, key), ticket, stage)
    decreases h, 1
  {
    GrowShares(t.kids, h, side, ticket, stage, key, val, lo, hi);
    SegPathIn(t.kids, key);
    OneIds(Copy(t, h, side, ticket, stage, key, val));
  }

  lemma {:induction false} HalvesShares(t: Tree, h: nat, side: Side, ticket: nat, stage: nat, key: Key, val: Val, lo: nat, hi: nat)
    requires t.Node? && |t.kids.keys| == MAX_KEYS && Fits(t.kids, side, lo, hi, h) && Distinct(t) && NoneOf(Ids(t), ticket)
    ensures Shares(Halves(t.kids, h, side, ticket, stage, key, val), Ids(t), Path(t, key), ticket, stage)
    decreases h, 1
  {
    var kids := t.kids;
    var sep := kids.keys[B-1];
    var l, r := Before(kids, B-1), After(kids, B-1);
    SplitFits(kids, B-1, side, lo, hi, h);
    SplitDistinct(l, sep, r);
    JoinIds(l, sep, r);
    JoinSegPath(l, sep, r, key);
    if key < sep {
      GrowShares(l, h, side, ticket, stage, key, val, lo, sep);
      LeftShares(t, Grow(l, h, side, ticket, stage, key, val), key, ticket, stage);
    } else {
      GrowShares(r, h, side, ticket, stage, key, val, sep, hi);
      RightShares(t, Grow(r, h, side, ticket, stage, key, val), key, ticket, stage);
    }
  }

  ghost predicate CutAtMiddle(t: Tree, key: Key, ticket: nat) {
    && t.Node? && |t.kids.keys| == MAX_KEYS && |t.kids.chs| == |t.kids.keys| + 1
    && NoneOf(Ids(t), ticket) && t.id !in SegIds(t.kids)
    && var l, r := Before(t.kids, B-1), After(t.kids, B-1);
       SegDistinct(l) && SegDistinct(r) && SegIds(l) !! SegIds(r) && SegIds(t.kids) == SegIds(l) + SegIds(r)
  }

  lemma LeftShares(t: Tree, g: Seg, key: Key, ticket: nat, stage: nat)
    requires CutAtMiddle(t, key, ticket)
    requires SegPath(t.kids, key) == SegPath(Before(t.kids, B-1), key)
    requires Shares(g, SegIds(Before(t.kids, B-1)), SegPath(Before(t.kids, B-1), key), ticket, stage + 1)
    ensures Shares(Two(Node(New(ticket, stage, LeftHalf), ticket, g), t.kids.keys[B-1],
                       Node(New(ticket, stage, RightHalf), ticket, After(t.kids, B-1))), Ids(t), Path(t, key), ticket, stage)
  {
    var a, b := New(ticket, stage, LeftHalf), New(ticket, stage, RightHalf);
    var l, r := Before(t.kids, B-1), After(t.kids, B-1);
    SegPathIn(l, key);
    HalfIds(a, SegIds(g), SegIds(l), SegPath(l, key), b, SegIds(r), t.id, ticket, stage);
    TwoIds(Node(a, ticket, g), t.kids.keys[B-1], Node(b, ticket, r));
  }

  lemma RightShares(t: Tree, g: Seg, key: Key, ticket: nat, stage: nat)
    requires CutAtMiddle(t, key, ticket)
    requires SegPath(t.kids, key) == SegPath(After(t.kids, B-1), key)
    requires Shares(g, SegIds(After(t.kids, B-1)), SegPath(After(t.kids, B-1), key), ticket, stage + 1)
    ensures Shares(Two(Node(New(ticket, stage, LeftHalf), ticket, Before(t.kids, B-1)), t.kids.keys[B-1],
                       Node(New(ticket, stage, RightHalf), ticket, g)), Ids(t), Path(t, key), ticket, stage)
  {
    var a, b := New(ticket, stage, LeftHalf), New(ticket, stage, RightHalf);
    var l, r := Before(t.kids, B-1), After(t.kids, B-1);
    SegPathIn(r, key);
    HalfIds(b, SegIds(g), SegIds(r), SegPath(r, key), a, SegIds(l), t.id, ticket, stage);
    TwoIds(Node(a, ticket, l), t.kids.keys[B-1], Node(b, ticket, g));
    assert {b} + SegIds(g) + ({a} + SegIds(l)) == {a} + SegIds(l) + ({b} + SegIds(g));
  }

  /** One half holds the grown children, the other the untouched ones. */
  lemma HalfIds(grown: Id, gs: set<Id>, nodes: set<Id>, path: seq<Id>, kept: Id, rest: set<Id>, id: Id, ticket: nat, stage: nat)
    requires SharesIds(gs, nodes, path, ticket, stage + 1)
    requires nodes !! rest && id !in nodes + rest && NoneOf(nodes + rest + {id}, ticket)
    requires forall x :: x in path ==> x in nodes
    requires grown != kept && {grown, kept} == {New(ticket, stage, LeftHalf), New(ticket, stage, RightHalf)}
    ensures grown !in gs && kept !in rest && ({grown} + gs) !! ({kept} + rest)
    ensures SharesIds({grown} + gs + ({kept} + rest), {id} + (nodes + rest), [id] + path, ticket, stage)
  {
    assert grown in {grown, kept} && kept in {grown, kept};
  }

  lemma JoinSegPath(a: Seg, sep: Key, b: Seg, key: Key)
    requires |a.chs| == |a.keys| + 1 && |b.chs| == |b.keys| + 1 && Sorted((a.keys + [sep] + b.keys))
    ensures SegPath(Join(a, sep, b), key) == if key < sep then SegPath(a, key) else SegPath(b, key)
  {
    var s := Join(a, sep, b);
    if key < sep {
      var i := FindCh(a.keys, key);
      JoinPosition(a.keys, sep, b.keys, key, i);
      assert s.chs[i] == a.chs[i];
    } else {
      var i := FindCh(b.keys, key);
      JoinPosition(a.keys, sep, b.keys, key, |a.keys| + 1 + i);
      assert s.chs[|a.keys|+1+i] == b.chs[i];
    }
  }

  /** Retiring is exact: the new tree shares every node of the old one but the
      search path, all its other nodes are new, and no node occurs twice. */
  lemma CowShares(t: Tree, h: nat, side: Side, ticket: nat, key: Key, val: Val, hi: nat)
    requires Wf(t, side, 0, hi, h) && Distinct(t) && NoneOf(Ids(t), ticket)
    ensures var c := Cow(t, h, side, ticket, key, val);
            && Distinct(c)
            && (forall x :: x in Ids(t) - Ids(c) <==> x in Path(t, key))
            && (forall x :: x in Ids(c) - Ids(t) ==> x.New? && x.ticket == ticket)
  {
    PathIn(t, key);
    if t.Leaf? {
      ReplaceLeafShares(t, side, ticket, 0, key, val);
      WrapShares(ReplaceLeaf(t, side, ticket, 0, key, val), t, key, ticket);
    } else if |t.kids.keys| == MAX_KEYS {
      HalvesShares(t, h - 1, side, ticket, 0, key, val, 0, hi);
      WrapShares(Halves(t.kids, h - 1, side, ticket, 0, key, val), t, key, ticket);
    } else {
      CopyShares(t, h - 1, side, ticket, 0, key, val, 0, hi);
      OneIds(Copy(t, h - 1, side, ticket, 0, key, val));
    }
  }

  lemma WrapShares(r: Seg, t: Tree, key: Key, ticket: nat)
    requires Shares(r, Ids(t), Path(t, key), ticket, 0) && NoneOf(Ids(t), ticket) && 1 <= |r.chs| <= 2
    requires forall x :: x in Path(t, key) ==> x in Ids(t)
    ensures var c := Wrap(r, ticket);
            && Distinct(c)
            && (forall x :: x in Ids(t) - Ids(c) <==> x in Path(t, key))
            && (forall x :: x in Ids(c) - Ids(t) ==> x.New? && x.ticket == ticket)
  {
    if |r.chs| == 1 {
      OneIds(r.chs[0]);
      assert SegIds(r) == SegIds(One(r.chs[0])) by { assert r.chs == One(r.chs[0]).chs; }
    } else {
      assert !Fresh(New(ticket, 0, Root), ticket, 0);
    }
  }

  /** The retired path names no node twice. */
  lemma {:induction false} PathOnce(t: Tree, key: Key)
    requires Distinct(t)
    ensures forall i, j :: 0 <= i < j < |Path(t, key)| ==> Path(t, key)[i] != Path(t, key)[j]
    decreases t
  {
    if t.Node? {
      var i := FindCh(t.kids.keys, key);
      if i < |t.kids.chs| {
        PathOnce(t.kids.chs[i], key);
        SegPathIn(t.kids, key);
        var p, rest := Path(t, key), Path(t.kids.chs[i], key);
        assert p == [t.id] + rest;
        assert forall j :: 1 <= j < |p| ==> p[j] == rest[j-1] && p[j] in SegPath(t.kids, key);
      }
    }
  }

  /** One update as a whole: the new tree is well-formed, every snapshot that
      includes the ticket sees exactly its key changed, the search path is given
      up, each node once, every other node is shared, and all others are new. */
  lemma CowStep(t: Tree, h: nat, side: Side, ticket: nat, key: Key, val: Val, hi: nat, version: nat, k: Key)
    requires Wf(t, side, 0, hi, h) && Distinct(t) && NoneOf(Ids(t), ticket) && Below(side, ticket)
    requires key < hi && k < hi && ticket <= version
    ensures var c := Cow(t, h, side, ticket, key, val);
            && Wf(c, side, 0, hi, CowHeight(t, h, side, ticket, key, val)) && Distinct(c)
            && Get(c, side, version, k) == (if k == key then Some(val) else Get(t, side, version, k))
            && (forall x :: x in Ids(t) - Ids(c) <==> x in Path(t, key))
            && (forall i, j :: 0 <= i < j < |Path(t, key)| ==> Path(t, key)[i] != Path(t, key)[j])
            && (forall x :: x in Ids(c) - Ids(t) ==> x.New? && x.ticket == ticket)
  {
    hide Wf, Cow, CowHeight, Get, Distinct, Ids, Path, NoneOf, Below;
    CowOk(t, h, side, ticket, key, val, hi, version, k);
    CowShares(t, h, side, ticket, key, val, hi);
    PathOnce(t, key);
  }
}
