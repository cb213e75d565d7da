/** The merged radix tree is well-formed and shows the old map overlaid by the
    changes. */
module ArtMergeSees {
  import opened Options
  import opened Records
  import opened Nodes
  import opened Art
  import opened ArtCow
  import opened ArtShare
  import opened ArtHistory
  import opened ArtMerge
  import opened ArtMergeOk

  /** Changes written over a lookup. */
  function Written(cs: seq<Change>, b: nat, e: nat, u: Word, prior: Option<Val>): Option<Val>
    requires b <= e <= |cs|
    decreases e - b
  {
    if b == e then prior else if cs[b].route == u then Some(cs[b].value) else Written(cs, b + 1, e, u, prior)
  }

  lemma {:induction false} WrittenSplit(cs: seq<Change>, b: nat, m: nat, e: nat, u: Word, prior: Option<Val>)
    requires b <= m <= e <= |cs|
    ensures Written(cs, b, e, u, prior) == Written(cs, b, m, u, Written(cs, m, e, u, prior))
    decreases m - b
  {
    if b < m {
      WrittenSplit(cs, b + 1, m, e, u, prior);
    }
  }

  lemma {:induction false} WrittenNot(cs: seq<Change>, b: nat, e: nat, u: Word, prior: Option<Val>)
    requires b <= e <= |cs| && forall j :: b <= j < e ==> cs[j].route != u
    ensures Written(cs, b, e, u, prior) == prior
    decreases e - b
  {
    if b < e {
      WrittenNot(cs, b + 1, e, u, prior);
    }
  }

  /** Histories of the old leaves only, none newer than the version. */
  ghost predicate Settled(side: Histories, cs: seq<Change>, version: nat) {
    && (forall id, i :: id in side && 0 <= i < |side[id]| ==> side[id][i].version <= version)
    && (forall id :: id in side ==> !(id.New? && id.ticket == version && id.role == WholeNode))
    && (forall id, j :: id in side && 0 <= j < |cs| ==> id != New(cs[j].ticket, 0, WholeLeaf))
  }

  /** What a merged node is for the keys of its path. */
  ghost predicate Sees(t': Option<Node>, t: Option<Node>, side: Histories, v: nat, path: seq<Byte>, cs: seq<Change>, b: nat, e: nat, u: Word)
    requires b <= e <= |cs|
  {
    && (t'.Some? ==> Shaped(t'.value, path))
    && (Under(u, path) ==> NodeFind(t', side, v, u) == Written(cs, b, e, u, NodeFind(t, side, v, u)))
  }

  // ---- moving a node --------------------------------------------------------

  lemma SameShape(t: Node, a: Histories, v: nat, b: Histories, w: nat, path: seq<Byte>)
    ensures Wf(Seen(t, a, v), path) <==> Wf(Seen(t, b, w), path)
  {
    if Wf(Seen(t, a, v), path) { ShapeOnly(t, a, v, b, w, path); }
    if Wf(Seen(t, b, w), path) { ShapeOnly(t, b, w, a, v, path); }
  }

  /** A clone is the node lowered to the path. */
  lemma CloneSeen(t: Node, side: Histories, path: seq<Byte>, version: nat, n: nat, v: nat, cs: seq<Change>)
    requires At(t, path) && t.ofs < |path| && Settled(side, cs, version) && version <= v
    ensures Seen(Clone(t, side, |path|, version, n), side, v) == Lowered(Seen(t, side, v), |path| - t.ofs - 1)
  {
    hide Shaped;
    if t.Leaf? {
      ReadAll(t.val, HistoryOf(side, t.id), version, v);
      NoHistory(side, cs, version, New(version, n, WholeNode));
    }
  }

  lemma NoHistory(side: Histories, cs: seq<Change>, version: nat, id: Id)
    requires Settled(side, cs, version)
    requires (id.New? && id.ticket == version && id.role == WholeNode) || exists j :: 0 <= j < |cs| && id == New(cs[j].ticket, 0, WholeLeaf)
    ensures HistoryOf(side, id) == []
  {
  }

  lemma CloneSees(t: Node, side: Histories, path: seq<Byte>, version: nat, n: nat, v: nat, cs: seq<Change>, b: nat, u: Word)
    requires At(t, path) && t.ofs < |path| && Settled(side, cs, version) && version <= v && b <= |cs|
    ensures Sees(Some(Clone(t, side, |path|, version, n)), Some(t), side, v, path, cs, b, b, u)
  {
    hide Settled, Find, Wf, Under, Clone, At;
    AtParts(t, path);
    var c := Clone(t, side, |path|, version, n);
    var m := |path| - t.ofs - 1;
    CloneSeen(t, side, path, version, n, v, cs);
    SameShape(t, map[], 0, side, v, path[..t.ofs]);
    PrefixSeen(t, side, v);
    PathIs(t, path);
    LoweredOk(Seen(t, side, v), path[..t.ofs], m, u);
    SameShape(c, side, v, map[], 0, path);
    if Under(u, path) { ShorterUnder(u, path, t.ofs); }
  }

  lemma PathIs(t: Node, path: seq<Byte>)
    requires At(t, path) && t.ofs < |path|
    ensures var m := |path| - t.ofs - 1;
            m < |NodePrefix(t)| && path == path[..t.ofs] + NodePrefix(t)[..m] + [NodePrefix(t)[m]]
  {
    hide Shaped;
    assert path == path[..t.ofs] + path[t.ofs..];
  }

  lemma ShorterUnder(u: Word, path: seq<Byte>, k: nat)
    requires Under(u, path) && k <= |path|
    ensures Under(u, path[..k])
  {
    assert u[..|path|][..k] == u[..k];
  }

  lemma SameSees(t: Option<Node>, side: Histories, path: seq<Byte>, v: nat, cs: seq<Change>, b: nat, u: Word)
    requires b <= |cs| && (t.Some? ==> At(t.value, path) && t.value.ofs == |path|)
    ensures Sees(t, t, side, v, path, cs, b, b, u)
  {
    hide Shaped;
    if t.Some? {
      assert path[..t.value.ofs] == path;
    }
  }

  // ---- a changed key --------------------------------------------------------

  lemma TipSees(t: Option<Node>, side: Histories, path: seq<Byte>, version: nat, v: nat, cs: seq<Change>, b: nat, u: Word)
    requires b < |cs| && Settled(side, cs, version) && Under(cs[b].route, path) && |path| <= 8
    requires t.Some? ==> At(t.value, cs[b].route) && t.value.ofs <= |path|
    ensures Sees(Some(Leaf(New(cs[b].ticket, 0, WholeLeaf), cs[b].ticket, |path|, cs[b].route, cs[b].value)), t, side, v, path, cs, b, b + 1, u)
  {
    hide Settled, At;
    var w := cs[b].route;
    var c := Leaf(New(cs[b].ticket, 0, WholeLeaf), cs[b].ticket, |path|, w, cs[b].value);
    NoHistory(side, cs, version, c.id);
    TipAt(Tip(|path|, w, cs[b].value), path);
    if Under(u, path) {
      TipIs(Tip(|path|, w, cs[b].value), path, u);
      OneWritten(cs, b, u, NodeFind(t, side, v, u));
      if t.Some? && u != w {
        ShorterUnder(u, path, t.value.ofs);
        ShorterUnder(w, path, t.value.ofs);
        OtherKey(t.value, w, side, v, u);
      }
    }
  }

  lemma OneWritten(cs: seq<Change>, b: nat, u: Word, prior: Option<Val>)
    requires b < |cs|
    ensures Written(cs, b, b + 1, u, prior) == if cs[b].route == u then Some(cs[b].value) else prior
  {
  }

  /** A leaf shows only its own key. */
  lemma OtherKey(t: Node, w: Word, side: Histories, v: nat, u: Word)
    requires At(t, w) && u != w && Under(u, w[..t.ofs])
    ensures Find(Seen(t, side, v), u) == None
  {
    hide At;
    KeyLeaf(t, w);
    AtParts(t, w);
    SameShape(t, map[], 0, side, v, w[..t.ofs]);
    TipIs(Seen(t, side, v), w[..t.ofs], u);
  }

  // ---- a rebuilt branch -----------------------------------------------------

  /** Merged children: well-formed, and for keys from a byte on they show the
      old map overlaid. */
  ghost predicate KidsShape(keys: seq<Byte>, chs: seq<Node>, q: seq<Byte>) {
    |keys| == |chs| && forall i :: 0 <= i < |chs| ==> Shaped(chs[i], q + [keys[i]])
  }

  ghost predicate KidsSee(k: Kids, t: Option<Node>, side: Histories, v: nat, q: seq<Byte>, key: nat, cs: seq<Change>, first: nat, e: nat, u: Word)
    requires first <= e <= |cs| && |q| < 8
  {
    && KidsShape(k.keys, k.chs, q)
    && (Under(u, q) && u[|q|] >= key ==>
          var i := IndexOf(k.keys, u[|q|], 0);
          (if i.Some? && i.value < |k.chs| then Find(Seen(k.chs[i.value], side, v), u) else None)
          == Written(cs, first, e, u, NodeFind(t, side, v, u)))
  }

  /** The branch over the children. */
  lemma BranchSees(c: Node, k: Kids, t: Option<Node>, side: Histories, v: nat, path: seq<Byte>, q: seq<Byte>, cs: seq<Change>,
                   b: nat, e: nat, u: Word)
    requires c.Branch? && |path| <= |q| < 8 && q[..|path|] == path && c.ofs == |path| && c.pfx == q[|path|..]
    requires c.keys == k.keys && c.chs == k.chs && Ascends(k.keys) && 2 <= |k.keys| <= c.kind.Capacity()
    requires b <= e <= |cs| && RoutesUnder(cs, b, e, q) && (t.Some? ==> At(t.value, q) && t.value.ofs <= |path|)
    requires KidsSee(k, t, side, v, q, 0, cs, b, e, u)
    ensures Sees(Some(c), t, side, v, path, cs, b, e, u)
  {
    hide At, Find, Under, Wf;
    assert path + c.pfx == q;
    BranchWf(c, path);
    SameShape(c, map[], 0, side, v, path);
    if Under(u, path) {
      if Under(u, q) {
        InnerFind(Seen(c, side, v), path, u);
        PickedChild(c, side, v, u[|q|]);
      } else {
        NotUnder(u, path, c.pfx);
        OutsideNone(Seen(c, side, v), path, u);
        NotRouted(cs, b, e, q, u);
        WrittenNot(cs, b, e, u, NodeFind(t, side, v, u));
        if t.Some? { NotSpelled(t.value, path, q, side, v, u); }
      }
    }
  }

  lemma PickedChild(c: Node, side: Histories, v: nat, x: Byte)
    requires c.Branch? && |c.keys| == |c.chs|
    ensures var i := IndexOf(c.keys, x, 0);
            Seen(c, side, v).keys == c.keys && (i.Some? ==> Seen(c, side, v).chs[i.value] == Seen(c.chs[i.value], side, v))
  {
  }

  lemma BranchWf(c: Node, path: seq<Byte>)
    requires c.Branch? && c.ofs == |path| && |path + c.pfx| < 8 && Ascends(c.keys) && 2 <= |c.keys| <= c.kind.Capacity()
    requires KidsShape(c.keys, c.chs, path + c.pfx)
    ensures Shaped(c, path)
  {
    forall i | 0 <= i < |c.chs| ensures Wf(SeenAll(c.chs, map[], 0)[i], path + c.pfx + [c.keys[i]]) {
      SeenChild(c.chs, i, map[], 0);
    }
  }

  lemma NotRouted(cs: seq<Change>, b: nat, e: nat, q: seq<Byte>, u: Word)
    requires b <= e <= |cs| && RoutesUnder(cs, b, e, q) && !Under(u, q)
    ensures forall j :: b <= j < e ==> cs[j].route != u
  {
    hide Under;
  }

  /** A node that spells q holds no key that leaves q. */
  lemma NotSpelled(t: Node, path: seq<Byte>, q: seq<Byte>, side: Histories, v: nat, u: Word)
    requires At(t, q) && t.ofs <= |path| <= |q| <= 8 && q[..|path|] == path && Under(u, path) && !Under(u, q)
    ensures Find(Seen(t, side, v), u) == None
  {
    hide Find;
    RangeOf(t, q);
    var i := Parting(u, q, |path|);
    assert q[t.ofs..][i-t.ofs] == q[i] && NodePrefix(t)[..|q|-t.ofs][i-t.ofs] == NodePrefix(t)[i-t.ofs];
    NotBelow(t, q, side, v, u, i);
  }

  /** The first byte where a key leaves a path. */
  lemma Parting(u: Word, q: seq<Byte>, from: nat) returns (i: nat)
    requires from <= |q| <= 8 && u[..from] == q[..from] && !Under(u, q)
    ensures from <= i < |q| && u[i] != q[i]
  {
    i := 0;
    if forall j :: from <= j < |q| ==> u[j] == q[j] {
      AllSame(u, q, from);
    } else {
      i :| from <= i < |q| && u[i] != q[i];
    }
  }

  lemma AllSame(u: Word, q: seq<Byte>, from: nat)
    requires from <= |q| <= 8 && u[..from] == q[..from] && forall j :: from <= j < |q| ==> u[j] == q[j]
    ensures Under(u, q)
  {
    forall j | 0 <= j < |q| ensures u[..|q|][j] == q[j] {
      if j < from { assert u[..from][j] == q[..from][j]; }
    }
    assert u[..|q|] == q;
  }

  // ---- how many children ----------------------------------------------------

  function BytesOf(cs: seq<Change>, first: nat, e: nat, branch: nat): set<Byte>
    requires first <= e <= |cs| && branch < 8
  {
    set j | first <= j < e :: cs[j].route[branch]
  }

  function KeySet(keys: seq<Byte>): set<Byte> {
    set x | x in keys
  }

  /** Counting by groups is counting the new bytes, at least. */
  lemma {:induction false} NewBytes(keys: seq<Byte>, cs: seq<Change>, first: nat, e: nat, branch: nat)
    requires first <= e <= |cs| && branch < 8
    ensures |BytesOf(cs, first, e, branch) - KeySet(keys)| <= NewChildren(keys, cs, first, e, branch)
    decreases e - first
  {
    var s := BytesOf(cs, first, e, branch);
    if first == e {
      assert s == {};
    } else {
      var key := cs[first].route[branch];
      var last := EndOf(cs, first, e, branch, key);
      var rest := BytesOf(cs, last, e, branch);
      NewBytes(keys, cs, last, e, branch);
      assert s <= {key} + rest;
      Subset(s - KeySet(keys), ({key} + rest) - KeySet(keys));
      if key in keys {
        assert IndexOf(keys, key, 0).Some?;
        assert ({key} + rest) - KeySet(keys) == rest - KeySet(keys);
      } else {
        assert ({key} + rest) - KeySet(keys) <= {key} + (rest - KeySet(keys));
        Subset(({key} + rest) - KeySet(keys), {key} + (rest - KeySet(keys)));
      }
    }
  }

  lemma Subset<T>(a: set<T>, b: set<T>)
    requires a <= b
    ensures |a| <= |b|
  {
    assert b == a + (b - a);
  }

  lemma {:induction false} AscendingSize(keys: seq<Byte>)
    requires Ascends(keys)
    ensures |KeySet(keys)| == |keys|
  {
    if keys == [] {
      assert KeySet(keys) == {};
    } else {
      var n := |keys| - 1;
      AscendingSize(keys[..n]);
      assert keys == keys[..n] + [keys[n]];
      assert KeySet(keys) == KeySet(keys[..n]) + {keys[n]};
      assert keys[n] !in keys[..n];
    }
  }

  /** A branch that keeps its kind has room for the merged children. */
  lemma RoomForAll(t: Node, q: seq<Byte>, cs: seq<Change>, b: nat, e: nat, keys: seq<Byte>)
    requires At(t, q) && t.Branch? && |q| == t.ofs + |t.pfx| < 8 && b <= e <= |cs| && CanSlot(Some(t), true, |q|)
    requires Source(Some(t), true, q) && KeysAre(Some(t), true, cs, b, e, 0, q, keys)
    ensures |keys| <= |t.keys| + NewChildren(t.keys, cs, b, e, |q|) && |keys| <= 256
  {
    hide At, Source, SlotAt, CanSlot;
    SameKeys(t, q);
    AscendingSize(keys);
    AscendingSize(t.keys);
    NewBytes(t.keys, cs, b, e, |q|);
    var new_ := BytesOf(cs, b, e, |q|) - KeySet(t.keys);
    forall x | x in KeySet(keys) ensures x in KeySet(t.keys) + new_ {
    }
    Subset(KeySet(keys), KeySet(t.keys) + new_);
    BytesFit(keys);
  }

  /** There are only 256 bytes. */
  lemma BytesFit(keys: seq<Byte>)
    requires Ascends(keys)
    ensures |keys| <= 256
  {
    if |keys| > 0 {
      AtLeast(keys, |keys| - 1);
    }
  }

  // ---- the merge ------------------------------------------------------------

  /** The merged node is well-formed, with every branch holding two children or
      more and no more than its kind allows, and shows the old map with every
      change written over it. */
  lemma {:induction false} MergeSees(t: Option<Node>, side: Histories, cs: seq<Change>, b: nat, e: nat, path: seq<Byte>,
                                     version: nat, n: nat, v: nat, u: Word)
    requires b <= e <= |cs| && |path| <= 8 && Ordered(cs) && RoutesUnder(cs, b, e, path) && (t.Some? ==> At(t.value, path))
    requires Settled(side, cs, version) && version <= v && Merge(t, side, cs, b, e, |path|, version, n).ok
    ensures Sees(Merge(t, side, cs, b, e, |path|, version, n).t, t, side, v, path, cs, b, e, u)
    decreases 8 - |path|, 300
  {
    hide At, Ordered, MergeKids, BranchAt, NewChildren, Under, Settled, Sees, Clone;
    if t.Some? { RangeOf(t.value, path); }
    if b == e {
      if t.Some? && t.value.ofs != |path| {
        CloneSees(t.value, side, path, version, n, v, cs, b, u);
      } else {
        SameSees(t, side, path, v, cs, b, u);
      }
    } else {
      BranchFacts(t, cs, b, e, path);
      var br := BranchAt(t, cs, b, e, |path|);
      var q := cs[b].route[..br];
      if br == 8 {
        assert q == cs[b].route;
        RouteUnder(cs, b, e, path);
        TipSees(t, side, path, version, v, cs, b, u);
      } else {
        RebuiltSees(t, side, cs, b, e, path, q, version, n, v, u);
      }
    }
  }

  lemma RouteUnder(cs: seq<Change>, b: nat, e: nat, path: seq<Byte>)
    requires b < e <= |cs| && RoutesUnder(cs, b, e, path)
    ensures Under(cs[b].route, path)
  {
  }

  lemma {:induction false} RebuiltSees(t: Option<Node>, side: Histories, cs: seq<Change>, b: nat, e: nat, path: seq<Byte>, q: seq<Byte>,
                                       version: nat, n: nat, v: nat, u: Word)
    requires b < e <= |cs| && |path| <= |q| < 8 && Ordered(cs) && RoutesUnder(cs, b, e, q) && q[..|path|] == path
    requires t.Some? ==> At(t.value, q) && InRange(t.value, |path|) && t.value.ofs <= |path|
    requires |q| == BranchAt(t, cs, b, e, |path|) && q == cs[b].route[..|q|]
    requires (t.Some? && t.value.Branch? ==> |q| < t.value.ofs + |t.value.pfx|)
             ==> cs[e-1].route[|q|] != cs[b].route[|q|]
                 || (t.Some? && |q| < t.value.ofs + |NodePrefix(t.value)| && NodePrefix(t.value)[|q|-t.value.ofs] != cs[b].route[|q|])
    requires Settled(side, cs, version) && version <= v && Merge(t, side, cs, b, e, |path|, version, n).ok
    ensures Sees(Merge(t, side, cs, b, e, |path|, version, n).t, t, side, v, path, cs, b, e, u)
    decreases 8 - |path|, 299
  {
    hide At, Ordered, MergeKids, BranchAt, NewChildren, Under, Settled, Sees, KidsSee, KeysAre, Source, CanSlot, Group;
    SourceOf(t, q);
    GroupAll(cs, b, e, q);
    var same := t.Some? && t.value.Branch? && |q| == t.value.ofs + |t.value.pfx|;
    SourceCan(t, same, q);
    var fits := same && (t.value.kind == K256
                         || |t.value.keys| + NewChildren(t.value.keys, cs, b, e, |q|) <= t.value.kind.Capacity());
    var n' := if fits then n + 1 else n;
    var k := MergeKids(t, same, side, cs, b, e, 0, |q|, version, n');
    KidsKeys(t, same, side, cs, b, e, 0, q, version, n');
    KidsSees(t, same, side, cs, b, e, 0, q, version, n', v, u);
    TwoKids(t, same, cs, b, e, q, k.keys);
    KeysRise(t, same, cs, b, e, 0, q, k.keys);
    BytesFit(k.keys);
    if fits {
      RoomForAll(t.value, q, cs, b, e, k.keys);
      PrefixFrom(t.value, path, q);
    } else {
      assert cs[b].route[|path|..|q|] == q[|path|..];
    }
    BranchSees(Merge(t, side, cs, b, e, |path|, version, n).t.value, k, t, side, v, path, q, cs, b, e, u);
  }

  lemma KeysRise(t: Option<Node>, same: bool, cs: seq<Change>, first: nat, e: nat, key: nat, q: seq<Byte>, keys: seq<Byte>)
    requires Source(t, same, q) && CanSlot(t, same, |q|) && first <= e <= |cs| && KeysAre(t, same, cs, first, e, key, q, keys)
    ensures Ascends(keys)
  {
  }

  lemma PrefixFrom(t: Node, path: seq<Byte>, q: seq<Byte>)
    requires At(t, q) && t.Branch? && t.ofs <= |path| <= |q| == t.ofs + |t.pfx| && q[..|path|] == path
    ensures t.pfx[|path|-t.ofs..] == q[|path|..]
  {
    hide Shaped;
    assert q[t.ofs..] == t.pfx;
  }

  lemma {:induction false} KidsSees(t: Option<Node>, same: bool, side: Histories, cs: seq<Change>, first: nat, e: nat, key: nat,
                                    q: seq<Byte>, version: nat, n: nat, v: nat, u: Word)
    requires first <= e <= |cs| && |q| < 8 && Source(t, same, q) && CanSlot(t, same, |q|) && Ordered(cs) && Group(cs, first, e, q, key) && key <= 256
    requires Settled(side, cs, version) && version <= v && MergeKids(t, same, side, cs, first, e, key, |q|, version, n).ok
    ensures KidsSee(MergeKids(t, same, side, cs, first, e, key, |q|, version, n), t, side, v, q, key, cs, first, e, u)
    decreases 8 - |q|, 256 - key
  {
    hide Merge, SlotAt, Ordered, At, Group, NodeFind, CanSlot, Source, KidsSee, Settled, Sees, KeysAre;
    if key == 256 {
      NoKidsSee(t, side, v, q, cs, first, e, n, u);
    } else {
      var last := EndOf(cs, first, e, |q|, key);
      var slot := SlotAt(t, same, |q|, key);
      GroupStep(cs, first, e, q, key);
      SlotIs(t, same, q, key);
      if slot.None? && first == last {
        KidsSees(t, same, side, cs, last, e, key + 1, q, version, n, v, u);
        KidsSeeSkip(MergeKids(t, same, side, cs, last, e, key + 1, |q|, version, n), t, same, side, v, q, key, cs, first, e, u, version, n);
      } else {
        var m := Merge(slot, side, cs, first, last, |q| + 1, version, n);
        MergeSees(slot, side, cs, first, last, q + [key], version, n, v, u);
        MergeSome(slot, side, cs, first, last, |q| + 1, version, n);
        KidsSees(t, same, side, cs, last, e, key + 1, q, version, m.next, v, u);
        KidsSeeMore(m.t.value, MergeKids(t, same, side, cs, last, e, key + 1, |q|, version, m.next), t, same, side, v, q, key,
                    cs, first, last, e, u, version, m.next, MergeKids(t, same, side, cs, first, e, key, |q|, version, n));
      }
    }
  }

  lemma NoKidsSee(t: Option<Node>, side: Histories, v: nat, q: seq<Byte>, cs: seq<Change>, first: nat, e: nat, n: nat, u: Word)
    requires first <= e <= |cs| && |q| < 8
    ensures KidsSee(Kids([], [], n, [], true), t, side, v, q, 256, cs, first, e, u)
  {
  }

  /** A byte without slot and changes holds no key. */
  lemma KidsSeeSkip(k: Kids, t: Option<Node>, same: bool, side: Histories, v: nat, q: seq<Byte>, key: Byte, cs: seq<Change>,
                    first: nat, e: nat, u: Word, version: nat, n: nat)
    requires first <= e <= |cs| && |q| < 8 && Source(t, same, q) && CanSlot(t, same, |q|) && Ordered(cs)
    requires Group(cs, first, e, q, key) && Group(cs, first, e, q, key + 1) && SlotAt(t, same, |q|, key).None?
    requires k == MergeKids(t, same, side, cs, first, e, key + 1, |q|, version, n) && k.ok
    requires KidsSee(k, t, side, v, q, key + 1, cs, first, e, u)
    ensures KidsSee(k, t, side, v, q, key, cs, first, e, u)
  {
    hide SlotAt, Find, Under, Source, CanSlot, Ordered;
    if Under(u, q) && u[|q|] == key {
      SlotLookup(t, same, q, side, v, u);
      LaterRoutes(cs, first, e, q, key, u);
      WrittenNot(cs, first, e, u, NodeFind(t, side, v, u));
      KidsKeys(t, same, side, cs, first, e, key + 1, q, version, n);
      LaterKeys(t, same, cs, first, e, key + 1, q, k.keys, key);
    }
  }

  lemma LaterRoutes(cs: seq<Change>, first: nat, e: nat, q: seq<Byte>, key: Byte, u: Word)
    requires Group(cs, first, e, q, key + 1) && |q| < 8 && u[|q|] <= key
    ensures forall j :: first <= j < e ==> cs[j].route != u
  {
    hide Under;
    forall j | first <= j < e ensures cs[j].route != u {
      assert FromByte(cs[j], q, key + 1);
    }
  }

  lemma LaterKeys(t: Option<Node>, same: bool, cs: seq<Change>, first: nat, e: nat, key: nat, q: seq<Byte>, keys: seq<Byte>, x: Byte)
    requires Source(t, same, q) && CanSlot(t, same, |q|) && first <= e <= |cs| && KeysAre(t, same, cs, first, e, key, q, keys) && x < key
    ensures IndexOf(keys, x, 0) == None
  {
  }

  lemma ShiftIndex(keys: seq<Byte>, key: Byte, x: Byte)
    requires Ascends([key] + keys)
    ensures IndexOf([key] + keys, key, 0) == Some(0)
    ensures x > key ==> IndexOf([key] + keys, x, 0) == (if IndexOf(keys, x, 0).Some? then Some(IndexOf(keys, x, 0).value + 1) else None)
  {
    var all := [key] + keys;
    IndexIs(all, 0);
    var i := IndexOf(keys, x, 0);
    if x > key {
      if i.Some? {
        assert all[i.value + 1] == x;
        IndexIs(all, i.value + 1);
      } else {
        assert forall j :: 0 < j < |all| ==> all[j] == keys[j-1];
      }
    }
  }

  lemma KidsSeeMore(c: Node, k: Kids, t: Option<Node>, same: bool, side: Histories, v: nat, q: seq<Byte>, key: Byte, cs: seq<Change>,
                    first: nat, last: nat, e: nat, u: Word, version: nat, n: nat, all: Kids)
    requires first <= last <= e <= |cs| && |q| < 8 && Source(t, same, q) && CanSlot(t, same, |q|) && Ordered(cs)
    requires Group(cs, first, e, q, key) && Group(cs, last, e, q, key + 1) && last == EndOf(cs, first, e, |q|, key)
    requires k == MergeKids(t, same, side, cs, last, e, key + 1, |q|, version, n) && k.ok
    requires all.keys == [key] + k.keys && all.chs == [c] + k.chs
    requires KidsSee(k, t, side, v, q, key + 1, cs, last, e, u)
    requires Sees(Some(c), SlotAt(t, same, |q|, key), side, v, q + [key], cs, first, last, u)
    ensures KidsSee(all, t, side, v, q, key, cs, first, e, u)
  {
    hide SlotAt, Find, Under, Source, CanSlot, Ordered, Group, MergeKids, KeysAre, Shaped, KidsShape, Sees;
    MoreShape(c, k, all, t, same, side, v, q, key, cs, first, last, e, u);
    KidsKeys(t, same, side, cs, last, e, key + 1, q, version, n);
    KeysUp(t, same, cs, last, e, key, q, k.keys);
    if Under(u, q) && u[|q|] >= key {
      var x := u[|q|];
      var prior := NodeFind(t, side, v, u);
      ShiftIndex(k.keys, key, x);
      UnderByte(u, q, key);
      WrittenSplit(cs, first, last, e, u, prior);
      if x == key {
        SlotLookup(t, same, q, side, v, u);
        LaterRoutes(cs, last, e, q, key, u);
        WrittenNot(cs, last, e, u, prior);
      } else {
        EarlierRoutes(cs, first, last, |q|, key, u);
        WrittenNot(cs, first, last, u, Written(cs, last, e, u, prior));
      }
    }
  }

  lemma MoreShape(c: Node, k: Kids, all: Kids, t: Option<Node>, same: bool, side: Histories, v: nat, q: seq<Byte>, key: Byte, cs: seq<Change>,
                  first: nat, last: nat, e: nat, u: Word)
    requires first <= last <= e <= |cs| && |q| < 8 && CanSlot(t, same, |q|) && |k.keys| == |k.chs|
    requires all.keys == [key] + k.keys && all.chs == [c] + k.chs && KidsShape(k.keys, k.chs, q)
    requires Sees(Some(c), SlotAt(t, same, |q|, key), side, v, q + [key], cs, first, last, u)
    ensures KidsShape(all.keys, all.chs, q)
    ensures Under(u, q + [key]) ==>
              NodeFind(Some(c), side, v, u) == Written(cs, first, last, u, NodeFind(SlotAt(t, same, |q|, key), side, v, u))
  {
    hide SlotAt, Find, Under, CanSlot, Shaped;
  }

  lemma EarlierRoutes(cs: seq<Change>, first: nat, last: nat, d: nat, key: Byte, u: Word)
    requires first <= last <= |cs| && d < 8 && u[d] != key && forall j :: first <= j < last ==> cs[j].route[d] == key
    ensures forall j :: first <= j < last ==> cs[j].route != u
  {
  }

  lemma KeysUp(t: Option<Node>, same: bool, cs: seq<Change>, first: nat, e: nat, key: Byte, q: seq<Byte>, keys: seq<Byte>)
    requires Source(t, same, q) && CanSlot(t, same, |q|) && first <= e <= |cs| && KeysAre(t, same, cs, first, e, key + 1, q, keys)
    ensures Ascends([key] + keys)
  {
  }

  // ---- the whole merge ------------------------------------------------------

  /** A wave merged into a radix tree: it is accepted exactly when every change
      is current, and then the tree is well-formed and shows the old map with
      every change written over it, for all snapshots from the wave on. */
  lemma MergedTree(t: Option<Node>, side: Histories, cs: seq<Change>, version: nat, v: nat, u: Word)
    requires (t.Some? ==> Shaped(t.value, [])) && Ordered(cs) && Settled(side, cs, version) && version <= v
    ensures var r := Merge(t, side, cs, 0, |cs|, 0, version, 0);
            && (r.ok <==> Current(t, cs, 0, |cs|))
            && (r.ok ==> (r.t.Some? ==> Shaped(r.t.value, []))
                         && NodeFind(r.t, side, v, u) == Written(cs, 0, |cs|, u, NodeFind(t, side, v, u)))
  {
    hide Merge, Settled, Ordered, Current, NodeFind, Shaped;
    assert u[..0] == [];
    RootUnder(cs);
    if t.Some? { RootAt(t.value); }
    AcceptsCurrent(t, side, cs, 0, |cs|, [], version, 0);
    if Merge(t, side, cs, 0, |cs|, 0, version, 0).ok {
      MergeSees(t, side, cs, 0, |cs|, [], version, 0, v, u);
    }
  }
}
