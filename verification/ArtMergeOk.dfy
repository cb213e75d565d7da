/** What a radix merge keeps and changes, and when it raises an exception. */
module ArtMergeOk {
  import opened Options
  import opened Records
  import opened Art
  import opened ArtCow
  import opened ArtShare
  import opened ArtHistory
  import opened ArtMerge
  import S = ArtScan

  // ---- key order ------------------------------------------------------------

  predicate AtMost(a: Word, b: Word) {
    a == b || S.Less(a, b, 0)
  }

  ghost predicate Ordered(cs: seq<Change>) {
    forall i, j :: 0 <= i < j < |cs| ==> AtMost(cs[i].route, cs[j].route)
  }

  /** Keys that share a prefix compare at the byte after it. */
  lemma OrderAt(a: Word, b: Word, q: seq<Byte>)
    requires |q| < 8 && Under(a, q) && Under(b, q) && AtMost(a, b)
    ensures a[|q|] <= b[|q|]
  {
    S.PartAt(a, b, q, 0);
  }

  /** A key between two that share a prefix has it too. */
  lemma {:induction false} Between(a: Word, x: Word, c: Word, k: nat)
    requires k <= 8 && a[..k] == c[..k] && AtMost(a, x) && AtMost(x, c)
    ensures x[..k] == a[..k]
  {
    if k > 0 {
      var q := a[..k-1];
      assert a[..k][..k-1] == a[..k-1] && c[..k][..k-1] == c[..k-1];
      Between(a, x, c, k - 1);
      OrderAt(a, x, q);
      OrderAt(x, c, q);
      assert a[..k][k-1] == c[..k][k-1];
      assert x[..k] == x[..k-1] + [x[k-1]];
      assert a[..k] == a[..k-1] + [a[k-1]];
    }
  }

  // ---- places in the tree ---------------------------------------------------

  /** A node that spells the path from its offset on. */
  ghost predicate At(t: Node, path: seq<Byte>) {
    && InRange(t, |path|) && Shaped(t, path[..t.ofs])
    && path[t.ofs..] == NodePrefix(t)[..|path|-t.ofs]
  }

  ghost predicate RoutesUnder(cs: seq<Change>, b: nat, e: nat, path: seq<Byte>)
    requires b <= e <= |cs|
  {
    forall j :: b <= j < e ==> Under(cs[j].route, path)
  }

  /** The node the children of a branch come from. */
  ghost predicate Source(t: Option<Node>, same: bool, q: seq<Byte>) {
    |q| < 8 && (t.Some? ==> At(t.value, q) && (same ==> t.value.Branch? && |q| == t.value.ofs + |t.value.pfx|)
                            && (!same ==> |q| < t.value.ofs + |NodePrefix(t.value)|))
  }

  /** The changes of a branch from a byte on. */
  ghost predicate Group(cs: seq<Change>, first: nat, e: nat, q: seq<Byte>, key: nat) {
    first <= e <= |cs| && |q| < 8 && forall j :: first <= j < e ==> FromByte(cs[j], q, key)
  }

  ghost predicate FromByte(c: Change, q: seq<Byte>, key: nat) {
    |q| < 8 && Under(c.route, q) && c.route[|q|] >= key
  }

  lemma SourceCan(t: Option<Node>, same: bool, q: seq<Byte>)
    requires Source(t, same, q)
    ensures |q| < 8 && CanSlot(t, same, |q|)
  {
    hide Shaped;
  }

  lemma GroupStep(cs: seq<Change>, first: nat, e: nat, q: seq<Byte>, key: Byte)
    requires Ordered(cs) && Group(cs, first, e, q, key)
    ensures var last := EndOf(cs, first, e, |q|, key);
            RoutesUnder(cs, first, last, q + [key]) && Group(cs, last, e, q, key + 1)
  {
    var last := EndOf(cs, first, e, |q|, key);
    forall j | first <= j < last ensures Under(cs[j].route, q + [key]) {
      assert FromByte(cs[j], q, key);
      UnderByte(cs[j].route, q, key);
    }
    forall j | last <= j < e ensures FromByte(cs[j], q, key + 1) {
      assert FromByte(cs[j], q, key) && FromByte(cs[last], q, key);
      if j > last { OrderAt(cs[last].route, cs[j].route, q); }
    }
  }

  lemma AtStep(t: Node, path: seq<Byte>, q: seq<Byte>)
    requires At(t, path) && |path| <= |q| && q[..|path|] == path && |q| <= t.ofs + |NodePrefix(t)|
    requires q[t.ofs..] == NodePrefix(t)[..|q|-t.ofs]
    ensures At(t, q)
  {
    assert q[..t.ofs] == path[..t.ofs];
  }

  /** Where a merge branches: changes and node agree up to there. */
  lemma BranchFacts(t: Option<Node>, cs: seq<Change>, b: nat, e: nat, path: seq<Byte>)
    requires b < e <= |cs| && |path| <= 8 && Ordered(cs) && RoutesUnder(cs, b, e, path)
    requires t.Some? ==> At(t.value, path)
    ensures var br := BranchAt(t, cs, b, e, |path|);
            var q := cs[b].route[..br];
            && |path| <= br <= 8 && q[..|path|] == path && RoutesUnder(cs, b, e, q)
            && (t.Some? ==> At(t.value, q))
            && (br < 8 && (t.Some? && t.value.Branch? ==> br < t.value.ofs + |t.value.pfx|)
                ==> cs[e-1].route[br] != cs[b].route[br]
                    || (t.Some? && br < t.value.ofs + |NodePrefix(t.value)| && NodePrefix(t.value)[br-t.value.ofs] != cs[b].route[br]))
  {
    hide At, S.Less, Under, MatchLen;
    var d := |path|;
    if t.Some? { RangeOf(t.value, path); }
    var br := BranchAt(t, cs, b, e, d);
    var w, z := cs[b].route, cs[e-1].route;
    var c := d + MatchLen(z[d..], w, d);
    SharedFront(w, z, path, c, br);
    forall j | b <= j < e ensures Under(cs[j].route, w[..br]) {
      BetweenUnder(cs, b, e, j, br);
    }
    if t.Some? {
      RangeOf(t.value, path);
      NodeAlong(t.value, path, w[..br], w, br);
      var m := d + MatchLen(NodePrefix(t.value)[d-t.value.ofs..], w, d);
      NodeParts(t.value, path, w, m);
    }
  }

  lemma RangeOf(t: Node, path: seq<Byte>)
    requires At(t, path)
    ensures InRange(t, |path|)
  {
  }

  /** Two keys agree as far as they match. */
  lemma SharedFront(w: Word, z: Word, path: seq<Byte>, c: nat, br: nat)
    requires Under(w, path) && Under(z, path) && |path| <= 8 && c == |path| + MatchLen(z[|path|..], w, |path|) && |path| <= br <= c
    ensures w[..br][..|path|] == path && w[..br] == z[..br] && (br == c < 8 ==> z[br] != w[br])
  {
    var d := |path|;
    MatchIs(z[d..], w, d);
    forall i | 0 <= i < br ensures w[i] == z[i] {
      if i < d {
        assert w[..d][i] == z[..d][i];
      } else {
        assert w[d..c][i-d] == z[d..][..c-d][i-d];
      }
    }
    assert w[..br][..d] == w[..d];
  }

  lemma BetweenUnder(cs: seq<Change>, b: nat, e: nat, j: nat, br: nat)
    requires Ordered(cs) && b <= j < e <= |cs| && br <= 8 && cs[b].route[..br] == cs[e-1].route[..br]
    ensures Under(cs[j].route, cs[b].route[..br])
  {
    hide S.Less;
    Between(cs[b].route, cs[j].route, cs[e-1].route, br);
  }

  lemma NodeAlong(t: Node, path: seq<Byte>, q: seq<Byte>, w: Word, br: nat)
    requires At(t, path) && |path| <= br <= t.ofs + |NodePrefix(t)| && q == w[..br] && Under(w, path)
    requires br <= |path| + MatchLen(NodePrefix(t)[|path|-t.ofs..], w, |path|)
    ensures At(t, q)
  {
    hide Shaped;
    var d, p := |path|, NodePrefix(t);
    PrefixBytes(p, t.ofs, path, w, br);
    assert q[..d] == path;
    AtStep(t, path, q);
  }

  lemma PrefixBytes(p: seq<Byte>, ofs: nat, path: seq<Byte>, w: Word, br: nat)
    requires ofs <= |path| <= br <= ofs + |p| <= 8 && Under(w, path) && path[ofs..] == p[..|path|-ofs]
    requires br <= |path| + MatchLen(p[|path|-ofs..], w, |path|)
    ensures w[..br][ofs..] == p[..br-ofs]
  {
    var d := |path|;
    forall i | 0 <= i < br - ofs ensures w[..br][ofs..][i] == p[i] {
      PrefixByte(p, ofs, path, w, br, i);
    }
  }

  lemma PrefixByte(p: seq<Byte>, ofs: nat, path: seq<Byte>, w: Word, br: nat, i: nat)
    requires ofs <= |path| <= br <= ofs + |p| <= 8 && Under(w, path) && path[ofs..] == p[..|path|-ofs] && i < br - ofs
    requires br <= |path| + MatchLen(p[|path|-ofs..], w, |path|)
    ensures w[ofs+i] == p[i]
  {
    hide MatchLen;
    var d := |path|;
    if ofs + i < d {
      assert w[..d][ofs + i] == path[ofs..][i] == p[..d-ofs][i];
    } else {
      MatchByte(p[d-ofs..], w, d, ofs + i - d);
    }
  }

  /** Where the node's prefix stops matching, its byte differs. */
  lemma NodeParts(t: Node, path: seq<Byte>, w: Word, br: nat)
    requires InRange(t, |path|) && br == |path| + MatchLen(NodePrefix(t)[|path|-t.ofs..], w, |path|)
    ensures br < t.ofs + |NodePrefix(t)| ==> br < 8 && NodePrefix(t)[br-t.ofs] != w[br]
  {
    hide MatchLen, NodePrefix;
    if br < t.ofs + |NodePrefix(t)| {
      MatchByte(NodePrefix(t)[|path|-t.ofs..], w, |path|, br - |path|);
    }
  }

  /** A slot holds a node that spells one byte more. */
  lemma SlotIs(t: Option<Node>, same: bool, q: seq<Byte>, key: Byte)
    requires Source(t, same, q)
    ensures var s := SlotAt(t, same, |q|, key); s.Some? ==> At(s.value, q + [key])
  {
    var s := SlotAt(t, same, |q|, key);
    if s.Some? {
      if same {
        ChildAt(t.value, q, IndexOf(t.value.keys, key, 0).value);
      } else {
        assert (q + [key])[t.value.ofs..] == q[t.value.ofs..] + [key];
        AtStep(t.value, q, q + [key]);
      }
    }
  }

  lemma ChildAt(t: Node, q: seq<Byte>, i: nat)
    requires At(t, q) && t.Branch? && |q| == t.ofs + |t.pfx| && i < |t.keys| == |t.chs|
    ensures At(t.chs[i], q + [t.keys[i]])
  {
    hide Shaped;
    ShapedIs(t, q[..t.ofs]);
    assert q == q[..t.ofs] + t.pfx;
    ShapedIs(t.chs[i], q + [t.keys[i]]);
    var r := q + [t.keys[i]];
    assert r[..|r|] == r && r[|r|..] == [] == NodePrefix(t.chs[i])[..0];
  }

  // ---- the bytes of the merged children -------------------------------------

  ghost predicate HasChange(cs: seq<Change>, first: nat, e: nat, branch: nat, x: Byte)
    requires first <= e <= |cs| && branch < 8
  {
    exists j :: first <= j < e && cs[j].route[branch] == x
  }

  lemma MergeSome(t: Option<Node>, side: Histories, cs: seq<Change>, b: nat, e: nat, depth: nat, version: nat, n: nat)
    requires b <= e <= |cs| && depth <= 8 && (t.Some? || b < e)
    ensures var r := Merge(t, side, cs, b, e, depth, version, n); r.ok ==> r.t.Some?
  {
  }

  /** The bytes from a key on that have a slot or a change. */
  ghost predicate KeysAre(t: Option<Node>, same: bool, cs: seq<Change>, first: nat, e: nat, key: nat, q: seq<Byte>, keys: seq<Byte>)
    requires Source(t, same, q) && first <= e <= |cs|
  {
    && Ascends(keys) && (forall i :: 0 <= i < |keys| ==> keys[i] >= key)
    && forall x: Byte :: x in keys <==> x >= key && (SlotAt(t, same, |q|, x).Some? || HasChange(cs, first, e, |q|, x))
  }

  /** The merged children are exactly the bytes that have a slot or a change. */
  lemma {:induction false} KidsKeys(t: Option<Node>, same: bool, side: Histories, cs: seq<Change>, first: nat, e: nat, key: nat,
                                    q: seq<Byte>, version: nat, n: nat)
    requires Source(t, same, q) && CanSlot(t, same, |q|) && Ordered(cs) && Group(cs, first, e, q, key) && key <= 256
    ensures var k := MergeKids(t, same, side, cs, first, e, key, |q|, version, n);
            k.ok ==> KeysAre(t, same, cs, first, e, key, q, k.keys)
    decreases 256 - key
  {
    hide Merge, SlotAt, Ordered, Shaped, KeysAre, Group, CanSlot, Source;
    SourceCan(t, same, q);
    if key < 256 {
      GroupIn(cs, first, e, q, key);
      var last := EndOf(cs, first, e, |q|, key);
      var slot := SlotAt(t, same, |q|, key);
      GroupStep(cs, first, e, q, key);
      if slot.None? && first == last {
        KidsKeys(t, same, side, cs, last, e, key + 1, q, version, n);
        KeysSkip(t, same, cs, first, last, e, key, q, MergeKids(t, same, side, cs, last, e, key + 1, |q|, version, n).keys);
      } else {
        var m := Merge(slot, side, cs, first, last, |q| + 1, version, n);
        KidsKeys(t, same, side, cs, last, e, key + 1, q, version, m.next);
        MergeSome(slot, side, cs, first, last, |q| + 1, version, n);
        KeysMore(t, same, cs, first, last, e, key, q, MergeKids(t, same, side, cs, last, e, key + 1, |q|, version, m.next).keys);
      }
    } else {
      GroupIn(cs, first, e, q, key);
      NoKeys(t, same, cs, first, e, q);
    }
  }

  lemma GroupIn(cs: seq<Change>, first: nat, e: nat, q: seq<Byte>, key: nat)
    requires Group(cs, first, e, q, key)
    ensures first <= e <= |cs|
  {
  }

  lemma NoKeys(t: Option<Node>, same: bool, cs: seq<Change>, first: nat, e: nat, q: seq<Byte>)
    requires Source(t, same, q) && first <= e <= |cs|
    ensures KeysAre(t, same, cs, first, e, 256, q, [])
  {
  }

  lemma KeysSkip(t: Option<Node>, same: bool, cs: seq<Change>, first: nat, last: nat, e: nat, key: Byte, q: seq<Byte>, keys: seq<Byte>)
    requires Source(t, same, q) && Group(cs, first, e, q, key) && last == EndOf(cs, first, e, |q|, key) && Group(cs, last, e, q, key + 1)
    requires SlotAt(t, same, |q|, key).None? && first == last
    ensures KeysAre(t, same, cs, last, e, key + 1, q, keys) ==> KeysAre(t, same, cs, first, e, key, q, keys)
  {
    hide SlotAt, Source, Group, Ascends, HasChange;
    ByteChanges(cs, first, last, e, q, key);
  }

  lemma KeysMore(t: Option<Node>, same: bool, cs: seq<Change>, first: nat, last: nat, e: nat, key: Byte, q: seq<Byte>, keys: seq<Byte>)
    requires Source(t, same, q) && Group(cs, first, e, q, key) && last == EndOf(cs, first, e, |q|, key) && Group(cs, last, e, q, key + 1)
    requires SlotAt(t, same, |q|, key).Some? || first < last
    ensures KeysAre(t, same, cs, last, e, key + 1, q, keys) ==> KeysAre(t, same, cs, first, e, key, q, [key] + keys)
  {
    hide SlotAt, Source, Group, HasChange;
    ByteChanges(cs, first, last, e, q, key);
  }

  lemma ByteChanges(cs: seq<Change>, first: nat, last: nat, e: nat, q: seq<Byte>, key: Byte)
    requires Group(cs, first, e, q, key) && last == EndOf(cs, first, e, |q|, key) && Group(cs, last, e, q, key + 1)
    ensures HasChange(cs, first, e, |q|, key) <==> first < last
    ensures forall x: Byte :: x > key ==> (HasChange(cs, first, e, |q|, x) <==> HasChange(cs, last, e, |q|, x))
  {
    assert first < last ==> cs[first].route[|q|] == key;
  }

  // ---- lookups through a slot -----------------------------------------------

  function NodeFind(t: Option<Node>, side: Histories, v: nat, u: Word): Option<Val> {
    if t.None? then None else Find(Seen(t.value, side, v), u)
  }

  /** A key under the branch spells the node's bytes up to there. */
  lemma Spelled(t: Node, q: seq<Byte>, u: Word)
    requires At(t, q) && Under(u, q)
    ensures forall i :: t.ofs <= i < |q| ==> NodePrefix(t)[i-t.ofs] == u[i]
    ensures Under(u, q[..t.ofs])
  {
    hide Shaped;
    forall i | t.ofs <= i < |q| ensures NodePrefix(t)[i-t.ofs] == u[i] {
      assert q[t.ofs..][i-t.ofs] == q[i] && NodePrefix(t)[..|q|-t.ofs][i-t.ofs] == NodePrefix(t)[i-t.ofs];
      assert u[..|q|][i] == u[i];
    }
    assert u[..|q|][..t.ofs] == u[..t.ofs];
  }

  /** Whole prefix spelled: the match is complete. */
  lemma FullMatch(t: Node, q: seq<Byte>, u: Word)
    requires At(t, q) && Under(u, q) && |q| == t.ofs + |NodePrefix(t)|
    ensures MatchLen(NodePrefix(t), u, t.ofs) == |NodePrefix(t)|
  {
    hide At;
    AtParts(t, q);
    Spelled(t, q, u);
    var p := NodePrefix(t);
    forall i | 0 <= i < |p| ensures u[t.ofs..t.ofs+|p|][i] == p[i] {
      assert NodePrefix(t)[t.ofs + i - t.ofs] == u[t.ofs + i];
    }
    assert u[t.ofs..t.ofs+|p|] == p;
    MatchesAll(p, u, t.ofs);
  }

  lemma AtParts(t: Node, q: seq<Byte>)
    requires At(t, q)
    ensures InRange(t, |q|) && Shaped(t, q[..t.ofs])
  {
  }

  /** A key that leaves the prefix is not below the node. */
  lemma NotBelow(t: Node, q: seq<Byte>, side: Histories, v: nat, u: Word, i: nat)
    requires At(t, q) && t.ofs <= i < t.ofs + |NodePrefix(t)| && NodePrefix(t)[i-t.ofs] != u[i] && i < 8
    ensures LeafFor(t, u) == None && Find(Seen(t, side, v), u) == None
  {
    hide Shaped, MatchLen;
    AllMatch(NodePrefix(t), u, t.ofs, i - t.ofs);
    PrefixSeen(t, side, v);
  }

  lemma AllMatch(p: seq<Byte>, u: Word, ofs: nat, i: nat)
    requires ofs + |p| <= 8 && i < |p| && p[i] != u[ofs+i]
    ensures MatchLen(p, u, ofs) < |p|
  {
    MatchByte(p, u, ofs, i);
  }

  /** Below a branch a key is in the slot of its byte, or nowhere. */
  lemma SlotLookup(t: Option<Node>, same: bool, q: seq<Byte>, side: Histories, v: nat, u: Word)
    requires Source(t, same, q) && Under(u, q)
    ensures var s := SlotAt(t, same, |q|, u[|q|]);
            LeafOf(t, u) == LeafOf(s, u) && NodeFind(t, side, v, u) == NodeFind(s, side, v, u)
  {
    hide MatchLen, At, Find, LeafFor;
    SourceCan(t, same, q);
    if t.Some? {
      if same {
        SameLookup(t.value, q, side, v, u);
      } else if NodePrefix(t.value)[|q|-t.value.ofs] != u[|q|] {
        NotBelow(t.value, q, side, v, u, |q|);
      }
    }
  }

  lemma SameLookup(t: Node, q: seq<Byte>, side: Histories, v: nat, u: Word)
    requires At(t, q) && t.Branch? && |q| == t.ofs + |t.pfx| < 8 && Under(u, q)
    ensures var i := IndexOf(t.keys, u[|q|], 0);
            && LeafFor(t, u) == (if i.Some? && i.value < |t.chs| then LeafFor(t.chs[i.value], u) else None)
            && Find(Seen(t, side, v), u) == (if i.Some? && i.value < |t.chs| then Find(Seen(t.chs[i.value], side, v), u) else None)
  {
    hide MatchLen, At, Shaped;
    FullMatch(t, q, u);
    var i := IndexOf(t.keys, u[|q|], 0);
    if i.Some? && i.value < |t.chs| {
      SeenChild(t.chs, i.value, side, v);
    }
  }

  // ---- acceptance -----------------------------------------------------------

  /** Every change names the leaf that holds its key now, or none, and no key
      is changed twice. */
  ghost predicate Current(t: Option<Node>, cs: seq<Change>, b: nat, e: nat)
    requires b <= e <= |cs|
  {
    && (forall j :: b <= j < e ==> cs[j].leaf == LeafOf(t, cs[j].route))
    && (forall i, j :: b <= i < j < e ==> cs[i].route != cs[j].route)
  }

  /** A single key: its leaf is the node itself. */
  lemma KeyLeaf(t: Node, w: Word)
    requires At(t, w)
    ensures t.Leaf? && t.key == w && LeafFor(t, w) == Some(t.id)
  {
    AtParts(t, w);
    ShapedIs(t, w[..t.ofs]);
    assert w[..8] == w;
    FullMatch(t, w, w);
    assert t.key == t.key[..t.ofs] + t.key[t.ofs..];
    assert w == w[..t.ofs] + w[t.ofs..];
    assert NodePrefix(t)[..8-t.ofs] == NodePrefix(t);
    assert t.key[..t.ofs] == w[..t.ofs];
  }

  lemma SameRoutes(cs: seq<Change>, b: nat, e: nat, w: Word)
    requires b <= e <= |cs| && RoutesUnder(cs, b, e, w)
    ensures forall j :: b <= j < e ==> cs[j].route == w
  {
    forall j | b <= j < e ensures cs[j].route == w {
      assert Under(cs[j].route, w) && cs[j].route[..8] == cs[j].route;
    }
  }

  lemma SourceOf(t: Option<Node>, q: seq<Byte>)
    requires |q| < 8 && (t.Some? ==> At(t.value, q))
    ensures Source(t, t.Some? && t.value.Branch? && |q| == t.value.ofs + |t.value.pfx|, q)
  {
    hide Shaped;
  }

  lemma GroupAll(cs: seq<Change>, b: nat, e: nat, q: seq<Byte>)
    requires b <= e <= |cs| && |q| < 8 && RoutesUnder(cs, b, e, q)
    ensures Group(cs, b, e, q, 0)
  {
  }

  /** A new branch has two children at least. */
  lemma TwoKids(t: Option<Node>, same: bool, cs: seq<Change>, b: nat, e: nat, q: seq<Byte>, keys: seq<Byte>)
    requires Source(t, same, q) && b < e <= |cs| && KeysAre(t, same, cs, b, e, 0, q, keys)
    requires CanSlot(t, same, |q|) && same == (t.Some? && t.value.Branch? && |q| == t.value.ofs + |t.value.pfx|)
    requires !same ==> cs[e-1].route[|q|] != cs[b].route[|q|]
                       || (t.Some? && |q| < t.value.ofs + |NodePrefix(t.value)| && NodePrefix(t.value)[|q|-t.value.ofs] != cs[b].route[|q|])
    ensures |keys| >= 2
  {
    hide At, Shaped, SlotAt;
    if same {
      AtParts(t.value, q);
      SameKeys(t.value, q);
      assert t.value.keys[0] in keys && t.value.keys[1] in keys;
    } else {
      assert HasChange(cs, b, e, |q|, cs[b].route[|q|]) && HasChange(cs, b, e, |q|, cs[e-1].route[|q|]);
      assert cs[b].route[|q|] in keys && cs[e-1].route[|q|] in keys;
      if t.Some? && NodePrefix(t.value)[|q|-t.value.ofs] != cs[b].route[|q|] {
        OwnSlot(t, q);
      }
    }
  }

  lemma OwnSlot(t: Option<Node>, q: seq<Byte>)
    requires t.Some? && |q| < 8 && CanSlot(t, false, |q|)
    ensures SlotAt(t, false, |q|, NodePrefix(t.value)[|q|-t.value.ofs]).Some?
  {
  }

  lemma SameKeys(t: Node, q: seq<Byte>)
    requires At(t, q) && t.Branch? && |q| == t.ofs + |t.pfx| < 8
    ensures |t.keys| == |t.chs| >= 2 && Ascends(t.keys) && |t.keys| <= t.kind.Capacity()
    ensures SlotAt(Some(t), true, |q|, t.keys[0]).Some? && SlotAt(Some(t), true, |q|, t.keys[1]).Some?
    ensures forall x: Byte :: SlotAt(Some(t), true, |q|, x).Some? <==> x in t.keys
  {
    WfInner(Seen(t, map[], 0), q[..t.ofs]);
    IndexIs(t.keys, 0);
    IndexIs(t.keys, 1);
  }

  /** The pass raises no exception exactly when every change is current. In
      particular it never does for distinct routes with correct old leaves. */
  lemma {:induction false} AcceptsCurrent(t: Option<Node>, side: Histories, cs: seq<Change>, b: nat, e: nat, path: seq<Byte>, version: nat, n: nat)
    requires b <= e <= |cs| && |path| <= 8 && Ordered(cs) && RoutesUnder(cs, b, e, path) && (t.Some? ==> At(t.value, path))
    ensures Merge(t, side, cs, b, e, |path|, version, n).ok <==> Current(t, cs, b, e)
    decreases 8 - |path|, 300
  {
    hide At, Ordered, MergeKids, BranchAt, LeafFor, NewChildren, Under;
    if t.Some? { RangeOf(t.value, path); }
    if b < e {
      BranchFacts(t, cs, b, e, path);
      var br := BranchAt(t, cs, b, e, |path|);
      var q := cs[b].route[..br];
      if br == 8 {
        assert q == cs[b].route;
        SameRoutes(cs, b, e, q);
        if t.Some? { KeyLeaf(t.value, q); }
        assert b + 1 < e ==> cs[b].route == cs[b+1].route;
      } else {
        SourceOf(t, q);
        GroupAll(cs, b, e, q);
        SourceCan(t, t.Some? && t.value.Branch? && |q| == t.value.ofs + |t.value.pfx|, q);
        var same := t.Some? && t.value.Branch? && |q| == t.value.ofs + |t.value.pfx|;
        KidsAccept(t, same, side, cs, b, e, 0, q, version, n + 1);
        KidsAccept(t, same, side, cs, b, e, 0, q, version, n);
        KidsKeys(t, same, side, cs, b, e, 0, q, version, n);
        if MergeKids(t, same, side, cs, b, e, 0, br, version, n).ok {
          TwoKids(t, same, cs, b, e, q, MergeKids(t, same, side, cs, b, e, 0, br, version, n).keys);
        }
      }
    }
  }

  lemma {:induction false} KidsAccept(t: Option<Node>, same: bool, side: Histories, cs: seq<Change>, first: nat, e: nat, key: nat,
                                      q: seq<Byte>, version: nat, n: nat)
    requires first <= e <= |cs| && |q| < 8 && Source(t, same, q) && Ordered(cs) && Group(cs, first, e, q, key) && key <= 256
    ensures MergeKids(t, same, side, cs, first, e, key, |q|, version, n).ok <==> Current(t, cs, first, e)
    decreases 8 - |q|, 256 - key
  {
    hide Merge, SlotAt, Ordered, At, Current, Group, NodeFind, CanSlot, Source;
    SourceCan(t, same, q);
    if key == 256 {
      NoneLeft(cs, first, e, q);
      NoneCurrent(t, cs, first, e);
    } else {
      var last := EndOf(cs, first, e, |q|, key);
      var slot := SlotAt(t, same, |q|, key);
      GroupStep(cs, first, e, q, key);
      SlotIs(t, same, q, key);
      GroupCurrent(t, same, cs, first, last, e, q, key);
      if slot.None? && first == last {
        KidsAccept(t, same, side, cs, last, e, key + 1, q, version, n);
        NoneCurrent(slot, cs, first, last);
      } else {
        var m := Merge(slot, side, cs, first, last, |q| + 1, version, n);
        AcceptsCurrent(slot, side, cs, first, last, q + [key], version, n);
        MergeSome(slot, side, cs, first, last, |q| + 1, version, n);
        KidsAccept(t, same, side, cs, last, e, key + 1, q, version, m.next);
      }
    }
  }

  lemma NoneLeft(cs: seq<Change>, first: nat, e: nat, q: seq<Byte>)
    requires Group(cs, first, e, q, 256)
    ensures first == e
  {
    hide FromByte;
    if first < e {
      assert FromByte(cs[first], q, 256);
      NoByte(cs[first], q);
    }
  }

  lemma NoByte(c: Change, q: seq<Byte>)
    ensures !FromByte(c, q, 256)
  {
  }

  lemma NoneCurrent(t: Option<Node>, cs: seq<Change>, first: nat, e: nat)
    requires first == e <= |cs|
    ensures Current(t, cs, first, e)
  {
  }

  /** The changes of one byte are current in its slot, the others later. */
  lemma GroupCurrent(t: Option<Node>, same: bool, cs: seq<Change>, first: nat, last: nat, e: nat, q: seq<Byte>, key: Byte)
    requires Source(t, same, q) && Group(cs, first, e, q, key) && last == EndOf(cs, first, e, |q|, key) && Group(cs, last, e, q, key + 1)
    ensures Current(t, cs, first, e) <==> Current(SlotAt(t, same, |q|, key), cs, first, last) && Current(t, cs, last, e)
  {
    hide At, SlotAt, LeafFor, Source;
    SourceCan(t, same, q);
    var slot := SlotAt(t, same, |q|, key);
    forall j | first <= j < last ensures LeafOf(t, cs[j].route) == LeafOf(slot, cs[j].route) {
      SlotLookup(t, same, q, map[], 0, cs[j].route);
    }
    forall i, j | first <= i < last <= j < e ensures cs[i].route != cs[j].route {
      assert cs[i].route[|q|] == key && FromByte(cs[j], q, key + 1);
    }
  }

  lemma RootUnder(cs: seq<Change>)
    ensures RoutesUnder(cs, 0, |cs|, [])
  {
    forall j | 0 <= j < |cs| ensures Under(cs[j].route, []) {
      assert cs[j].route[..0] == [];
    }
  }

  lemma RootAt(t: Node)
    requires Shaped(t, [])
    ensures At(t, [])
  {
    ShapedIs(t, []);
    assert NodePrefix(t)[..0] == [];
  }
}
