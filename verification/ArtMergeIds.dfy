/** Which physical nodes a radix merge creates, shares and retires. */
module ArtMergeIds {
  import opened Options
  import opened Nodes
  import opened Art
  import opened ArtCow
  import opened ArtShare
  import opened ArtMerge
  import opened ArtMergeOk
  import H = BTreeHistory
  import M = BTreeMergeIds

  function NodeIds(t: Option<Node>): set<Id> {
    if t.None? then {} else Ids(t.value)
  }

  /** The leaves prepared for a range of changes. */
  function TipIds(cs: seq<Change>, b: nat, e: nat): set<Id>
    requires b <= e <= |cs|
  {
    set j | b <= j < e :: New(cs[j].ticket, 0, WholeLeaf)
  }

  ghost predicate Tickets(cs: seq<Change>) {
    forall i, j :: 0 <= i < j < |cs| ==> cs[i].ticket != cs[j].ticket
  }

  /** Nodes that are neither prepared leaves nor numbered by this merge. */
  ghost predicate Older(nodes: set<Id>, cs: seq<Change>, version: nat) {
    forall x :: x in nodes ==> x !in TipIds(cs, 0, |cs|) && !(x.New? && x.ticket == version && x.role == WholeNode)
  }

  /** The old subtrees for the bytes from a key on. */
  function SlotIds(t: Option<Node>, same: bool, branch: nat, key: nat): set<Id>
    requires branch < 8 && key <= 256 && CanSlot(t, same, branch)
    decreases 256 - key
  {
    if key == 256 then {} else NodeIds(SlotAt(t, same, branch, key)) + SlotIds(t, same, branch, key + 1)
  }

  /** Everything but the replaced nodes, and what was made. */
  ghost predicate Exact(ids: set<Id>, nodes: set<Id>, repl: seq<Id>, tips: set<Id>, inner: set<Id>) {
    ids == (nodes - H.Elements(repl)) + (tips + inner) && H.Elements(repl) <= nodes && M.Once(repl)
  }

  lemma TipsSplit(cs: seq<Change>, b: nat, m: nat, e: nat)
    requires b <= m <= e <= |cs|
    ensures TipIds(cs, b, e) == TipIds(cs, b, m) + TipIds(cs, m, e)
    ensures Tickets(cs) ==> TipIds(cs, b, m) !! TipIds(cs, m, e)
    ensures TipIds(cs, b, e) <= TipIds(cs, 0, |cs|) && TipIds(cs, b, b) == {}
  {
  }

  // ---- slots ----------------------------------------------------------------

  lemma {:induction false} SlotIdsSame(t: Node, branch: nat, key: nat, x: Id)
    requires t.Branch? && branch < 8 && key <= 256 && CanSlot(Some(t), true, branch) && |t.keys| == |t.chs| && Ascends(t.keys)
    ensures x in SlotIds(Some(t), true, branch, key) <==> exists i :: 0 <= i < |t.chs| && t.keys[i] >= key && x in Ids(t.chs[i])
    decreases 256 - key
  {
    hide CanSlot, Ids;
    if key < 256 {
      SlotIdsSame(t, branch, key + 1, x);
      var s := IndexOf(t.keys, key, 0);
      if s.Some? { IndexIs(t.keys, s.value); }
      forall i | 0 <= i < |t.chs| && t.keys[i] == key ensures s == Some(i) { IndexIs(t.keys, i); }
    }
  }

  lemma {:induction false} SlotIdsOther(t: Node, branch: nat, key: nat)
    requires branch < 8 && key <= 256 && CanSlot(Some(t), false, branch)
    ensures SlotIds(Some(t), false, branch, key) == if NodePrefix(t)[branch-t.ofs] >= key then Ids(t) else {}
    decreases 256 - key
  {
    hide Ids;
    if key < 256 {
      SlotIdsOther(t, branch, key + 1);
    }
  }

  lemma {:induction false} SlotIdsNone(branch: nat, key: nat)
    requires branch < 8 && key <= 256
    ensures CanSlot(None, false, branch) && SlotIds(None, false, branch, key) == {}
    decreases 256 - key
  {
    if key < 256 {
      SlotIdsNone(branch, key + 1);
    }
  }

  /** The slots hold all nodes of the source, but a branch that is replaced. */
  lemma AllSlots(t: Option<Node>, same: bool, q: seq<Byte>)
    requires Source(t, same, q) && |q| < 8 && CanSlot(t, same, |q|)
    requires same == (t.Some? && t.value.Branch? && |q| == t.value.ofs + |t.value.pfx|)
    ensures SlotIds(t, same, |q|, 0) == if same then AllIds(t.value.chs) else NodeIds(t)
  {
    hide At, CanSlot, Ids, SlotIds, Source, AllIds;
    if t.None? {
      SlotIdsNone(|q|, 0);
    } else if same {
      BranchSlots(t.value, q);
    } else {
      assert t == Some(t.value) && same == false;
      OtherSlots(t.value, q);
    }
  }

  lemma BranchSlots(t: Node, q: seq<Byte>)
    requires Source(Some(t), true, q) && CanSlot(Some(t), true, |q|) && t.Branch? && |q| == t.ofs + |t.pfx|
    ensures SlotIds(Some(t), true, |q|, 0) == AllIds(t.chs)
  {
    hide At, CanSlot, Ids, SlotIds;
    SameKeys(t, q);
    forall x ensures x in SlotIds(Some(t), true, |q|, 0) <==> x in AllIds(t.chs) {
      SlotIdsSame(t, |q|, 0, x);
    }
  }

  lemma OtherSlots(t: Node, q: seq<Byte>)
    requires Source(Some(t), false, q) && CanSlot(Some(t), false, |q|)
    ensures SlotIds(Some(t), false, |q|, 0) == Ids(t)
  {
    hide At, Ids, SlotIds;
    SlotIdsOther(t, |q|, 0);
  }

  /** Slots share nothing. */
  lemma SlotsApart(t: Option<Node>, same: bool, q: seq<Byte>, key: nat)
    requires Source(t, same, q) && |q| < 8 && CanSlot(t, same, |q|) && key < 256 && (t.Some? ==> Distinct(t.value))
    requires same ==> t.Some? && |q| == t.value.ofs + |t.value.pfx|
    ensures NodeIds(SlotAt(t, same, |q|, key)) !! SlotIds(t, same, |q|, key + 1)
    ensures SlotAt(t, same, |q|, key).Some? ==> Distinct(SlotAt(t, same, |q|, key).value)
  {
    hide At, CanSlot, Ids;
    if t.Some? {
      if same {
        SameKeys(t.value, q);
        KidsDistinct(t.value);
        var s := IndexOf(t.value.keys, key, 0);
        forall x | x in NodeIds(SlotAt(t, same, |q|, key)) ensures x !in SlotIds(t, same, |q|, key + 1) {
          SlotIdsSame(t.value, |q|, key + 1, x);
          forall i | 0 <= i < |t.value.chs| && t.value.keys[i] >= key + 1 ensures x !in Ids(t.value.chs[i]) {
            assert Ids(t.value.chs[s.value]) !! Ids(t.value.chs[i]);
          }
        }
      } else {
        SlotIdsOther(t.value, |q|, key + 1);
      }
    }
  }

  lemma KidsDistinct(t: Node)
    requires t.Branch? && Distinct(t)
    ensures t.id !in AllIds(t.chs) && AllDistinct(t.chs)
    ensures forall i, j :: 0 <= i < |t.chs| && 0 <= j < |t.chs| && i != j ==> Ids(t.chs[i]) !! Ids(t.chs[j])
    ensures Ids(t) == {t.id} + AllIds(t.chs)
  {
    forall i, j | 0 <= i < |t.chs| && 0 <= j < |t.chs| && i != j ensures Ids(t.chs[i]) !! Ids(t.chs[j]) {
      assert if i < j then Ids(t.chs[i]) !! Ids(t.chs[j]) else Ids(t.chs[j]) !! Ids(t.chs[i]);
    }
  }

  // ---- counting -------------------------------------------------------------

  lemma {:induction false} Counts(t: Option<Node>, side: Histories, cs: seq<Change>, b: nat, e: nat, depth: nat, version: nat, n: nat)
    requires b <= e <= |cs| && depth <= 8
    ensures n <= Merge(t, side, cs, b, e, depth, version, n).next
    decreases 8 - depth, 300
  {
    hide BranchAt, NewChildren, Clone;
    if t.Some? && !InRange(t.value, depth) {
    } else if b < e {
      var br := BranchAt(t, cs, b, e, depth);
      if br < 8 {
        var same := t.Some? && t.value.Branch? && br == t.value.ofs + |t.value.pfx|;
        CountsKids(t, same, side, cs, b, e, 0, br, version, n);
        CountsKids(t, same, side, cs, b, e, 0, br, version, n + 1);
      }
    }
  }

  lemma {:induction false} CountsKids(t: Option<Node>, same: bool, side: Histories, cs: seq<Change>, first: nat, e: nat, key: nat,
                                      branch: nat, version: nat, n: nat)
    requires first <= e <= |cs| && branch < 8 && key <= 256 && CanSlot(t, same, branch)
    ensures n <= MergeKids(t, same, side, cs, first, e, key, branch, version, n).next
    decreases 8 - branch, 256 - key
  {
    hide Merge, SlotAt, CanSlot;
    if key < 256 {
      var last := EndOf(cs, first, e, branch, key);
      var slot := SlotAt(t, same, branch, key);
      if slot.None? && first == last {
        CountsKids(t, same, side, cs, last, e, key + 1, branch, version, n);
      } else {
        Counts(slot, side, cs, first, last, branch + 1, version, n);
        CountsKids(t, same, side, cs, last, e, key + 1, branch, version, Merge(slot, side, cs, first, last, branch + 1, version, n).next);
      }
    }
  }

  // ---- the merge ------------------------------------------------------------

  ghost predicate MergedExact(r: Merged, t: Option<Node>, cs: seq<Change>, b: nat, e: nat, version: nat, n: nat)
    requires b <= e <= |cs|
  {
    && n <= r.next && (r.t.Some? ==> Distinct(r.t.value))
    && Exact(NodeIds(r.t), NodeIds(t), r.retired, TipIds(cs, b, e), M.Inner(version, n, r.next))
  }

  /** Retirement of a radix merge is exact: every old node is either shared or
      replaced, once, and all other nodes are new. */
  lemma {:induction false} MergeExact(t: Option<Node>, side: Histories, cs: seq<Change>, b: nat, e: nat, path: seq<Byte>, version: nat, n: nat)
    requires b <= e <= |cs| && |path| <= 8 && Ordered(cs) && RoutesUnder(cs, b, e, path) && (t.Some? ==> At(t.value, path) && Distinct(t.value))
    requires Tickets(cs) && Older(NodeIds(t), cs, version) && Merge(t, side, cs, b, e, |path|, version, n).ok
    ensures MergedExact(Merge(t, side, cs, b, e, |path|, version, n), t, cs, b, e, version, n)
    decreases 8 - |path|, 300
  {
    hide At, Ordered, MergeKids, BranchAt, NewChildren, Under, MergedExact, Distinct, Older, Tickets;
    if t.Some? { RangeOf(t.value, path); }
    Counts(t, side, cs, b, e, |path|, version, n);
    if b == e {
      if t.Some? && t.value.ofs != |path| {
        CloneExact(t.value, side, |path|, cs, b, version, n);
      } else {
        SameExact(t, cs, b, version, n);
      }
    } else {
      BranchFacts(t, cs, b, e, path);
      var br := BranchAt(t, cs, b, e, |path|);
      var q := cs[b].route[..br];
      if br == 8 {
        assert q == cs[b].route;
        if t.Some? { KeyLeaf(t.value, q); }
        TipExact(t, cs, b, |path|, version, n);
      } else {
        RebuiltExact(t, side, cs, b, e, path, q, version, n);
      }
    }
  }

  lemma SameExact(t: Option<Node>, cs: seq<Change>, b: nat, version: nat, n: nat)
    requires b <= |cs| && (t.Some? ==> Distinct(t.value))
    ensures MergedExact(Merged(t, n, [], true), t, cs, b, b, version, n)
  {
    hide Ids, Distinct;
    TipsSplit(cs, b, b, b);
    M.InnerSplit(version, n, n, n);
    assert H.Elements([]) == {};
  }

  lemma CloneExact(t: Node, side: Histories, depth: nat, cs: seq<Change>, b: nat, version: nat, n: nat)
    requires b <= |cs| && Distinct(t) && InRange(t, depth) && Older(Ids(t), cs, version)
    ensures MergedExact(Merged(Some(Clone(t, side, depth, version, n)), n + 1, [t.id], true), Some(t), cs, b, b, version, n)
  {
    TipsSplit(cs, b, b, b);
    M.InnerSplit(version, n, n, n + 1);
    assert H.Elements([t.id]) == {t.id};
  }

  lemma TipExact(t: Option<Node>, cs: seq<Change>, b: nat, depth: nat, version: nat, n: nat)
    requires b < |cs| && (t.Some? ==> t.value.Leaf?)
    ensures MergedExact(Merged(Some(Leaf(New(cs[b].ticket, 0, WholeLeaf), cs[b].ticket, depth, cs[b].route, cs[b].value)), n,
                               if t.Some? then [t.value.id] else [], true), t, cs, b, b + 1, version, n)
  {
    M.InnerSplit(version, n, n, n);
    OneTip(cs, b);
    assert H.Elements([]) == {};
    if t.Some? { assert H.Elements([t.value.id]) == {t.value.id}; }
  }

  lemma OneTip(cs: seq<Change>, b: nat)
    requires b < |cs|
    ensures TipIds(cs, b, b + 1) == {New(cs[b].ticket, 0, WholeLeaf)}
  {
  }

  lemma {:induction false} RebuiltExact(t: Option<Node>, side: Histories, cs: seq<Change>, b: nat, e: nat, path: seq<Byte>, q: seq<Byte>,
                                        version: nat, n: nat)
    requires b < e <= |cs| && |path| <= |q| < 8 && Ordered(cs) && RoutesUnder(cs, b, e, q)
    requires t.Some? ==> At(t.value, q) && InRange(t.value, |path|) && Distinct(t.value)
    requires |q| == BranchAt(t, cs, b, e, |path|)
    requires Tickets(cs) && Older(NodeIds(t), cs, version) && Merge(t, side, cs, b, e, |path|, version, n).ok
    ensures MergedExact(Merge(t, side, cs, b, e, |path|, version, n), t, cs, b, e, version, n)
    decreases 8 - |path|, 299
  {
    hide At, Ordered, MergeKids, BranchAt, NewChildren, Under, MergedExact, Source, CanSlot, Group, Distinct, Older, KidsExact, Tickets, Ids;
    SourceOf(t, q);
    GroupAll(cs, b, e, q);
    var same := t.Some? && t.value.Branch? && |q| == t.value.ofs + |t.value.pfx|;
    SourceCan(t, same, q);
    AllSlots(t, same, q);
    if t.Some? && t.value.Branch? { KidsDistinct(t.value); }
    OlderSlots(t, same, cs, version);
    var fits := same && (t.value.kind == K256
                         || |t.value.keys| + NewChildren(t.value.keys, cs, b, e, |q|) <= t.value.kind.Capacity());
    var n' := if fits then n + 1 else n;
    var k := MergeKids(t, same, side, cs, b, e, 0, |q|, version, n');
    MergeKidsExact(t, same, side, cs, b, e, 0, q, version, n');
    CountsKids(t, same, side, cs, b, e, 0, |q|, version, n');
    var r := Merge(t, side, cs, b, e, |path|, version, n);
    if fits {
      FitsExact(t.value, k, r.t.value, cs, b, e, version, n);
    } else {
      OverExact(t, same, k, r.t.value, cs, b, e, version, n);
    }
  }

  lemma OlderSlots(t: Option<Node>, same: bool, cs: seq<Change>, version: nat)
    requires Older(NodeIds(t), cs, version) && (same ==> t.Some? && t.value.Branch?)
    ensures same ==> Older(AllIds(t.value.chs), cs, version)
  {
  }

  ghost predicate KidsExact(k: Kids, nodes: set<Id>, cs: seq<Change>, b: nat, e: nat, version: nat, n: nat)
    requires b <= e <= |cs|
  {
    && n <= k.next && AllDistinct(k.chs)
    && Exact(AllIds(k.chs), nodes, k.retired, TipIds(cs, b, e), M.Inner(version, n, k.next))
  }

  /** The copy that keeps its kind is made first and retires its source. */
  lemma FitsExact(t: Node, k: Kids, c: Node, cs: seq<Change>, b: nat, e: nat, version: nat, n: nat)
    requires b <= e <= |cs| && t.Branch? && c.Branch? && c.id == New(version, n, WholeNode) && c.chs == k.chs
    requires t.id !in AllIds(t.chs) && Ids(t) == {t.id} + AllIds(t.chs) && Older(Ids(t), cs, version)
    requires KidsExact(k, AllIds(t.chs), cs, b, e, version, n + 1)
    ensures MergedExact(Merged(Some(c), k.next, [t.id] + k.retired, true), Some(t), cs, b, e, version, n)
  {
    hide AllDistinct, AllIds, H.Elements, M.Once, TipIds;
    M.InnerSplit(version, n, n + 1, k.next);
    M.LastOnce(t.id);
    M.Appended([t.id], k.retired);
    NotTip(cs, b, e, version, n);
    BranchIds(c);
  }

  lemma OverExact(t: Option<Node>, same: bool, k: Kids, c: Node, cs: seq<Change>, b: nat, e: nat, version: nat, n: nat)
    requires b <= e <= |cs| && c.Branch? && c.id == New(version, k.next, WholeNode) && c.chs == k.chs && n <= k.next
    requires same ==> t.Some? && t.value.Branch? && t.value.id !in AllIds(t.value.chs) && Ids(t.value) == {t.value.id} + AllIds(t.value.chs)
    requires Older(NodeIds(t), cs, version)
    requires KidsExact(k, if same then AllIds(t.value.chs) else NodeIds(t), cs, b, e, version, n)
    ensures MergedExact(Merged(Some(c), k.next + 1, k.retired + (if same then [t.value.id] else []), true), t, cs, b, e, version, n)
  {
    hide AllDistinct, AllIds, H.Elements, M.Once, TipIds, Ids;
    M.InnerSplit(version, n, k.next, k.next + 1);
    NotTip(cs, b, e, version, k.next);
    BranchIds(c);
    if same {
      M.LastOnce(t.value.id);
      M.Appended(k.retired, [t.value.id]);
    } else {
      assert k.retired + [] == k.retired;
    }
  }

  lemma NotTip(cs: seq<Change>, b: nat, e: nat, version: nat, n: nat)
    requires b <= e <= |cs|
    ensures New(version, n, WholeNode) !in TipIds(cs, b, e)
  {
  }

  lemma BranchIds(c: Node)
    requires c.Branch?
    ensures Ids(c) == {c.id} + AllIds(c.chs)
    ensures c.id !in AllIds(c.chs) && AllDistinct(c.chs) ==> Distinct(c)
  {
  }

  lemma {:induction false} MergeKidsExact(t: Option<Node>, same: bool, side: Histories, cs: seq<Change>, first: nat, e: nat, key: nat,
                                          q: seq<Byte>, version: nat, n: nat)
    requires first <= e <= |cs| && |q| < 8 && Source(t, same, q) && CanSlot(t, same, |q|) && Ordered(cs) && Group(cs, first, e, q, key) && key <= 256
    requires (t.Some? ==> Distinct(t.value)) && (same ==> t.Some? && |q| == t.value.ofs + |t.value.pfx|)
    requires Tickets(cs) && Older(SlotIds(t, same, |q|, key), cs, version)
    requires MergeKids(t, same, side, cs, first, e, key, |q|, version, n).ok
    ensures KidsExact(MergeKids(t, same, side, cs, first, e, key, |q|, version, n), SlotIds(t, same, |q|, key), cs, first, e, version, n)
    decreases 8 - |q|, 256 - key
  {
    hide Merge, SlotAt, Ordered, At, Group, CanSlot, Source, Distinct, Older, KidsExact, MergedExact, Tickets, NodeIds;
    if key == 256 {
      NoneLeft(cs, first, e, q);
      NoKids(cs, first, version, n);
    } else {
      var last := EndOf(cs, first, e, |q|, key);
      var slot := SlotAt(t, same, |q|, key);
      GroupStep(cs, first, e, q, key);
      SlotIs(t, same, q, key);
      SlotsApart(t, same, q, key);
      OlderParts(NodeIds(slot), SlotIds(t, same, |q|, key + 1), cs, version);
      if slot.None? && first == last {
        NoNode(slot);
        assert {} + SlotIds(t, same, |q|, key + 1) == SlotIds(t, same, |q|, key + 1);
        MergeKidsExact(t, same, side, cs, last, e, key + 1, q, version, n);
      } else {
        var m := Merge(slot, side, cs, first, last, |q| + 1, version, n);
        MergeExact(slot, side, cs, first, last, q + [key], version, n);
        MergeSome(slot, side, cs, first, last, |q| + 1, version, n);
        MergeKidsExact(t, same, side, cs, last, e, key + 1, q, version, m.next);
        var k := MergeKids(t, same, side, cs, last, e, key + 1, |q|, version, m.next);
        MoreExact(m, k, NodeIds(slot), SlotIds(t, same, |q|, key + 1), slot, key, cs, first, last, e, version, n);
      }
    }
  }

  lemma NoNode(t: Option<Node>)
    ensures t.None? ==> NodeIds(t) == {}
  {
  }

  lemma OlderParts(a: set<Id>, b: set<Id>, cs: seq<Change>, version: nat)
    requires Older(a + b, cs, version)
    ensures Older(a, cs, version) && Older(b, cs, version)
  {
  }

  lemma NoKids(cs: seq<Change>, first: nat, version: nat, n: nat)
    requires first <= |cs|
    ensures KidsExact(Kids([], [], n, [], true), {}, cs, first, first, version, n)
  {
    TipsSplit(cs, first, first, first);
    M.InnerSplit(version, n, n, n);
    assert H.Elements([]) == {} && AllIds([]) == {};
  }

  lemma MoreExact(m: Merged, k: Kids, a: set<Id>, b: set<Id>, slot: Option<Node>, key: Byte, cs: seq<Change>, first: nat, last: nat, e: nat,
                  version: nat, n: nat)
    requires first <= last <= e <= |cs| && a == NodeIds(slot) && a !! b && m.t.Some?
    requires Tickets(cs) && Older(a + b, cs, version)
    requires MergedExact(m, slot, cs, first, last, version, n) && KidsExact(k, b, cs, last, e, version, m.next)
    ensures KidsExact(Kids([key] + k.keys, [m.t.value] + k.chs, k.next, m.retired + k.retired, true), a + b, cs, first, e, version, n)
  {
    hide AllDistinct, AllIds, Ids, Distinct, H.Elements, M.Once, TipIds, Tickets;
    TipsSplit(cs, first, last, e);
    TipsSplit(cs, first, first, last);
    TipsSplit(cs, last, last, e);
    M.InnerSplit(version, n, m.next, k.next);
    M.Appended(m.retired, k.retired);
    TipsNotInner(cs, version, n, k.next);
    FrontIds(m.t.value, k.chs);
  }

  lemma TipsNotInner(cs: seq<Change>, version: nat, n: nat, next: nat)
    ensures TipIds(cs, 0, |cs|) !! M.Inner(version, n, next)
  {
  }

  lemma FrontIds(c: Node, ts: seq<Node>)
    ensures AllIds([c] + ts) == Ids(c) + AllIds(ts)
    ensures Distinct(c) && AllDistinct(ts) && Ids(c) !! AllIds(ts) ==> AllDistinct([c] + ts)
  {
    hide Ids, Distinct;
    InsertIds(ts, 0, c);
    assert InsertAt(ts, 0, c) == [c] + ts;
  }

  /** The nodes a merge retires are exactly those its tree no longer has. */
  lemma MergeRetires(t: Option<Node>, side: Histories, cs: seq<Change>, version: nat)
    requires (t.Some? ==> Shaped(t.value, []) && Distinct(t.value)) && Ordered(cs) && Tickets(cs) && Older(NodeIds(t), cs, version)
    requires Merge(t, side, cs, 0, |cs|, 0, version, 0).ok
    ensures var r := Merge(t, side, cs, 0, |cs|, 0, version, 0);
            && (r.t.Some? ==> Distinct(r.t.value))
            && H.Elements(r.retired) == NodeIds(t) - NodeIds(r.t) && M.Once(r.retired)
            && (forall x :: x in NodeIds(r.t) - NodeIds(t) ==> x in TipIds(cs, 0, |cs|) || (x.New? && x.ticket == version && x.role == WholeNode))
  {
    hide Merge, Ordered, Shaped, Ids, Distinct;
    RootUnder(cs);
    if t.Some? { RootAt(t.value); }
    MergeExact(t, side, cs, 0, |cs|, [], version, 0);
  }
}
