/** The full rebuild of a BeTree from its pairs, and which rebuild a checkpoint
    takes. */
module BeFull {
  import opened Options
  import opened Records
  import opened Nodes
  import opened BeTree
  import opened BeRebuild
  import opened BeCheckpoint
  import Scan = BTreeScan
  import Build = BTreeBuild
  import H = BTreeHistory
  import M = BTreeMergeIds
  import Fill = BTreeFill
  import BTree
  import LeafScan

  // ---- leaves ---------------------------------------------------------------

  /** No sidecar belongs to a node still to be made. */
  ghost predicate NoSlots(side: Side, next: nat) {
    forall x: Id :: x.Built? && x.index >= next ==> BTree.SlotsAt(side, x) == []
  }

  function LeafFor(elems: seq<(Key, Val)>, verge: nat, next: nat): Node {
    Leaf(Built(next), 0, verge, Build.PairKeys(elems), Build.PairVals(elems))
  }

  lemma LeafForOk(elems: seq<(Key, Val)>, verge: nat, next: nat, side: Side, v: nat, lo: nat, hi: nat)
    requires Build.SortedPairs(elems, hi) && |elems| <= MAX_KEYS && lo < hi && NoSlots(side, next) && forall i :: 0 <= i < |elems| ==> lo <= elems[i].0
    ensures Ordered(LeafFor(elems, verge, next), side, lo, hi) && Pairs(LeafFor(elems, verge, next), side, v) == elems
  {
    hide LeafScan.Items, Base, Pairs, Ordered, NoSlots, LeafFor;
    Build.LeafItems(elems, hi);
    LeafForPairs(elems, verge, next, side, v);
    LeafForOrdered(elems, verge, next, side, lo, hi);
  }

  lemma LeafForPairs(elems: seq<(Key, Val)>, verge: nat, next: nat, side: Side, v: nat)
    requires NoSlots(side, next)
    ensures Pairs(LeafFor(elems, verge, next), side, v) == LeafScan.Items(Base(Build.PairKeys(elems), Build.PairVals(elems)))
  {
    hide LeafScan.Items, Base;
  }

  lemma LeafForOrdered(elems: seq<(Key, Val)>, verge: nat, next: nat, side: Side, lo: nat, hi: nat)
    requires Build.SortedPairs(elems, hi) && |elems| <= MAX_KEYS && lo < hi && NoSlots(side, next) && forall i :: 0 <= i < |elems| ==> lo <= elems[i].0
    ensures Ordered(LeafFor(elems, verge, next), side, lo, hi)
  {
  }

  /** The loop of build_sorted, from pair i on. */
  function LeafLevel(elems: seq<(Key, Val)>, m: nat, r: nat, i: nat, k: nat, next: nat): (res: (seq<Key>, seq<Node>))
    ensures |res.0| == |res.1|
    decreases |elems| - i
  {
    if i >= |elems| || m == 0 then ([], []) else
    var size := Build.ChunkSize(k, r, m);
    if size == 0 || i + size > |elems| then ([], []) else
    var rest := LeafLevel(elems, m, r, i + size, Build.Carry(k, r, m), next + 1);
    ([elems[i].0] + rest.0, [LeafFor(elems[i..i+size], 0, next)] + rest.1)
  }

  lemma {:induction false} LeafCount(elems: seq<(Key, Val)>, m: nat, r: nat, c: nat, i: nat, k: nat, next: nat)
    requires Build.Spreading(|elems|, m, r, c, i, k) && i <= |elems|
    ensures c + |LeafLevel(elems, m, r, i, k, next).1| == |elems| / B >= 2
    decreases |elems| - i
  {
    hide Build.Spreading, Build.ChunkSize, Build.Carry, LeafFor;
    if i == |elems| {
      Build.LastChunk(|elems|, m, r, c, i, k);
    } else {
      Build.NextChunk(|elems|, m, r, c, i, k);
      LeafCount(elems, m, r, c + 1, i + Build.ChunkSize(k, r, m), Build.Carry(k, r, m), next + 1);
    }
  }

  lemma SliceSorted(elems: seq<(Key, Val)>, hi: nat, a: nat, b: nat)
    requires Build.SortedPairs(elems, hi) && a <= b <= |elems|
    ensures Build.SortedPairs(elems[a..b], if b < |elems| then elems[b].0 else hi)
    ensures forall i :: 0 <= i < b - a ==> elems[a].0 <= elems[a..b][i].0
  {
  }

  lemma NoSlotsLater(side: Side, next: nat, later: nat)
    requires NoSlots(side, next) && next <= later
    ensures NoSlots(side, later)
  {
  }

  lemma {:induction false} LeafLevelOk(elems: seq<(Key, Val)>, m: nat, r: nat, c: nat, i: nat, k: nat, next: nat, side: Side, v: nat, lo: nat, hi: nat)
    requires Build.Spreading(|elems|, m, r, c, i, k) && i < |elems| && Build.SortedPairs(elems, hi) && lo <= elems[i].0 && NoSlots(side, next)
    ensures var res := LeafLevel(elems, m, r, i, k, next);
            && |res.1| >= 1 && res.0[0] == elems[i].0 && LowsOk(res.0, res.1, side, 0, lo, hi)
            && AllPairs(res.1, side, v) == elems[i..]
    decreases |elems| - i
  {
    hide Build.Spreading, Build.ChunkSize, Build.Carry, LeafFor, Ordered, RowOk, Pairs, AllPairs, Build.SortedPairs, NoSlots;
    Build.NextChunk(|elems|, m, r, c, i, k);
    var b := i + Build.ChunkSize(k, r, m);
    var t := LeafFor(elems[i..b], 0, next);
    var res := LeafLevel(elems, m, r, i, k, next);
    var rest := LeafLevel(elems, m, r, b, Build.Carry(k, r, m), next + 1);
    var mid := if b < |elems| then elems[b].0 else hi;
    SliceSorted(elems, hi, i, b);
    MidAbove(elems, hi, i, b);
    LeafForOk(elems[i..b], 0, next, side, v, lo, mid);
    OneOk(t, side, lo, mid);
    OnePair(t, side, v);
    PairsJoin([t], rest.1, side, v);
    assert elems[i..] == elems[i..b] + elems[b..];
    if b < |elems| {
      NoSlotsLater(side, next, next + 1);
      LeafLevelOk(elems, m, r, c + 1, b, Build.Carry(k, r, m), next + 1, side, v, mid, hi);
      ConsOk(t, mid, rest.0, rest.1, res.0[0], side, lo, hi);
    } else {
      assert res.0[0+1..] == [] && res.1[0..] == [t] && rest.1 == [] && elems[b..] == [];
      NoPairs(side, v);
    }
  }

  lemma MidAbove(elems: seq<(Key, Val)>, hi: nat, i: nat, b: nat)
    requires Build.SortedPairs(elems, hi) && i < b <= |elems|
    ensures elems[i].0 < (if b < |elems| then elems[b].0 else hi)
    ensures b < |elems| ==> elems[b].0 < hi
  {
  }

  lemma {:induction false} LeafIds(elems: seq<(Key, Val)>, m: nat, r: nat, c: nat, i: nat, k: nat, next: nat)
    requires Build.Spreading(|elems|, m, r, c, i, k) && i <= |elems|
    ensures var ts := LeafLevel(elems, m, r, i, k, next).1;
            AllDistinct(ts) && Fresh(AllIds(ts), {}, next, next + |ts|)
    decreases |elems| - i
  {
    hide Build.Spreading, Build.ChunkSize, Build.Carry, Ids, AllIds, Distinct, AllDistinct;
    if i == |elems| {
      NoIds();
    } else {
      Build.NextChunk(|elems|, m, r, c, i, k);
      var b := i + Build.ChunkSize(k, r, m);
      LeafIds(elems, m, r, c + 1, b, Build.Carry(k, r, m), next + 1);
      var t := LeafFor(elems[i..b], 0, next);
      LeafId(t);
      OneIds(t);
      JoinIds([t], LeafLevel(elems, m, r, b, Build.Carry(k, r, m), next + 1).1);
    }
  }

  lemma LeafId(t: Node)
    requires t.Leaf?
    ensures Ids(t) == {t.id} && Distinct(t)
  {
  }

  // ---- the full rebuild -----------------------------------------------------

  /** The leaves of n >= 16 pairs. */
  function Leaves(elems: seq<(Key, Val)>, next: nat): (res: (seq<Key>, seq<Node>))
    requires |elems| >= 2 * B
    ensures 2 <= |res.0| == |res.1|
  {
    var n := |elems|;
    Build.SpreadStart(n, n / B, n - n / B * B);
    LeafCount(elems, n / B, n - n / B * B, 0, 0, 0, next);
    LeafLevel(elems, n / B, n - n / B * B, 0, 0, next)
  }

  /** build_sorted. */
  function BuildSorted(h: nat, elems: seq<(Key, Val)>, next: nat): Node {
    if |elems| < 2 * B then LeafFor(elems, h, next)
    else
      var up := Leaves(elems, next);
      BuildUp(h, up.0, up.1, next + |up.1|)
  }

  /** rebuild_entire: at a version, from the pairs of that version. */
  function RebuildEntire(t: Node, h: nat, side: Side, v: nat, next: nat): Node {
    BuildSorted(h, Pairs(t, side, v), next)
  }

  lemma LeavesOk(elems: seq<(Key, Val)>, next: nat, side: Side, v: nat, lo: nat, hi: nat)
    requires |elems| >= 2 * B && Build.SortedPairs(elems, hi) && NoSlots(side, next) && lo <= elems[0].0
    ensures var up := Leaves(elems, next); LowsOk(up.0, up.1, side, 0, lo, hi) && AllPairs(up.1, side, v) == elems
  {
    hide LeafLevel, Build.Spreading, RowOk, AllPairs, Build.SortedPairs, NoSlots;
    var m := |elems| / B;
    Build.SpreadStart(|elems|, m, |elems| - m * B);
    LeafLevelOk(elems, m, |elems| - m * B, 0, 0, 0, next, side, v, lo, hi);
    assert elems[0..] == elems;
  }

  lemma LeavesIds(elems: seq<(Key, Val)>, next: nat)
    requires |elems| >= 2 * B
    ensures var up := Leaves(elems, next); AllDistinct(up.1) && Fresh(AllIds(up.1), {}, next, next + |up.1|)
  {
    hide LeafLevel, Build.Spreading, AllIds, AllDistinct;
    var m := |elems| / B;
    Build.SpreadStart(|elems|, m, |elems| - m * B);
    LeafIds(elems, m, |elems| - m * B, 0, 0, 0, next);
  }

  lemma BuildSortedOk(h: nat, elems: seq<(Key, Val)>, next: nat, side: Side, v: nat, lo: nat, hi: nat)
    requires Build.SortedPairs(elems, hi) && NoSlots(side, next) && lo < hi && forall i :: 0 <= i < |elems| ==> lo <= elems[i].0
    ensures var r := BuildSorted(h, elems, next); Ordered(r, side, lo, hi) && Pairs(r, side, v) == elems
  {
    hide LeafFor, Leaves, BuildUp, Ordered, RowOk, Pairs, AllPairs, Build.SortedPairs, NoSlots;
    if |elems| < 2 * B {
      LeafForOk(elems, h, next, side, v, lo, hi);
    } else {
      LeavesOk(elems, next, side, v, lo, hi);
      var up := Leaves(elems, next);
      UpOrdered(h, up.0, up.1, next + |up.1|, side, lo, hi);
      UpPairs(h, up.0, up.1, next + |up.1|, side, v);
    }
  }

  lemma BuildSortedIds(h: nat, elems: seq<(Key, Val)>, next: nat)
    ensures var r := BuildSorted(h, elems, next); Distinct(r) && forall x :: x in Ids(r) ==> x.Built? && x.index >= next
  {
    hide Leaves, BuildUp, Ids, AllIds, Distinct, AllDistinct;
    var r := BuildSorted(h, elems, next);
    if |elems| < 2 * B {
      LeafId(r);
    } else {
      LeavesIds(elems, next);
      var up := Leaves(elems, next);
      UpIds(h, up.0, up.1, next + |up.1|);
      var last: nat :| last > next + |up.1| && Fresh(Ids(r), AllIds(up.1), next + |up.1|, last);
    }
  }

  /** The full rebuild keeps the map visible at its version. */
  lemma EntireShows(t: Node, h: nat, side: Side, v: nat, next: nat, lo: nat, hi: nat, k: Key)
    requires Ordered(t, side, lo, hi) && NoSlots(side, next) && lo <= k < hi
    ensures var r := RebuildEntire(t, h, side, v, next);
            Ordered(r, side, lo, hi) && Pairs(r, side, v) == Pairs(t, side, v) && Get(r, side, v, k) == Get(t, side, v, k)
  {
    hide BuildSorted, Ordered, Pairs, Get, Scan.Assoc, NoSlots;
    PairsAre(t, side, v, lo, hi, k);
    BuildSortedOk(h, Pairs(t, side, v), next, side, v, lo, hi);
    PairsAre(RebuildEntire(t, h, side, v, next), side, v, lo, hi, k);
  }

  // ---- what the full rebuild gives up ---------------------------------------

  /** visit_rebuilt_entire: every node, children first. */
  function VisitEntire(t: Node): seq<Id>
    decreases t, 0, 0
  {
    if t.Leaf? then [t.id] else VisitEntireFrom(t.chs, 0) + [t.id]
  }

  function VisitEntireFrom(chs: seq<Node>, i: nat): seq<Id>
    decreases chs, 1, |chs| - i
  {
    if i >= |chs| then [] else VisitEntire(chs[i]) + VisitEntireFrom(chs, i + 1)
  }

  lemma NothingKept()
    ensures var none: set<Id> := {}; none + none == none
  {
  }

  lemma {:induction false} EntireExact(t: Node)
    requires Distinct(t)
    ensures Parts(Ids(t), {}, VisitEntire(t))
    decreases t, 0, 0
  {
    hide Parts, VisitEntireFrom;
    PartsOne(t.id);
    if t.Inner? {
      EntireFromExact(t.chs, 0);
      assert t.chs[0..] == t.chs;
      PartsJoin(AllIds(t.chs), {}, VisitEntireFrom(t.chs, 0), {t.id}, {}, [t.id]);
      assert Ids(t) == AllIds(t.chs) + {t.id};
      NothingKept();
    }
  }

  lemma {:induction false} EntireFromExact(chs: seq<Node>, i: nat)
    requires i <= |chs| && AllDistinct(chs)
    ensures Parts(AllIds(chs[i..]), {}, VisitEntireFrom(chs, i))
    decreases chs, 1, |chs| - i
  {
    hide Parts, VisitEntire, Ids, AllIds, Distinct, AllDistinct;
    if i == |chs| {
      assert chs[i..] == [];
      NoIds();
      PartsNone({});
    } else {
      KidDistinct(chs, i);
      EntireExact(chs[i]);
      EntireFromExact(chs, i + 1);
      var rest := chs[i+1..];
      assert chs[i..] == [chs[i]] + rest;
      TailDistinct(chs, i);
      JoinIds([chs[i]], rest);
      OneIds(chs[i]);
      PartsJoin(Ids(chs[i]), {}, VisitEntire(chs[i]), AllIds(rest), {}, VisitEntireFrom(chs, i + 1));
      NothingKept();
    }
  }

  /** It shares nothing, and the visitor gives every old node once. */
  lemma EntireShares(t: Node, h: nat, side: Side, v: nat, next: nat)
    requires Distinct(t) && NamedBelow(Ids(t), next)
    ensures var r := RebuildEntire(t, h, side, v, next);
            && Distinct(r) && Ids(t) !! Ids(r)
            && M.Once(VisitEntire(t)) && H.Elements(VisitEntire(t)) == Ids(t) - Ids(r)
  {
    hide BuildSorted, Ids, Distinct, Pairs, VisitEntire;
    BuildSortedIds(h, Pairs(t, side, v), next);
    EntireExact(t);
  }

  // ---- which one ------------------------------------------------------------

  /** leaf_over_boundary: a leaf on the leftmost path within h levels. */
  predicate LeafAbove(t: Node, h: nat)
    decreases t
  {
    t.Leaf? || (h > 0 && t.chs != [] && LeafAbove(t.chs[0], h - 1))
  }

  lemma {:induction false} NoLeafAbove(t: Node, h: nat)
    requires Elastic(t, h)
    ensures !LeafAbove(t, h)
    decreases t
  {
    if h > 0 {
      NoLeafAbove(t.chs[0], h - 1);
    }
  }

  /** unfold_upper_part: none where the children of a leaf would be read, because
      a path ends before it meets the boundary. */
  function UnfoldUpper(t: Node): (o: Option<Row>)
    ensures o.Some? ==> |o.value.chs| == |o.value.keys| + 1
    decreases t, 0, 0
  {
    if t.Leaf? || |t.chs| != |t.keys| + 1 then None
    else if t.kind == Boundary then Some(UnfoldFrom(t.keys, t.chs, 0, false))
    else UnfoldUpperFrom(t.keys, t.chs, 0)
  }

  function UnfoldUpperFrom(keys: seq<Key>, chs: seq<Node>, i: nat): (o: Option<Row>)
    requires i < |chs| == |keys| + 1
    ensures o.Some? ==> |o.value.chs| == |o.value.keys| + 1
    decreases chs, 1, |chs| - i
  {
    match UnfoldUpper(chs[i])
    case None => None
    case Some(a) =>
      if i == |keys| then Some(a) else
      match UnfoldUpperFrom(keys, chs, i + 1)
      case None => None
      case Some(b) => Some(Join(a, keys[i], b))
  }

  /** Every path meets a boundary node. */
  ghost predicate Meets(t: Node)
    decreases t
  {
    t.Inner? && |t.chs| == |t.keys| + 1 && (t.kind == Boundary || forall i :: 0 <= i < |t.chs| ==> Meets(t.chs[i]))
  }

  /** The upper part can be unfolded if and only if every path meets the boundary. */
  lemma {:induction false} UnfoldUpperIs(t: Node)
    ensures UnfoldUpper(t) == if Meets(t) then Some(Unfold(t, true)) else None
    decreases t, 0, 0
  {
    hide UnfoldFrom;
    if t.Inner? && |t.chs| == |t.keys| + 1 && t.kind != Boundary {
      UnfoldUpperFromIs(t.keys, t.chs, 0);
    }
  }

  lemma {:induction false} UnfoldUpperFromIs(keys: seq<Key>, chs: seq<Node>, i: nat)
    requires i < |chs| == |keys| + 1
    ensures UnfoldUpperFrom(keys, chs, i) == if (forall j :: i <= j < |chs| ==> Meets(chs[j])) then Some(UnfoldFrom(keys, chs, i, true)) else None
    decreases chs, 1, |chs| - i
  {
    hide Meets, Unfold, Join;
    UnfoldUpperIs(chs[i]);
    if i < |keys| { UnfoldUpperFromIs(keys, chs, i + 1); }
  }

  lemma {:induction false} ElasticMeets(t: Node, h: nat)
    requires Elastic(t, h)
    ensures Meets(t)
    decreases t
  {
    if h > 0 {
      forall i | 0 <= i < |t.chs| ensures Meets(t.chs[i]) {
        ElasticMeets(t.chs[i], h - 1);
      }
    }
  }

  /** rebuild, at the root's own verge. */
  function Rebuild(t: Node, side: Side, v: nat, next: nat): Option<Node> {
    if LeafAbove(t, t.verge) then Some(RebuildEntire(t, t.verge, side, v, next))
    else match UnfoldUpper(t)
      case None => None
      case Some(row) => Some(BuildUp(t.verge, [0] + row.keys, row.chs, next))
  }

  /** A rebuild is defined if and only if the leftmost path is short or all paths
      meet the boundary. */
  lemma RebuildDefined(t: Node, side: Side, v: nat, next: nat)
    ensures Rebuild(t, side, v, next).Some? <==> LeafAbove(t, t.verge) || Meets(t)
    ensures Meets(t) && !LeafAbove(t, t.verge) ==> Rebuild(t, side, v, next) == Some(RebuildUpper(t, t.verge, next))
  {
    hide LeafAbove, Meets, RebuildEntire, UnfoldUpper, Unfold, BuildUp;
    UnfoldUpperIs(t);
  }

  /** visit_checkpoint_retired. */
  function VisitRetired(t: Node): seq<Id> {
    if LeafAbove(t, t.verge) then VisitEntire(t) else Visit(t, true)
  }

  /** Whichever rebuild is taken: the map at the version is kept, and exactly the
      nodes the new tree lacks are given to the visitor, once each. */
  lemma CheckpointKeeps(t: Node, side: Side, v: nat, next: nat, hi: nat, k: Key)
    requires Ordered(t, side, 0, hi) && Distinct(t) && NamedBelow(Ids(t), next) && NoSlots(side, next) && k < hi
    ensures Rebuild(t, side, v, next).Some? <==> LeafAbove(t, t.verge) || Meets(t)
    ensures Rebuild(t, side, v, next).Some? ==>
              var r := Rebuild(t, side, v, next).value;
              && Ordered(r, side, 0, hi) && Get(r, side, v, k) == Get(t, side, v, k) && Pairs(r, side, v) == Pairs(t, side, v)
              && Distinct(r) && M.Once(VisitRetired(t)) && H.Elements(VisitRetired(t)) == Ids(t) - Ids(r)
  {
    hide Ordered, Pairs, Get, Distinct, Ids, RebuildUpper, RebuildEntire, Visit, VisitEntire, NoSlots, LeafAbove, Meets, UnfoldUpper;
    RebuildDefined(t, side, v, next);
    if LeafAbove(t, t.verge) {
      EntireShows(t, t.verge, side, v, next, 0, hi, k);
      EntireShares(t, t.verge, side, v, next);
    } else {
      RebuildShows(t, t.verge, next, side, 0, hi, v, k);
      RebuildShares(t, t.verge, next);
    }
  }

  /** On a tree whose paths all meet the boundary a checkpoint takes the partial
      rebuild, shares exactly the subtrees of height zero, and leaves elastic
      subtrees of height zero only. */
  lemma CheckpointIsPartial(t: Node, h: nat, side: Side, v: nat, next: nat)
    requires Elastic(t, h) && WideRoot(t, h) && t.verge == h && Distinct(t) && NamedBelow(Ids(t), next)
    ensures Rebuild(t, side, v, next).Some?
    ensures var r := Rebuild(t, side, v, next).value;
            && Elastic(r, h) && AtMost(r, h, 0) && WideRoot(r, h) && r.verge == h
            && Ids(t) * Ids(r) == AllIds(Unfold(t, true).chs) && AllBottom(Unfold(t, true).chs)
  {
    hide Elastic, AtMost, WideRoot, Distinct, Ids, AllIds, RebuildUpper, RebuildEntire, Unfold, Meets, UnfoldUpper, LeafAbove;
    NoLeafAbove(t, h);
    ElasticMeets(t, h);
    RebuildDefined(t, side, v, next);
    RebuildFit(t, h, next);
    RebuildShares(t, h, next);
    UnfoldElastic(t, h);
  }

  // ---- which trees are built with a boundary --------------------------------

  lemma LevelFirst(kind: Kind, lows: seq<Key>, chs: seq<Node>, m: nat, r: nat, next: nat)
    requires |lows| == |chs| && Build.Spreading(|chs|, m, r, 0, 0, 0) && |chs| >= 2 * B
    ensures var ts := Level(kind, lows, chs, m, r, 0, 0, next).1;
            |ts| >= 1 && ts[0].Inner? && |ts[0].chs| >= 1 && ts[0].chs[0] == chs[0]
  {
    hide Build.Spreading, Build.ChunkSize, Build.Carry;
    Build.NextChunk(|chs|, m, r, 0, 0, 0);
  }

  lemma {:induction false} LeafAboveMore(t: Node, a: nat, b: nat)
    requires LeafAbove(t, a) && a <= b
    ensures LeafAbove(t, b)
    decreases t
  {
    if t.Inner? { LeafAboveMore(t.chs[0], a - 1, b - 1); }
  }

  /** The leftmost path of what is built over subtrees. */
  lemma {:induction false} UpLeft(h: nat, lows: seq<Key>, chs: seq<Node>, next: nat, d: nat)
    requires |lows| == |chs| >= 1 && LeafAbove(chs[0], d)
    ensures LeafAbove(BuildUp(h, lows, chs, next), d + Levels(|chs|))
    decreases |chs|
  {
    hide Level, Build.Spreading;
    if |chs| >= 2 * B {
      var m := |chs| / B;
      Build.SpreadStart(|chs|, m, |chs| - m * B);
      LevelFirst(KindAt(h, Levels(m)), lows, chs, m, |chs| - m * B, next);
      var up := Up(h, lows, chs, next);
      UpLeft(h, up.0, up.1, next + |up.1|, d + 1);
    }
  }

  lemma {:induction false} LevelsFew(n: nat, h: nat)
    requires 2 <= n < 2 * Fill.Pow8(h)
    ensures Levels(n) <= h
  {
    if n >= 2 * B {
      assert h >= 1;
      if h >= 1 { LevelsFew(n / B, h - 1); }
    }
  }

  /** A tree built from sorted pairs has its boundary if and only if the pairs are
      16 * 8^h or more; with fewer, a leaf lies above it. */
  lemma BuiltElastic(h: nat, elems: seq<(Key, Val)>, next: nat)
    ensures var t := BuildSorted(h, elems, next);
            && (Elastic(t, h) <==> |elems| >= 16 * Fill.Pow8(h))
            && (LeafAbove(t, h) <==> |elems| < 16 * Fill.Pow8(h))
            && (Elastic(t, h) ==> AtMost(t, h, 0) && WideRoot(t, h) && t.verge == h)
  {
    hide Leaves, BuildUp, Elastic, AtMost, WideRoot;
    var t := BuildSorted(h, elems, next);
    if |elems| < 2 * B {
      LeafIsNot(t, h);
    } else {
      var up := Leaves(elems, next);
      LeavesAre(elems, next);
      if |elems| >= 16 * Fill.Pow8(h) {
        LevelsEnough(|up.1|, h);
        LeavesFit(up.1, h, Levels(|up.1|));
        UpFit(h, up.0, up.1, next + |up.1|);
        NoLeafAbove(t, h);
      } else {
        LevelsFew(|up.1|, h);
        UpLeft(h, up.0, up.1, next + |up.1|, 0);
        LeafAboveMore(t, Levels(|up.1|), h);
        if Elastic(t, h) { NoLeafAbove(t, h); }
      }
    }
  }

  lemma LeafIsNot(t: Node, h: nat)
    requires t.Leaf?
    ensures !Elastic(t, h) && LeafAbove(t, h)
  {
  }

  lemma LeavesFit(ts: seq<Node>, h: nat, d: nat)
    requires d > h && AllLeaves(ts)
    ensures AllFit(ts, h, d)
  {
  }

  lemma LeavesAre(elems: seq<(Key, Val)>, next: nat)
    requires |elems| >= 2 * B
    ensures |Leaves(elems, next).1| == |elems| / B
    ensures AllLeaves(Leaves(elems, next).1)
  {
    hide LeafLevel, Build.Spreading;
    var m := |elems| / B;
    Build.SpreadStart(|elems|, m, |elems| - m * B);
    LeafCount(elems, m, |elems| - m * B, 0, 0, 0, next);
    LevelLeaves(elems, m, |elems| - m * B, 0, 0, next);
  }

  ghost predicate AllLeaves(ts: seq<Node>) {
    forall i :: 0 <= i < |ts| ==> ts[i].Leaf?
  }

  lemma LeafAndLeaves(t: Node, ts: seq<Node>)
    requires t.Leaf? && AllLeaves(ts)
    ensures AllLeaves([t] + ts)
  {
  }

  lemma {:induction false} LevelLeaves(elems: seq<(Key, Val)>, m: nat, r: nat, i: nat, k: nat, next: nat)
    ensures AllLeaves(LeafLevel(elems, m, r, i, k, next).1)
    decreases |elems| - i
  {
    hide Build.ChunkSize, Build.Carry;
    if i < |elems| && m > 0 {
      var size := Build.ChunkSize(k, r, m);
      if size > 0 && i + size <= |elems| {
        LevelLeaves(elems, m, r, i + size, Build.Carry(k, r, m), next + 1);
        LeafAndLeaves(LeafFor(elems[i..i+size], 0, next), LeafLevel(elems, m, r, i + size, Build.Carry(k, r, m), next + 1).1);
      }
    }
  }
}
