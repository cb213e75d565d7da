/** Checkpoints of a BeTree: the upper part is rebuilt over the subtrees of
    height zero, which the new tree shares. */
module BeRebuild {
  import opened Records
  import opened Nodes
  import opened BeTree
  import Build = BTreeBuild
  import H = BTreeHistory
  import M = BTreeMergeIds

  // ---- unfolding ------------------------------------------------------------

  /** Neighbouring subtrees and the separators between them. */
  datatype Row = Row(keys: seq<Key>, chs: seq<Node>)

  function Join(a: Row, sep: Key, b: Row): Row {
    Row(a.keys + [sep] + b.keys, a.chs + b.chs)
  }

  /** Below the boundary unfolding stops at height zero; above it never. */
  predicate Stops(t: Node, upper: bool) {
    t.Leaf? || (!upper && t.height == 0) || |t.chs| != |t.keys| + 1
  }

  /** unfold_upper_part, and unfold_extra below the boundary. */
  function Unfold(t: Node, upper: bool): (r: Row)
    ensures |r.chs| == |r.keys| + 1
    decreases t, 0, 0
  {
    if Stops(t, upper) then Row([], [t]) else UnfoldFrom(t.keys, t.chs, 0, upper && t.kind != Boundary)
  }

  function UnfoldFrom(keys: seq<Key>, chs: seq<Node>, i: nat, upper: bool): (r: Row)
    requires i < |chs| == |keys| + 1
    ensures |r.chs| == |r.keys| + 1
    decreases chs, 1, |chs| - i
  {
    if i == |keys| then Unfold(chs[i], upper)
    else Join(Unfold(chs[i], upper), keys[i], UnfoldFrom(keys, chs, i + 1, upper))
  }

  lemma {:induction false} PairsJoin(a: seq<Node>, b: seq<Node>, side: Side, v: nat)
    ensures AllPairs(a + b, side, v) == AllPairs(a, side, v) + AllPairs(b, side, v)
  {
    hide Pairs;
    if a == [] {
      assert a + b == b;
      assert AllPairs(a, side, v) + AllPairs(b, side, v) == AllPairs(b, side, v);
    } else {
      PairsJoin(a[1..], b, side, v);
      assert (a + b)[1..] == a[1..] + b;
      Build.SeqAssoc(Pairs(a[0], side, v), AllPairs(a[1..], side, v), AllPairs(b, side, v));
    }
  }

  lemma OnePair(t: Node, side: Side, v: nat)
    ensures AllPairs([t], side, v) == Pairs(t, side, v)
  {
    hide Pairs;
    assert [t][1..] == [];
    NoPairs(side, v);
    assert Pairs(t, side, v) + [] == Pairs(t, side, v);
  }

  lemma JoinOk(a: Row, sep: Key, b: Row, side: Side, lo: nat, hi: nat)
    requires RowOk(a.keys, a.chs, side, lo, sep) && RowOk(b.keys, b.chs, side, sep, hi) && lo < sep < hi
    ensures RowOk(Join(a, sep, b).keys, Join(a, sep, b).chs, side, lo, hi)
  {
    hide Ordered;
    var r := Join(a, sep, b);
    forall i | 0 <= i < |r.chs| ensures Ordered(r.chs[i], side, LoAt(r.keys, lo, i), HiAt(r.keys, hi, i)) {
      if i < |a.chs| {
        assert r.chs[i] == a.chs[i];
        assert LoAt(r.keys, lo, i) == LoAt(a.keys, lo, i) && HiAt(r.keys, hi, i) == HiAt(a.keys, sep, i);
      } else {
        var j := i - |a.chs|;
        assert r.chs[i] == b.chs[j];
        assert LoAt(r.keys, lo, i) == LoAt(b.keys, sep, j) && HiAt(r.keys, hi, i) == HiAt(b.keys, hi, j);
      }
    }
  }

  lemma OneOk(t: Node, side: Side, lo: nat, hi: nat)
    requires Ordered(t, side, lo, hi)
    ensures RowOk([], [t], side, lo, hi)
  {
  }

  /** An unfolded row has the same order and the same pairs. */
  lemma {:induction false} UnfoldOk(t: Node, upper: bool, side: Side, lo: nat, hi: nat)
    requires Ordered(t, side, lo, hi)
    ensures RowOk(Unfold(t, upper).keys, Unfold(t, upper).chs, side, lo, hi)
    decreases t, 0, 0
  {
    hide Ordered, RowOk, UnfoldFrom;
    if Stops(t, upper) {
      OneOk(t, side, lo, hi);
    } else {
      InnerRow(t, side, lo, hi);
      UnfoldFromOk(t.keys, t.chs, 0, upper && t.kind != Boundary, side, lo, hi);
    }
  }

  lemma {:induction false} UnfoldFromOk(keys: seq<Key>, chs: seq<Node>, i: nat, upper: bool, side: Side, lo: nat, hi: nat)
    requires RowOk(keys, chs, side, lo, hi) && i < |chs| == |keys| + 1
    ensures LoAt(keys, lo, i) < hi
    ensures var r := UnfoldFrom(keys, chs, i, upper); RowOk(r.keys, r.chs, side, LoAt(keys, lo, i), hi)
    decreases chs, 1, |chs| - i
  {
    hide Ordered, RowOk, Unfold, Join;
    RowFacts(keys, chs, side, lo, hi, i);
    UnfoldOk(chs[i], upper, side, LoAt(keys, lo, i), HiAt(keys, hi, i));
    OrderedRange(chs[i], side, LoAt(keys, lo, i), HiAt(keys, hi, i));
    if i < |keys| {
      UnfoldFromOk(keys, chs, i + 1, upper, side, lo, hi);
      JoinOk(Unfold(chs[i], upper), keys[i], UnfoldFrom(keys, chs, i + 1, upper), side, LoAt(keys, lo, i), hi);
    }
  }

  lemma OrderedRange(t: Node, side: Side, lo: nat, hi: nat)
    requires Ordered(t, side, lo, hi)
    ensures lo < hi
  {
    PairsAre(t, side, 0, lo, hi, 0);
  }

  lemma {:induction false} UnfoldPairs(t: Node, upper: bool, side: Side, v: nat)
    ensures AllPairs(Unfold(t, upper).chs, side, v) == Pairs(t, side, v)
    decreases t, 0, 0
  {
    hide AllPairs, UnfoldFrom;
    if Stops(t, upper) {
      OnePair(t, side, v);
    } else {
      UnfoldFromPairs(t.keys, t.chs, 0, upper && t.kind != Boundary, side, v);
      assert t.chs[0..] == t.chs;
    }
  }

  lemma {:induction false} UnfoldFromPairs(keys: seq<Key>, chs: seq<Node>, i: nat, upper: bool, side: Side, v: nat)
    requires i < |chs| == |keys| + 1
    ensures AllPairs(UnfoldFrom(keys, chs, i, upper).chs, side, v) == AllPairs(chs[i..], side, v)
    decreases chs, 1, |chs| - i
  {
    hide AllPairs, Pairs, Unfold;
    UnfoldPairs(chs[i], upper, side, v);
    PairsFrom(chs, i, side, v);
    if i < |keys| {
      UnfoldFromPairs(keys, chs, i + 1, upper, side, v);
      PairsJoin(Unfold(chs[i], upper).chs, UnfoldFrom(keys, chs, i + 1, upper).chs, side, v);
    } else {
      assert chs[i+1..] == [];
      NoPairs(side, v);
      assert Pairs(chs[i], side, v) + [] == Pairs(chs[i], side, v);
    }
  }

  // ---- what a rebuild gives up ----------------------------------------------

  /** visit_rebuilt_upper, and visit_rebuilt_extra below the boundary: children
      first. */
  function Visit(t: Node, upper: bool): seq<Id>
    decreases t, 0, 0
  {
    if Stops(t, upper) then [] else VisitFrom(t.chs, 0, upper && t.kind != Boundary) + [t.id]
  }

  function VisitFrom(chs: seq<Node>, i: nat, upper: bool): seq<Id>
    decreases chs, 1, |chs| - i
  {
    if i >= |chs| then [] else Visit(chs[i], upper) + VisitFrom(chs, i + 1, upper)
  }

  /** Rebuilt nodes have numbers below the next one. */
  ghost predicate NamedBelow(ids: set<Id>, next: nat) {
    forall x :: x in ids && x.Built? ==> x.index < next
  }

  /** The nodes are those visited, once each, and those of the shared subtrees. */
  ghost predicate Parts(ids: set<Id>, kept: set<Id>, given: seq<Id>) {
    && M.Once(given) && kept !! H.Elements(given) && ids == kept + H.Elements(given)
  }

  lemma PartsJoin(a: set<Id>, ak: set<Id>, ag: seq<Id>, b: set<Id>, bk: set<Id>, bg: seq<Id>)
    requires Parts(a, ak, ag) && Parts(b, bk, bg) && a !! b
    ensures Parts(a + b, ak + bk, ag + bg)
  {
    var g := ag + bg;
    assert forall x :: x in g <==> x in ag || x in bg;
    forall i, j | 0 <= i < j < |g| ensures g[i] != g[j] {
      if i < |ag| <= j {
        assert g[i] in a && g[j] in b by { assert ag[i] in H.Elements(ag) && bg[j - |ag|] in H.Elements(bg); }
      }
    }
  }

  lemma PartsNone(ids: set<Id>)
    ensures Parts(ids, ids, [])
  {
  }

  lemma PartsOne(x: Id)
    ensures Parts({x}, {}, [x])
  {
  }

  lemma {:induction false} VisitExact(t: Node, upper: bool)
    requires Distinct(t)
    ensures AllDistinct(Unfold(t, upper).chs) && Parts(Ids(t), AllIds(Unfold(t, upper).chs), Visit(t, upper))
    decreases t, 0, 0
  {
    hide Parts, UnfoldFrom, VisitFrom;
    if Stops(t, upper) {
      OneIds(t);
      PartsNone(Ids(t));
    } else {
      VisitFromExact(t.keys, t.chs, 0, upper && t.kind != Boundary);
      assert t.chs[0..] == t.chs;
      PartsOne(t.id);
      var r := UnfoldFrom(t.keys, t.chs, 0, upper && t.kind != Boundary);
      PartsJoin(AllIds(t.chs), AllIds(r.chs), VisitFrom(t.chs, 0, upper && t.kind != Boundary), {t.id}, {}, [t.id]);
      assert Ids(t) == AllIds(t.chs) + {t.id} && AllIds(r.chs) + {} == AllIds(r.chs);
    }
  }

  lemma OneIds(t: Node)
    ensures AllIds([t]) == Ids(t) && (Distinct(t) ==> AllDistinct([t]))
  {
    hide Ids, Distinct;
    assert [t][0] == t;
    forall x | x in Ids(t) ensures x in AllIds([t]) {
      assert x in Ids([t][0]);
    }
  }

  lemma {:induction false} VisitFromExact(keys: seq<Key>, chs: seq<Node>, i: nat, upper: bool)
    requires i < |chs| == |keys| + 1 && AllDistinct(chs)
    ensures var r := UnfoldFrom(keys, chs, i, upper).chs;
            AllDistinct(r) && Parts(AllIds(chs[i..]), AllIds(r), VisitFrom(chs, i, upper))
    decreases chs, 1, |chs| - i
  {
    hide Parts, Unfold, Visit, Ids, AllIds, Distinct, AllDistinct;
    KidDistinct(chs, i);
    VisitExact(chs[i], upper);
    var rest := chs[i+1..];
    assert chs[i..] == [chs[i]] + rest;
    TailDistinct(chs, i);
    JoinIds([chs[i]], rest);
    OneIds(chs[i]);
    if i < |keys| {
      VisitFromExact(keys, chs, i + 1, upper);
      var a, b := Unfold(chs[i], upper).chs, UnfoldFrom(keys, chs, i + 1, upper).chs;
      PartsJoin(Ids(chs[i]), AllIds(a), Visit(chs[i], upper), AllIds(rest), AllIds(b), VisitFrom(chs, i + 1, upper));
      KeptIn(Ids(chs[i]), AllIds(a), Visit(chs[i], upper));
      KeptIn(AllIds(rest), AllIds(b), VisitFrom(chs, i + 1, upper));
      JoinIds(a, b);
    } else {
      assert rest == [] && chs[i..] == [chs[i]];
      assert Visit(chs[i], upper) + [] == Visit(chs[i], upper);
    }
  }

  lemma KeptIn(ids: set<Id>, kept: set<Id>, given: seq<Id>)
    requires Parts(ids, kept, given)
    ensures kept <= ids
  {
  }

  lemma KidDistinct(chs: seq<Node>, i: nat)
    requires AllDistinct(chs) && i < |chs|
    ensures Distinct(chs[i])
  {
  }

  lemma TailDistinct(chs: seq<Node>, i: nat)
    requires AllDistinct(chs) && i <= |chs|
    ensures AllDistinct(chs[i..])
  {
    hide Ids, Distinct;
    assert forall j :: 0 <= j < |chs| - i ==> chs[i..][j] == chs[i + j];
  }

  // ---- building up ----------------------------------------------------------

  /** The number of levels build_internal puts over n subtrees. */
  function Levels(n: nat): nat {
    if n < 2 * B then 1 else 1 + Levels(n / B)
  }

  /** Types by level: upper nodes down to the boundary. */
  function KindAt(h: nat, d: nat): Kind {
    if d < h then Upper else if d == h then Boundary else Lower
  }

  /** The loop of build_internal: one level of nodes over the subtrees from i
      on, with their lowest keys. */
  function Level(kind: Kind, lows: seq<Key>, chs: seq<Node>, m: nat, r: nat, i: nat, k: nat, next: nat): (res: (seq<Key>, seq<Node>))
    requires |lows| == |chs|
    ensures |res.0| == |res.1|
    decreases |chs| - i
  {
    if i >= |chs| || m == 0 then ([], []) else
    var size := Build.ChunkSize(k, r, m);
    if size == 0 || i + size > |chs| then ([], []) else
    var rest := Level(kind, lows, chs, m, r, i + size, Build.Carry(k, r, m), next + 1);
    ([lows[i]] + rest.0, [Over(kind, lows, chs, i, i + size, next)] + rest.1)
  }

  /** A new node over the subtrees a..b. */
  function Over(kind: Kind, lows: seq<Key>, chs: seq<Node>, a: nat, b: nat, next: nat): Node
    requires a < b <= |chs| == |lows|
  {
    Inner(Built(next), 0, kind, 0, 0, lows[a+1..b], chs[a..b])
  }

  lemma {:induction false} LevelCount(kind: Kind, lows: seq<Key>, chs: seq<Node>, m: nat, r: nat, c: nat, i: nat, k: nat, next: nat)
    requires |lows| == |chs| && Build.Spreading(|chs|, m, r, c, i, k) && i <= |chs|
    ensures c + |Level(kind, lows, chs, m, r, i, k, next).1| == |chs| / B >= 2
    decreases |chs| - i
  {
    hide Build.Spreading, Build.ChunkSize, Build.Carry;
    if i == |chs| {
      Build.LastChunk(|chs|, m, r, c, i, k);
    } else {
      Build.NextChunk(|chs|, m, r, c, i, k);
      LevelCount(kind, lows, chs, m, r, c + 1, i + Build.ChunkSize(k, r, m), Build.Carry(k, r, m), next + 1);
    }
  }

  /** The level above n >= 16 subtrees. */
  function Up(h: nat, lows: seq<Key>, chs: seq<Node>, next: nat): (res: (seq<Key>, seq<Node>))
    requires |lows| == |chs| >= 2 * B
    ensures 2 <= |res.0| == |res.1| == |chs| / B < |chs|
  {
    var n := |chs|;
    Build.SpreadStart(n, n / B, n - n / B * B);
    LevelCount(KindAt(h, Levels(n / B)), lows, chs, n / B, n - n / B * B, 0, 0, 0, next);
    Level(KindAt(h, Levels(n / B)), lows, chs, n / B, n - n / B * B, 0, 0, next)
  }

  /** build_internal, the types given by how many levels come above. */
  function BuildUp(h: nat, lows: seq<Key>, chs: seq<Node>, next: nat): Node
    requires |lows| == |chs| >= 1
    decreases |chs|
  {
    if |chs| < 2 * B then Inner(Built(next), 0, KindAt(h, 0), h, 0, lows[1..], chs)
    else
      var up := Up(h, lows, chs, next);
      BuildUp(h, up.0, up.1, next + |up.1|)
  }

  /** rebuild_internal. */
  function RebuildUpper(t: Node, h: nat, next: nat): Node {
    var row := Unfold(t, true);
    BuildUp(h, [0] + row.keys, row.chs, next)
  }
}
