/** Elastic subtrees that began as leaves: all leaves at one depth, which is the
    subtree's height, and all nodes but the subtree's root at least half full. */
module BeStacked {
  import opened Records
  import opened Nodes
  import opened BeTree
  import opened BeUpdate
  import opened BeShares
  import opened BeRebuild
  import Check = BeCheckpoint
  import BTree
  import BTreeCow
  import Build = BTreeBuild
  import Fill = BTreeFill

  predicate Thick(t: Node) {
    if t.Leaf? then |t.keys| >= B else |t.chs| >= B
  }

  /** d levels of nodes over leaves, each node of the height it has. */
  ghost predicate Stacked(t: Node, d: nat)
    decreases t
  {
    if d == 0 then t.Leaf? && Thick(t)
    else t.Inner? && t.kind == Lower && t.height == d && Sized(t) && forall i :: 0 <= i < |t.chs| ==> Stacked(t.chs[i], d - 1) && Thick(t.chs[i])
  }

  ghost predicate AllStacked(ts: seq<Node>, d: nat) {
    forall i :: 0 <= i < |ts| ==> Stacked(ts[i], d) && Thick(ts[i])
  }

  /** A node may stay thin where one was. */
  ghost predicate RunStacked(run: Run, d: nat, thin: bool) {
    match run
    case One(t) => Stacked(t, d) && (thin || Thick(t))
    case Two(left, _, right) => Stacked(left, d) && Stacked(right, d) && Thick(left) && Thick(right)
  }

  // ---- updates --------------------------------------------------------------

  lemma SpliceStacked(keys: seq<Key>, chs: seq<Node>, i: nat, run: Run, d: nat)
    requires i < |chs| == |keys| + 1 && AllStacked(chs, d) && RunStacked(run, d, false)
    ensures var ks, cs := SpliceKeys(keys, i, run), SpliceKids(chs, i, run);
            && AllStacked(cs, d) && |cs| == |ks| + 1 && |keys| <= |ks| <= |keys| + 1
  {
    hide Stacked, Thick;
    var cs := SpliceKids(chs, i, run);
    forall j | 0 <= j < |cs| ensures Stacked(cs[j], d) && Thick(cs[j]) {
      if run.Two? && j >= i + 2 { assert cs[j] == chs[j-1]; }
    }
  }

  lemma StackedIs(t: Node, d: nat)
    requires t.Inner? && d > 0
    ensures Stacked(t, d) <==> t.kind == Lower && t.height == d && Sized(t) && AllStacked(t.chs, d - 1)
  {
    hide Thick;
  }

  lemma StackedLeaf(t: Node, d: nat)
    requires Stacked(t, d)
    ensures t.Leaf? <==> d == 0
    ensures HeightOf(t) == d && (t.Leaf? ==> Thick(t))
  {
  }

  lemma {:induction false} DescendStacked(keys: seq<Key>, chs: seq<Node>, side: Side, r: Request, stage: nat, d: nat)
    requires |chs| == |keys| + 1 && AllStacked(chs, d) && forall i :: 0 <= i < |chs| ==> Formed(chs[i])
    ensures var res := Descend(keys, chs, side, r, stage);
            AllStacked(res.1, d) && |res.1| == |res.0| + 1 && |keys| <= |res.0| <= |keys| + 1
    decreases chs, 0
  {
    hide Stacked, Replace, Thick, Formed;
    var i := FindCh(keys, r.key);
    ReplaceStacked(chs[i], side, r, stage, d, false);
    SpliceStacked(keys, chs, i, Replace(chs[i], side, r, stage), d);
  }

  lemma {:induction false} ReplaceStacked(t: Node, side: Side, r: Request, stage: nat, d: nat, thin: bool)
    requires Stacked(t, d) && Formed(t) && (thin || Thick(t))
    ensures RunStacked(Replace(t, side, r, stage), d, thin)
    decreases t, 2
  {
    hide Stacked, Descend, LeafCopies, Halves, Formed;
    StackedLeaf(t, d);
    if t.Leaf? {
      FormedLeaf(t);
      LeavesStacked(t, side, r, stage);
    } else {
      StackedIs(t, d);
      FormedRow(t);
      if |t.keys| == MAX_KEYS {
        HalvesStacked(t, side, r, stage, d);
      } else {
        DescendStacked(t.keys, t.chs, side, r, stage + 1, d - 1);
        var res := Descend(t.keys, t.chs, side, r, stage + 1);
        StackedIs(Copied(t, New(r.ticket, stage, WholeNode), r.ticket, res.0, res.1), d);
      }
    }
  }

  lemma FormedLeaf(t: Node)
    requires t.Leaf? && Formed(t)
    ensures |t.keys| == |t.vals|
  {
  }

  /** A leaf's map never gets smaller. */
  lemma ViewSize(t: Node, side: Side, v: nat, key: Key, val: Val)
    requires t.Leaf? && Formed(t)
    ensures |View(t, side, v)[key := val].Keys| >= |t.keys|
  {
    var m := View(t, side, v)[key := val];
    BaseKeys(t.keys, t.vals);
    OverlayKeys(Base(t.keys, t.vals), BTree.SlotsAt(side, t.id), v);
    SetSize(t.keys);
    SubsetSize(KeySet(t.keys), m.Keys);
  }

  lemma {:induction false} SetSize(s: seq<Key>)
    requires Sorted(s)
    ensures |KeySet(s)| == |s|
  {
    if s == [] {
      assert KeySet(s) == {};
    } else {
      var n := |s| - 1;
      SetSize(s[..n]);
      assert s == s[..n] + [s[n]];
      assert KeySet(s) == KeySet(s[..n]) + {s[n]};
    }
  }

  lemma {:induction false} SubsetSize(a: set<Key>, b: set<Key>)
    requires a <= b
    ensures |a| <= |b|
  {
    if a != {} {
      var x :| x in a;
      SubsetSize(a - {x}, b - {x});
    }
  }

  lemma LeavesStacked(t: Node, side: Side, r: Request, stage: nat)
    requires t.Leaf? && Formed(t) && |t.keys| == |t.vals|
    ensures Thick(t) ==> RunStacked(LeafCopies(t, side, r, stage), 0, false)
    ensures LeafCopies(t, side, r, stage).Two? ==> RunStacked(LeafCopies(t, side, r, stage), 0, false)
    ensures LeafCopies(t, side, r, stage).One? ==> LeafCopies(t, side, r, stage).t.Leaf? && LeafCopies(t, side, r, stage).t.verge == t.verge
  {
    hide View, Ascending, Formed, CutLeaves, RunStacked, Thick;
    ViewSize(t, side, r.ticket, r.key, r.val);
    var m := View(t, side, r.ticket)[r.key := r.val];
    var ks := Ascending(m.Keys);
    BTreeCow.AscendingIn(m.Keys);
    CutStacked(ks, ValuesOf(m, ks), t.verge, r, stage);
    ThickLeaf(t);
  }

  lemma ThickLeaf(t: Node)
    requires t.Leaf?
    ensures Thick(t) <==> |t.keys| >= B
  {
  }

  lemma CutStacked(ks: seq<Key>, vs: seq<Val>, verge: nat, r: Request, stage: nat)
    requires |ks| == |vs|
    ensures var run := CutLeaves(ks, vs, verge, r, stage);
            if run.Two? then RunStacked(run, 0, false)
            else run.t.Leaf? && run.t.verge == verge && (|ks| >= B ==> RunStacked(run, 0, false))
  {
  }

  lemma {:induction false} HalvesStacked(t: Node, side: Side, r: Request, stage: nat, d: nat)
    requires d > 0 && Stacked(t, d) && Formed(t) && t.Inner? && |t.keys| == MAX_KEYS
    ensures |t.chs| == 2 * B && RunStacked(Halves(t, side, r, stage), d, false)
    decreases t, 1
  {
    hide Stacked, Descend, Formed;
    StackedIs(t, d);
    HalvesFormed(t);
    assert AllStacked(t.chs[..B], d - 1) && AllStacked(t.chs[B..], d - 1);
    if r.key < t.keys[B-1] {
      DescendStacked(t.keys[..B-1], t.chs[..B], side, r, stage + 1, d - 1);
    } else {
      DescendStacked(t.keys[B..], t.chs[B..], side, r, stage + 1, d - 1);
    }
    var run := Halves(t, side, r, stage);
    StackedIs(run.left, d);
    StackedIs(run.right, d);
  }

  lemma RaisedStacked(t: Node, run: Run, r: Request, stage: nat, d: nat)
    requires Stacked(t, d) && RunStacked(run, d, true)
    ensures var u := Raised(t, run, r, stage); Stacked(u, HeightOf(u)) && d <= HeightOf(u) <= d + 1
  {
    hide Stacked, Thick;
    StackedLeaf(t, d);
    var u := Raised(t, run, r, stage);
    if run.Two? {
      assert AllStacked(u.chs, d);
      StackedIs(u, d + 1);
    } else {
      StackedLeaf(u, d);
    }
  }

  // ---- how much they hold ---------------------------------------------------

  function Pow16(d: nat): (n: nat)
    ensures n >= 1
  {
    if d == 0 then 1 else 16 * Pow16(d - 1)
  }

  lemma LeafHolds(t: Node, lo: nat, hi: nat)
    requires t.Leaf? && Ordered(t, map[], lo, hi)
    ensures |Pairs(t, map[], 0)| <= 15
  {
    assert View(t, map[], 0) == Base(t.keys, t.vals);
    BaseKeys(t.keys, t.vals);
    SetSize(t.keys);
  }

  lemma {:induction false} RowHolds(ts: seq<Node>, n: nat)
    requires forall i :: 0 <= i < |ts| ==> |Pairs(ts[i], map[], 0)| <= n
    ensures |AllPairs(ts, map[], 0)| <= |ts| * n
  {
    hide Pairs;
    if ts != [] {
      RowHolds(ts[1..], n);
      assert |ts| * n == |ts[1..]| * n + n;
    }
  }

  lemma {:induction false} StackedHolds(t: Node, d: nat, lo: nat, hi: nat)
    requires Stacked(t, d) && Ordered(t, map[], lo, hi)
    ensures |Pairs(t, map[], 0)| <= 15 * Pow16(d)
    decreases t
  {
    hide Ordered, RowOk, AllPairs, Thick;
    if t.Leaf? {
      LeafHolds(t, lo, hi);
    } else {
      InnerRow(t, map[], lo, hi);
      var n := 15 * Pow16(d - 1);
      forall i | 0 <= i < |t.chs| ensures |Pairs(t.chs[i], map[], 0)| <= n {
        RowFacts(t.keys, t.chs, map[], lo, hi, i);
        StackedHolds(t.chs[i], d - 1, LoAt(t.keys, lo, i), HiAt(t.keys, hi, i));
      }
      RowHolds(t.chs, n);
      Build.MulMono(|t.chs|, 16, n);
    }
  }

  lemma Pow16Small(d: nat)
    requires d <= 3
    ensures Pow16(d) <= 4096
  {
    assert Pow16(1) == 16 && Pow16(2) == 256 && Pow16(3) == 4096;
  }

  // ---- unfolded -------------------------------------------------------------

  ghost predicate AllThick(ts: seq<Node>) {
    forall i :: 0 <= i < |ts| ==> ts[i].Leaf? && Thick(ts[i])
  }

  /** Leaves below a node that need not be half full, and below one that is. */
  function Fewest(d: nat, thick: bool): nat {
    if d == 0 then 1 else if thick then Fill.Pow8(d) else 2 * Fill.Pow8(d - 1)
  }

  lemma FewestStep(d: nat, thick: bool, n: nat)
    requires d > 0 && n >= (if thick then 8 else 2)
    ensures n * Fewest(d - 1, true) >= Fewest(d, thick)
  {
    Build.MulMono(if thick then 8 else 2, n, Fewest(d - 1, true));
  }

  /** A stacked subtree unfolds into at least so many leaves, all half full. */
  lemma {:induction false} UnfoldThick(t: Node, d: nat)
    requires Stacked(t, d)
    ensures AllThick(Unfold(t, false).chs) && |Unfold(t, false).chs| >= Fewest(d, Thick(t))
    decreases t, 0, 0
  {
    hide UnfoldFrom, Thick, Fill.Pow8;
    StackedLeaf(t, d);
    if d > 0 {
      UnfoldThickFrom(t.keys, t.chs, 0, d - 1);
      ThickNode(t);
      FewestStep(d, Thick(t), |t.chs|);
    }
  }

  lemma ThickNode(t: Node)
    requires t.Inner?
    ensures Thick(t) <==> |t.chs| >= B
  {
  }

  lemma {:induction false} UnfoldThickFrom(keys: seq<Key>, chs: seq<Node>, i: nat, d: nat)
    requires i < |chs| == |keys| + 1 && AllStacked(chs, d)
    ensures AllThick(UnfoldFrom(keys, chs, i, false).chs) && |UnfoldFrom(keys, chs, i, false).chs| >= (|chs| - i) * Fewest(d, true)
    decreases chs, 1, |chs| - i
  {
    hide Unfold, Stacked, Thick, Fewest;
    UnfoldThick(chs[i], d);
    if i < |keys| {
      UnfoldThickFrom(keys, chs, i + 1, d);
      Check.OneMoreTimes(|chs| - (i + 1), Fewest(d, true));
    }
  }

  lemma LeafPairs8(t: Node, side: Side, v: nat, lo: nat, hi: nat)
    requires t.Leaf? && Thick(t) && Ordered(t, side, lo, hi)
    ensures |Pairs(t, side, v)| >= 8
  {
    var m := View(t, side, v);
    BaseKeys(t.keys, t.vals);
    OverlayKeys(Base(t.keys, t.vals), BTree.SlotsAt(side, t.id), v);
    SetSize(t.keys);
    SubsetSize(KeySet(t.keys), m.Keys);
  }

  lemma {:induction false} RowPairs8(ts: seq<Node>, side: Side, v: nat)
    requires forall i :: 0 <= i < |ts| ==> |Pairs(ts[i], side, v)| >= 8
    ensures |AllPairs(ts, side, v)| >= 8 * |ts|
  {
    hide Pairs;
    if ts != [] { RowPairs8(ts[1..], side, v); }
  }

  /** ... so it holds eight pairs for each of them. */
  lemma StackedPairs(t: Node, d: nat, side: Side, v: nat, lo: nat, hi: nat)
    requires Stacked(t, d) && Ordered(t, side, lo, hi)
    ensures |Pairs(t, side, v)| >= 8 * |Unfold(t, false).chs| >= 8 * Fewest(d, Thick(t))
  {
    hide Ordered, RowOk, Unfold, Pairs, AllPairs, Stacked, Thick, Fewest;
    UnfoldThick(t, d);
    UnfoldOk(t, false, side, lo, hi);
    UnfoldPairs(t, false, side, v);
    var row := Unfold(t, false);
    forall i | 0 <= i < |row.chs| ensures |Pairs(row.chs[i], side, v)| >= 8 {
      RowFacts(row.keys, row.chs, side, lo, hi, i);
      LeafPairs8(row.chs[i], side, v, LoAt(row.keys, lo, i), HiAt(row.keys, hi, i));
    }
    RowPairs8(row.chs, side, v);
  }
}
