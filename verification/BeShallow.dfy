/** BeTrees built over too few pairs to have a boundary everywhere: exactly which
    of them a run can lead to a checkpoint that is undefined. */
module BeShallow {
  import opened Options
  import opened Records
  import opened BeTree
  import opened BeUpdate
  import opened BeRebuild
  import opened BeFull
  import opened BeShares
  import opened BeRun
  import opened BeHistory
  import opened BeStacked
  import opened BeTower
  import A = BeAppend
  import Ok = BeUpdateOk
  import Check = BeCheckpoint
  import Scan = BTreeScan
  import Build = BTreeBuild
  import Fill = BTreeFill

  // ---- the leftmost path ----------------------------------------------------

  /** The node above which there are upper nodes only: a leaf, or the boundary it
      has become, whose left child grows. */
  ghost predicate Top(a: Node) {
    a.Leaf? || (a.kind == Boundary && |a.keys| == 1 && |a.chs| == 2 && Small(a.chs[0]) && Stacked(a.chs[1], 0))
  }

  ghost predicate Small(t: Node) {
    HeightOf(t) <= E && Stacked(t, HeightOf(t))
  }

  /** d upper nodes on the leftmost path, no separator there below m. */
  ghost predicate Left(t: Node, d: nat, m: nat)
    decreases t
  {
    if d == 0 then Top(t)
    else t.Inner? && t.kind == Upper && |t.chs| == |t.keys| + 1 >= 2 && t.keys[0] >= m && Left(t.chs[0], d - 1, m)
  }

  /** The same once the left child has grown too high. */
  ghost predicate Tall(t: Node, d: nat)
    decreases t
  {
    if d == 0 then t.Inner? && t.kind == Boundary && |t.keys| == 1 && |t.chs| == 2 && Stacked(t.chs[0], E + 1) && Stacked(t.chs[1], 0)
    else t.Inner? && t.kind == Upper && |t.chs| == |t.keys| + 1 >= 2 && Tall(t.chs[0], d - 1)
  }

  lemma TopStep(a: Node, r: Request, stage: nat, m: nat, hi: nat)
    requires Top(a) && Ordered(a, map[], m, hi) && r.key < m
    ensures var o := Update(a, map[], r, stage);
            o.t.verge == a.verge && if o.checkpoint then Tall(o.t, 0) else Top(o.t)
  {
    hide Stacked, Replace, Raised, LeafCopies, Formed, Ordered, RowOk;
    OrderedFormed(a, map[], m, hi);
    if a.Leaf? {
      FormedLeaf(a);
      LeavesStacked(a, map[], r, stage);
      var run := LeafCopies(a, map[], r, stage);
      if run.Two? {
        StackedLeaf(run.left, 0);
        StackedLeaf(run.right, 0);
      }
    } else {
      InnerRow(a, map[], m, hi);
      RowFacts(a.keys, a.chs, map[], m, hi, 0);
      FormedRow(a);
      assert FindCh(a.keys, r.key) == 0;
      var d := HeightOf(a.chs[0]);
      ReplaceStacked(a.chs[0], map[], r, stage + 1, d, true);
      var run := Replace(a.chs[0], map[], r, stage + 1);
      RaisedStacked(a.chs[0], run, r, stage + 1, d);
      var u := Raised(a.chs[0], run, r, stage + 1);
      var o := Update(a, map[], r, stage);
      assert o.t.chs == a.chs[0 := u];
    }
  }

  lemma {:induction false} LeftStep(t: Node, d: nat, m0: nat, r: Request, stage: nat, m: nat, hi: nat)
    requires Left(t, d, m0) && Ordered(t, map[], m, hi) && r.key < m <= m0
    ensures var o := Update(t, map[], r, stage);
            && o.t.verge == t.verge && (if o.checkpoint then Tall(o.t, d) else Left(o.t, d, m0))
            && (d > 0 ==> o.t.Inner? && |o.t.chs| == |t.chs| && o.t.chs[1] == t.chs[1] && o.t.kind == Upper)
    decreases t
  {
    hide Top, Ordered, RowOk;
    if d == 0 {
      TopStep(t, r, stage, m, hi);
    } else {
      InnerRow(t, map[], m, hi);
      RowFacts(t.keys, t.chs, map[], m, hi, 0);
      assert FindCh(t.keys, r.key) == 0;
      LeftStep(t.chs[0], d - 1, m0, r, stage + 1, m, HiAt(t.keys, hi, 0));
      var o := Update(t, map[], r, stage);
      assert o.t.chs == t.chs[0 := Update(t.chs[0], map[], r, stage + 1).t];
    }
  }

  lemma {:induction false} StackedAbove(t: Node, d: nat, x: nat)
    requires Stacked(t, d)
    ensures LeafAbove(t, x) <==> x >= d
    decreases t
  {
    if d > 0 {
      StackedAbove(t.chs[0], d - 1, if x > 0 then x - 1 else 0);
    }
  }

  /** The leftmost leaf is d + 5 levels down. */
  lemma {:induction false} TallAbove(t: Node, d: nat, x: nat)
    requires Tall(t, d)
    ensures LeafAbove(t, x) <==> x >= d + 5
    decreases t
  {
    hide Stacked;
    if d > 0 {
      TallAbove(t.chs[0], d - 1, if x > 0 then x - 1 else 0);
    } else {
      StackedAbove(t.chs[0], E + 1, if x > 0 then x - 1 else 0);
    }
  }

  // ---- what the growing node holds ------------------------------------------

  /** The node d levels down the leftmost path. */
  function Down(t: Node, d: nat): Node
    decreases t
  {
    if d == 0 || t.Leaf? || t.chs == [] then t else Down(t.chs[0], d - 1)
  }

  lemma {:induction false} DownIs(t: Node, d: nat, m0: nat, m: nat, hi: nat) returns (hi': nat)
    requires Left(t, d, m0) && Ordered(t, map[], m, hi) && m <= m0 <= hi
    ensures Top(Down(t, d)) && hi' >= m0 && Ordered(Down(t, d), map[], m, hi')
    ensures forall k :: m <= k < m0 ==> Get(t, map[], 0, k) == Get(Down(t, d), map[], 0, k)
    decreases t
  {
    hide Top, Ordered, RowOk, Get;
    if d == 0 {
      hi' := hi;
    } else {
      InnerRow(t, map[], m, hi);
      RowFacts(t.keys, t.chs, map[], m, hi, 0);
      hi' := DownIs(t.chs[0], d - 1, m0, m, t.keys[0]);
      forall k | m <= k < m0 ensures Get(t, map[], 0, k) == Get(Down(t, d), map[], 0, k) {
        assert FindCh(t.keys, k) == 0;
        LeftGet(t, k);
      }
    }
  }

  lemma LeftGet(t: Node, k: Key)
    requires t.Inner? && t.chs != [] && FindCh(t.keys, k) == 0
    ensures Get(t, map[], 0, k) == Get(t.chs[0], map[], 0, k)
  {
  }

  const HELD := 61455

  lemma TopHolds(a: Node, lo: nat, hi: nat)
    requires Top(a) && Ordered(a, map[], lo, hi)
    ensures |Pairs(a, map[], 0)| <= HELD
  {
    hide Ordered, RowOk, Stacked, Pairs, Pow16;
    if a.Leaf? {
      LeafHolds(a, lo, hi);
    } else {
      InnerRow(a, map[], lo, hi);
      RowFacts(a.keys, a.chs, map[], lo, hi, 0);
      RowFacts(a.keys, a.chs, map[], lo, hi, 1);
      StackedHolds(a.chs[0], HeightOf(a.chs[0]), LoAt(a.keys, lo, 0), HiAt(a.keys, hi, 0));
      StackedLeaf(a.chs[1], 0);
      LeafHolds(a.chs[1], LoAt(a.keys, lo, 1), HiAt(a.keys, hi, 1));
      Pow16Small(HeightOf(a.chs[0]));
      TwoPairs(a, map[], 0);
    }
  }

  lemma TwoPairs(t: Node, side: Side, v: nat)
    requires t.Inner? && |t.chs| == 2
    ensures Pairs(t, side, v) == Pairs(t.chs[0], side, v) + Pairs(t.chs[1], side, v)
  {
    hide Pairs, AllPairs;
    Check.InnerPairs(t, side, v);
    PairsFrom(t.chs, 0, side, v);
    PairsFrom(t.chs, 1, side, v);
    NoPairs(side, v);
    assert t.chs[0..] == t.chs && t.chs[2..] == [];
    assert Pairs(t.chs[1], side, v) + [] == Pairs(t.chs[1], side, v);
  }

  // ---- keys are counted -----------------------------------------------------

  function Firsts(s: seq<(Key, Val)>): set<Key> {
    set i | 0 <= i < |s| :: s[i].0
  }

  lemma {:induction false} FirstsCount(s: seq<(Key, Val)>, lo: nat, hi: nat)
    requires Scan.InOrder(s, lo, hi)
    ensures |Firsts(s)| == |s|
  {
    if s == [] {
      assert Firsts(s) == {};
    } else {
      var n := |s| - 1;
      assert Scan.InOrder(s[..n], lo, hi);
      FirstsCount(s[..n], lo, hi);
      assert s == s[..n] + [s[n]];
      assert Firsts(s) == Firsts(s[..n]) + {s[n].0};
      assert s[n].0 !in Firsts(s[..n]);
    }
  }

  lemma {:induction false} FirstsAre(s: seq<(Key, Val)>, k: Key)
    ensures k in Firsts(s) <==> Scan.Assoc(s, k).Some?
  {
    if s != [] {
      FirstsAre(s[1..], k);
      assert s == [s[0]] + s[1..];
      assert Firsts(s) == {s[0].0} + Firsts(s[1..]);
    }
  }

  /** The keys of a tree. */
  lemma KeysAre(t: Node, lo: nat, hi: nat, k: Key)
    requires Ordered(t, map[], lo, hi) && lo <= k < hi
    ensures k in Firsts(Pairs(t, map[], 0)) <==> Get(t, map[], 0, k).Some?
  {
    hide Ordered, Pairs, Get, Firsts, Scan.Assoc;
    PairsAre(t, map[], 0, lo, hi, k);
    FirstsAre(Pairs(t, map[], 0), k);
  }

  lemma KeysWithin(t: Node, lo: nat, hi: nat)
    requires Ordered(t, map[], lo, hi)
    ensures |Firsts(Pairs(t, map[], 0))| == |Pairs(t, map[], 0)| && forall k :: k in Firsts(Pairs(t, map[], 0)) ==> lo <= k < hi
  {
    hide Ordered, Pairs, Get;
    PairsAre(t, map[], 0, lo, hi, lo);
    FirstsCount(Pairs(t, map[], 0), lo, hi);
  }

  ghost predicate HasRange(t: Node, a: nat, b: nat) {
    forall k :: a <= k < b ==> Get(t, map[], 0, k).Some?
  }

  lemma {:induction false} RangeSize(ks: set<Key>, a: nat, b: nat)
    requires a <= b && forall k :: a <= k < b ==> k in ks
    ensures |ks| >= b - a
  {
    if a < b {
      RangeSize(ks - {a}, a + 1, b);
    }
  }

  /** Keys that come in below m0 all stay in the growing node, which is small. */
  lemma RangeHeld(t: Node, d: nat, m0: nat, m: nat, hi: nat)
    requires Left(t, d, m0) && Ordered(t, map[], m, hi) && m <= m0 <= hi && HasRange(t, m, m0)
    ensures m0 - m <= HELD
  {
    hide Left, Ordered, Get, Top, Pairs, Firsts;
    var hi' := DownIs(t, d, m0, m, hi);
    var a := Down(t, d);
    TopHolds(a, m, hi');
    KeysWithin(a, m, hi');
    forall k | m <= k < m0 ensures k in Firsts(Pairs(a, map[], 0)) {
      KeysAre(a, m, hi', k);
    }
    RangeSize(Firsts(Pairs(a, map[], 0)), m, m0);
  }

  /** A new lowest key makes one pair more. */
  lemma OneMore(t: Node, u: Node, m: nat, hi: nat)
    requires Ordered(t, map[], m + 1, hi) && Ordered(u, map[], m, hi) && Get(u, map[], 0, m).Some? && m < hi
    requires forall k :: m < k < hi ==> (Get(u, map[], 0, k).Some? <==> Get(t, map[], 0, k).Some?)
    ensures |Pairs(u, map[], 0)| == |Pairs(t, map[], 0)| + 1
  {
    hide Ordered, Get, Pairs, Firsts;
    KeysWithin(t, m + 1, hi);
    KeysWithin(u, m, hi);
    var a, b := Firsts(Pairs(t, map[], 0)), Firsts(Pairs(u, map[], 0));
    forall k ensures k in b <==> k in a + {m} {
      if m < k < hi {
        KeysAre(t, m + 1, hi, k);
        KeysAre(u, m, hi, k);
      }
      KeysAre(u, m, hi, m);
    }
    assert b == a + {m};
  }

  // ---- versions and bounds do not matter ------------------------------------

  lemma {:induction false} PairsSettled(t: Node, v: nat)
    ensures Pairs(t, map[], v) == Pairs(t, map[], 0)
    decreases t, 0
  {
    hide AllPairs;
    if t.Inner? {
      RowSettled(t.chs, v);
    }
  }

  lemma {:induction false} RowSettled(ts: seq<Node>, v: nat)
    ensures AllPairs(ts, map[], v) == AllPairs(ts, map[], 0)
    decreases ts, |ts|
  {
    hide Pairs;
    if ts != [] {
      PairsSettled(ts[0], v);
      RowSettled(ts[1..], v);
    }
  }

  lemma {:induction false} GetNow(t: Node, v: nat, k: Key)
    ensures Get(t, map[], v, k) == Get(t, map[], 0, k)
    decreases t
  {
    if t.Inner? {
      var i := FindCh(t.keys, k);
      if i < |t.chs| { GetNow(t.chs[i], v, k); }
    }
  }

  lemma {:induction false} Lower(t: Node, m: nat, m': nat, hi: nat)
    requires Ordered(t, map[], m, hi) && m' <= m
    ensures Ordered(t, map[], m', hi)
    decreases t
  {
    hide Sorted, RowOk;
    if t.Inner? {
      InnerRow(t, map[], m, hi);
      InnerRow(t, map[], m', hi);
      A.RowShape(t.keys, t.chs, map[], m, hi);
      forall i | 0 <= i < |t.chs| ensures Ordered(t.chs[i], map[], LoAt(t.keys, m', i), HiAt(t.keys, hi, i)) {
        RowFacts(t.keys, t.chs, map[], m, hi, i);
        if i == 0 { Lower(t.chs[0], m, m', HiAt(t.keys, hi, 0)); }
      }
      A.RowBuilt(t.keys, t.chs, map[], m', hi);
    } else {
      LowerLeaf(t, m, m', hi);
    }
  }

  lemma LowerLeaf(t: Node, m: nat, m': nat, hi: nat)
    requires t.Leaf? && Ordered(t, map[], m, hi) && m' <= m
    ensures Ordered(t, map[], m', hi)
  {
  }

  // ---- the run --------------------------------------------------------------

  /** Keys from the lowest of the tree on downwards, each a path copy. */
  function Descending(top: nat): (ops: seq<Op>)
    ensures |ops| == top
  {
    seq(top, (i: nat) requires i < top => Op(top - 1 - i, 0, false))
  }

  /** How many pairs a tree with d upper levels had when it was built, and that
      it is still short of a boundary. */
  ghost predicate Short(h: nat, pairs: nat, d: nat) {
    && 1 <= h && d <= h && pairs < 16 * Fill.Pow8(h) && (d + 5 > h || pairs < 16 * Fill.Pow8(d))
    && (if d == 0 then pairs < 16 && h >= 4 else pairs >= 16)
  }

  /** After n tickets, s of which were in when the tree was last built. */
  ghost predicate Inv(w: World, h: nat, pairs: nat, top: nat, limit: nat, n: nat, d: nat, s: nat) {
    && s <= n <= top < limit && w.side == map[] && w.t.verge == h && Short(h, pairs + s, d)
    && Left(w.t, d, top - s) && (d > 0 ==> w.t.Inner? && |w.t.chs| >= 2 && !Meets(w.t.chs[1]))
    && Ordered(w.t, map[], top - n, limit) && HasRange(w.t, top - n, top - s)
    && |Pairs(w.t, map[], 0)| == pairs + n
  }

  /** A new lowest key. */
  lemma NewLowest(t: Node, ticket: nat, m: nat, hi: nat, m0: nat)
    requires Ordered(t, map[], m + 1, hi) && m + 1 <= m0 <= hi && HasRange(t, m + 1, m0)
    ensures var u := Update(t, map[], Request(ticket, m, 0), 0).t;
            && Ordered(u, map[], m, hi) && HasRange(u, m, m0) && |Pairs(u, map[], 0)| == |Pairs(t, map[], 0)| + 1
  {
    hide Ordered, Update, Get, Pairs;
    Lower(t, m + 1, m, hi);
    var r := Request(ticket, m, 0);
    var u := Update(t, map[], r, 0).t;
    forall k | m <= k < hi ensures Get(u, map[], 0, k) == Ok.After(r, k, Get(t, map[], 0, k)) {
      Ok.UpdateOk(t, map[], r, 0, m, hi, ticket, k);
      GetNow(u, ticket, k);
      GetNow(t, ticket, k);
    }
    Ok.UpdateOk(t, map[], r, 0, m, hi, ticket, m);
    OneMore(t, u, m, hi);
  }

  /** What is built from few pairs or leaves is as at the start. */
  lemma TowerLeft(t: Node, d: nat, m: nat, hi: nat)
    requires Tower(t, d) && Ordered(t, map[], m, hi)
    ensures Left(t, d, m) && (d > 0 ==> t.Inner? && |t.chs| >= 2 && !Meets(t.chs[1]))
  {
    TowerSpine(t, d, m, hi);
    if d > 0 {
      TowerFacts(t.chs[1], d - 1, 0);
    }
  }

  lemma {:induction false} TowerSpine(t: Node, d: nat, m: nat, hi: nat)
    requires Tower(t, d) && Ordered(t, map[], m, hi)
    ensures Left(t, d, m)
    decreases t
  {
    hide Ordered, RowOk;
    if d > 0 {
      InnerRow(t, map[], m, hi);
      RowFacts(t.keys, t.chs, map[], m, hi, 0);
      TowerSpine(t.chs[0], d - 1, m, HiAt(t.keys, hi, 0));
    }
  }

  lemma Rebuilt(w: World, h: nat, pairs: nat, top: nat, limit: nat, n: nat, d: nat)
    requires n <= top < limit && w.side == map[] && w.t.verge == h && Short(h, pairs + n, d) && Tower(w.t, d)
    requires Ordered(w.t, map[], top - n, limit) && |Pairs(w.t, map[], 0)| == pairs + n
    ensures Inv(w, h, pairs, top, limit, n, d, n)
  {
    hide Tower, Ordered, Pairs, Short;
    TowerLeft(w.t, d, top - n, limit);
  }

  /** A full rebuild on the way. */
  lemma FullRound(mid: Node, h: nat, m: nat, limit: nat, v: nat, next: nat) returns (d: nat)
    requires Ordered(mid, map[], m, limit) && 16 <= |Pairs(mid, map[], 0)| < 16 * Fill.Pow8(h)
    ensures var t := RebuildEntire(mid, h, map[], v, next);
            && 1 <= d <= h && |Pairs(mid, map[], 0)| < 16 * Fill.Pow8(d)
            && t.Inner? && t.verge == h && Tower(t, d) && Ordered(t, map[], m, limit) && Pairs(t, map[], 0) == Pairs(mid, map[], 0)
  {
    hide Ordered, Pairs, Tower, BuildSorted, Get;
    var elems := Pairs(mid, map[], v);
    PairsSettled(mid, v);
    d := Levels(|elems| / B);
    LevelsBounds(|elems| / B);
    LevelsFew(|elems| / B, h);
    BuiltTower(h, elems, next);
    OrderedRange(mid, map[], m, limit);
    EntireShows(mid, h, map[], v, next, m, limit, m);
    PairsSettled(RebuildEntire(mid, h, map[], v, next), v);
  }

  lemma UnfoldTwo(t: Node)
    requires t.Inner? && t.kind == Boundary && |t.keys| == 1 && |t.chs| == 2
    ensures Unfold(t, true).chs == Unfold(t.chs[0], false).chs + Unfold(t.chs[1], false).chs
  {
    hide Unfold;
    assert UnfoldFrom(t.keys, t.chs, 1, false) == Unfold(t.chs[1], false);
    UnfoldBoundary(t);
  }

  lemma UnfoldBoundary(t: Node)
    requires t.Inner? && t.kind == Boundary && |t.chs| == |t.keys| + 1
    ensures Unfold(t, true) == UnfoldFrom(t.keys, t.chs, 0, false)
  {
    hide UnfoldFrom;
  }

  /** The leaves below a boundary that has grown too high, and their pairs. */
  lemma TallLeaves(t: Node, m: nat, hi: nat)
    requires Tall(t, 0) && Ordered(t, map[], m, hi)
    ensures AllThick(Unfold(t, true).chs) && 2 <= |Unfold(t, true).chs| && 8 * |Unfold(t, true).chs| <= |Pairs(t, map[], 0)|
  {
    hide Ordered, RowOk, Stacked, Pairs, Unfold, Fewest, Thick;
    InnerRow(t, map[], m, hi);
    RowFacts(t.keys, t.chs, map[], m, hi, 0);
    RowFacts(t.keys, t.chs, map[], m, hi, 1);
    UnfoldTwo(t);
    TwoPairs(t, map[], 0);
    UnfoldThick(t.chs[0], E + 1);
    UnfoldThick(t.chs[1], 0);
    FewestSome(E + 1, Thick(t.chs[0]));
    FewestSome(0, Thick(t.chs[1]));
    StackedPairs(t.chs[0], E + 1, map[], 0, LoAt(t.keys, m, 0), HiAt(t.keys, hi, 0));
    StackedPairs(t.chs[1], 0, map[], 0, LoAt(t.keys, m, 1), HiAt(t.keys, hi, 1));
  }

  lemma FewestSome(d: nat, thick: bool)
    ensures Fewest(d, thick) >= 1
  {
  }

  /** A partial rebuild of what grew out of one leaf, for five pipes. */
  lemma PartialRound(mid: Node, m: nat, limit: nat, next: nat) returns (d: nat)
    requires Tall(mid, 0) && Ordered(mid, map[], m, limit) && |Pairs(mid, map[], 0)| <= HELD + 16
    ensures var t := RebuildUpper(mid, 4, next);
            && 1 <= d <= 4 && |Pairs(mid, map[], 0)| >= 16
            && t.Inner? && t.verge == 4 && Tower(t, d) && Ordered(t, map[], m, limit) && Pairs(t, map[], 0) == Pairs(mid, map[], 0)
  {
    hide Ordered, Pairs, Tower, Tall, Get, BuildUp, Unfold, Thick;
    TallLeaves(mid, m, limit);
    var row := Unfold(mid, true);
    assert Fill.Pow8(1) == 8 && Fill.Pow8(2) == 64 && Fill.Pow8(3) == 512 && Fill.Pow8(4) == 4096;
    d := Levels(|row.chs|);
    LevelsBounds(|row.chs|);
    LevelsFew(|row.chs|, 4);
    ThickTower(row.chs);
    UpTower(4, [0] + row.keys, row.chs, next, 0);
    OrderedRange(mid, map[], m, limit);
    Check.RebuildShows(mid, 4, next, map[], m, limit, 0, m);
  }

  lemma ThickTower(ts: seq<Node>)
    requires AllThick(ts)
    ensures AllTower(ts, 0)
  {
    hide Thick;
  }

  lemma ShortNow(h: nat, before: nat, after: nat, d: nat)
    requires Short(h, before, d) && d + 5 <= h && after <= before + HELD + 1
    ensures after < 16 * Fill.Pow8(h)
  {
    Pow8Mono(d, h - 5);
    Pow8Five(h - 5);
  }

  lemma Pow8Five(d: nat)
    ensures Fill.Pow8(d + 5) == 32768 * Fill.Pow8(d)
  {
    assert Fill.Pow8(d + 5) == 8 * Fill.Pow8(d + 4) && Fill.Pow8(d + 4) == 8 * Fill.Pow8(d + 3) && Fill.Pow8(d + 3) == 8 * Fill.Pow8(d + 2);
    assert Fill.Pow8(d + 2) == 8 * Fill.Pow8(d + 1);
  }

  /** A checkpoint on the way: another short tree, or none. */
  lemma Round(w: World, h: nat, pairs: nat, top: nat, limit: nat, n: nat, d: nat, s: nat, mid: Node) returns (d': nat)
    requires n < top < limit && n - s <= HELD && s <= n && Short(h, pairs + s, d)
    requires Tall(mid, d) && mid.verge == h && (d > 0 ==> mid.Inner? && mid.kind == Upper && |mid.chs| >= 2 && !Meets(mid.chs[1]))
    requires Ordered(mid, map[], top - n - 1, limit) && |Pairs(mid, map[], 0)| == pairs + n + 1
    ensures var r := Rebuild(mid, map[], n + 1, w.next);
            r.Some? ==> Inv(World(r.value, map[], Max(w.next, Above(r.value))), h, pairs, top, limit, n + 1, d', n + 1)
  {
    hide Tall, Ordered, Pairs, Tower, Above, RebuildEntire, RebuildUpper, LeafAbove, Left, UnfoldUpper, BuildUp, Unfold;
    TallAbove(mid, d, h);
    d' := 0;
    if h >= d + 5 {
      ShortNow(h, pairs + s, pairs + n + 1, d);
      if d == 0 { TallLeaves(mid, top - n - 1, limit); }
      d' := FullRound(mid, h, top - n - 1, limit, n + 1, w.next);
      var t := RebuildEntire(mid, h, map[], n + 1, w.next);
      Rebuilt(World(t, map[], Max(w.next, Above(t))), h, pairs, top, limit, n + 1, d');
    } else {
      RebuildDefined(mid, map[], n + 1, w.next);
      if d == 0 {
        assert h == 4;
        d' := PartialRound(mid, top - n - 1, limit, w.next);
        assert Fill.Pow8(1) == 8 && Fill.Pow8(2) == 64 && Fill.Pow8(3) == 512 && Fill.Pow8(4) == 4096;
        var t := RebuildUpper(mid, 4, w.next);
        Rebuilt(World(t, map[], Max(w.next, Above(t))), h, pairs, top, limit, n + 1, d');
      } else {
        NotMet(mid);
      }
    }
  }

  lemma NotMet(t: Node)
    requires t.Inner? && t.kind != Boundary && |t.chs| >= 2 && !Meets(t.chs[1])
    ensures !Meets(t)
  {
  }

  /** One ticket of the run. */
  lemma Move(w: World, h: nat, pairs: nat, top: nat, limit: nat, n: nat, d: nat, s: nat) returns (d': nat, s': nat)
    requires Inv(w, h, pairs, top, limit, n, d, s) && n < top
    ensures var x := Step(w, n + 1, Op(top - 1 - n, 0, false), 0);
            x.Some? ==> Inv(x.value, h, pairs, top, limit, n + 1, d', s')
  {
    hide Tall, Ordered, Pairs, Above, Rebuild, Left, Update, HasRange, Meets, Short;
    var m := top - n - 1;
    var r := Request(n + 1, m, 0);
    NewLowest(w.t, n + 1, m, limit, top - s);
    LeftStep(w.t, d, top - s, r, 0, m + 1, limit);
    RangeHeld(w.t, d, top - s, m + 1, limit);
    var o := Update(w.t, map[], r, 0);
    if o.checkpoint {
      s' := n + 1;
      d' := Round(w, h, pairs, top, limit, n, d, s, o.t);
    } else {
      d', s' := d, s;
    }
  }

  lemma {:induction false} RunInv(w: World, h: nat, pairs: nat, top: nat, limit: nat, n: nat, d0: nat) returns (d: nat, s: nat)
    requires Inv(w, h, pairs, top, limit, 0, d0, 0) && n <= top && AfterOps(w, Descending(top), 0, n).Some?
    ensures Inv(AfterOps(w, Descending(top), 0, n).value, h, pairs, top, limit, n, d, s)
  {
    hide Inv, Step;
    if n == 0 {
      d, s := d0, 0;
    } else {
      EarlierSome(w, Descending(top), 0, n - 1, n);
      d, s := RunInv(w, h, pairs, top, limit, n - 1, d0);
      d, s := Move(AfterOps(w, Descending(top), 0, n - 1).value, h, pairs, top, limit, n - 1, d, s);
    }
  }

  /** Keys needed below the built ones. */
  function Room(h: nat): nat {
    16 * Fill.Pow8(h) + HELD + 1
  }

  lemma NeverSome(w: World, h: nat, pairs: nat, limit: nat, d0: nat)
    requires Inv(w, h, pairs, Room(h), limit, 0, d0, 0)
    ensures AfterOps(w, Descending(Room(h)), 0, Room(h)).None?
  {
    hide Step, AfterOps, Left, Ordered, Pairs;
    var top := Room(h);
    if AfterOps(w, Descending(top), 0, top).Some? {
      var d, s := RunInv(w, h, pairs, top, limit, top, d0);
      var u := AfterOps(w, Descending(top), 0, top).value;
      RangeHeld(u.t, d, top - s, 0, limit);
    }
  }

  /** A tree with upper nodes only over its leaves, or of one leaf and for five
      pipes or more, comes to an undefined checkpoint: descending keys will do. */
  lemma ShortTreesFail(h: nat, elems: seq<(Key, Val)>, limit: nat)
    requires 16 <= |elems| < 16 * Fill.Pow8(h) || (|elems| < 16 && h >= 4)
    requires Build.SortedPairs(elems, limit) && Room(h) < limit && forall i :: 0 <= i < |elems| ==> Room(h) <= elems[i].0
    ensures AfterOps(Built(h, elems), Descending(Room(h)), 0, Room(h)).None?
  {
    hide BuildSorted, Ordered, Pairs, Tower, Above, NoSlots, Inv, AfterOps;
    var w := Built(h, elems);
    NoSlotsYet();
    BuildSortedOk(h, elems, 0, map[], 0, Room(h), limit);
    var d := if |elems| < 16 then 0 else Levels(|elems| / B);
    if |elems| >= 16 {
      assert Fill.Pow8(0) == 1;
      LevelsBounds(|elems| / B);
      LevelsFew(|elems| / B, h);
      BuiltTower(h, elems, 0);
    } else {
      assert Fill.Pow8(0) == 1;
      Pow8Mono(1, h);
      assert Fill.Pow8(1) == 8;
      LeafTower(h, elems);
    }
    Rebuilt(w, h, |elems|, Room(h), limit, 0, d);
    NeverSome(w, h, |elems|, limit, d);
  }

  lemma LeafTower(h: nat, elems: seq<(Key, Val)>)
    requires |elems| < 16
    ensures var t := BuildSorted(h, elems, 0); Tower(t, 0) && t.verge == h
  {
  }

  lemma NoSlotsYet()
    ensures NoSlots(map[], 0)
  {
  }

  /** The world of a tree just built. */
  function Built(h: nat, elems: seq<(Key, Val)>): World {
    var t := BuildSorted(h, elems, 0);
    World(t, map[], Above(t))
  }

  lemma BuiltLegal(h: nat, elems: seq<(Key, Val)>, limit: nat)
    requires Build.SortedPairs(elems, limit) && limit > 0
    ensures Good(Built(h, elems), 0, limit) && Pairs(Built(h, elems).t, map[], 0) == elems && Built(h, elems).side == map[]
  {
    hide BuildSorted, Ordered, Distinct, Ids, Above, Pairs, NoSlots;
    NoSlotsYet();
    BuildSortedOk(h, elems, 0, map[], 0, 0, limit);
    BuildSortedIds(h, elems, 0);
    AboveIs(BuildSorted(h, elems, 0));
  }

  // ---- the safe ones --------------------------------------------------------

  /** A leaf, or the boundary it has become, before its first checkpoint. */
  ghost predicate Young(t: Node, h: nat) {
    && t.verge == h
    && (t.Leaf? || (t.kind == Boundary && |t.keys| == 1 && |t.chs| == 2 && Small(t.chs[0]) && Small(t.chs[1])))
  }

  /** ... and when it asks for one. */
  ghost predicate Grown(t: Node, h: nat) {
    && t.Inner? && t.verge == h && t.kind == Boundary && |t.keys| == 1 && |t.chs| == 2
    && ((Stacked(t.chs[0], E + 1) && Small(t.chs[1])) || (Small(t.chs[0]) && Stacked(t.chs[1], E + 1)))
  }

  lemma YoungStep(t: Node, h: nat, side: Side, r: Request)
    requires Young(t, h) && Formed(t)
    ensures var o := Update(t, side, r, 0);
            if o.checkpoint then Grown(o.t, h) else Young(o.t, h)
  {
    hide Stacked, Replace, Raised, LeafCopies, Formed;
    var o := Update(t, side, r, 0);
    if t.Leaf? {
      FormedLeaf(t);
      LeavesStacked(t, side, r, 0);
      var run := LeafCopies(t, side, r, 0);
      if run.Two? {
        StackedLeaf(run.left, 0);
        StackedLeaf(run.right, 0);
      }
    } else {
      FormedRow(t);
      var i := FindCh(t.keys, r.key);
      var d := HeightOf(t.chs[i]);
      assert Small(t.chs[i]);
      ReplaceStacked(t.chs[i], side, r, 1, d, true);
      var run := Replace(t.chs[i], side, r, 1);
      RaisedStacked(t.chs[i], run, r, 1, d);
      assert o.t.chs == t.chs[i := Raised(t.chs[i], run, r, 1)];
    }
  }

  /** So many leaves, and so many pairs, hang below a grown boundary. */
  lemma GrownHolds(t: Node, h: nat, side: Side, v: nat, hi: nat)
    requires Grown(t, h) && Ordered(t, side, 0, hi)
    ensures |Pairs(t, side, v)| >= 8192 && |Unfold(t, true).chs| >= 1024 && AllThick(Unfold(t, true).chs)
  {
    hide Ordered, RowOk, Stacked, Pairs, Unfold, Thick, Fewest;
    InnerRow(t, side, 0, hi);
    RowFacts(t.keys, t.chs, side, 0, hi, 0);
    RowFacts(t.keys, t.chs, side, 0, hi, 1);
    UnfoldTwo(t);
    TwoPairs(t, side, v);
    forall i | 0 <= i < 2 ensures AllThick(Unfold(t.chs[i], false).chs) {
      UnfoldThick(t.chs[i], if Stacked(t.chs[i], E + 1) then E + 1 else HeightOf(t.chs[i]));
    }
    var i := if Stacked(t.chs[0], E + 1) then 0 else 1;
    UnfoldThick(t.chs[i], E + 1);
    StackedPairs(t.chs[i], E + 1, side, v, LoAt(t.keys, 0, i), HiAt(t.keys, hi, i));
    FewestFour(Thick(t.chs[i]));
  }

  lemma FewestFour(thick: bool)
    ensures Fewest(E + 1, thick) >= 1024
  {
    assert Fill.Pow8(1) == 8 && Fill.Pow8(2) == 64 && Fill.Pow8(3) == 512 && Fill.Pow8(4) == 4096;
  }

  lemma Pow8Three(h: nat)
    requires h <= 3
    ensures Fill.Pow8(h) <= 512
  {
    assert Fill.Pow8(1) == 8 && Fill.Pow8(2) == 64 && Fill.Pow8(3) == 512;
  }

  /** For four pipes or fewer its checkpoint, of either kind, gives a boundary on
      every path. */
  lemma GrownCheckpoint(t: Node, h: nat, side: Side, v: nat, next: nat, hi: nat)
    requires Grown(t, h) && h <= 3 && Ordered(t, side, 0, hi)
    ensures Rebuild(t, side, v, next).Some? && Published(Rebuild(t, side, v, next).value, h)
  {
    hide Ordered, Pairs, Unfold, BuildUp, BuildSorted, LeafAbove, Elastic, AtMost, WideRoot, Rebuild, Thick, Stacked;
    GrownHolds(t, h, side, v, hi);
    Pow8Three(h);
    RebuildDefined(t, side, v, next);
    if LeafAbove(t, t.verge) {
      EntireTaken(t, side, v, next);
      BuiltElastic(h, Pairs(t, side, v), next);
      IsPublished(BuildSorted(h, Pairs(t, side, v), next), h);
    } else {
      var row := Unfold(t, true);
      Check.LevelsEnough(|row.chs|, h);
      ThickLeaves(row.chs);
      LeavesFit(row.chs, h, Levels(|row.chs|));
      Check.UpFit(h, [0] + row.keys, row.chs, next);
      IsPublished(RebuildUpper(t, h, next), h);
    }
  }

  lemma EntireTaken(t: Node, side: Side, v: nat, next: nat)
    requires LeafAbove(t, t.verge)
    ensures Rebuild(t, side, v, next) == Some(BuildSorted(t.verge, Pairs(t, side, v), next))
  {
    hide BuildSorted, Pairs, UnfoldUpper;
  }

  lemma ThickLeaves(ts: seq<Node>)
    requires AllThick(ts)
    ensures AllLeaves(ts)
  {
  }

  lemma IsPublished(t: Node, h: nat)
    requires Elastic(t, h) && AtMost(t, h, 0) && WideRoot(t, h) && t.verge == h
    ensures Published(t, h)
  {
    hide Elastic, AtMost, WideRoot;
    AtMostMore(t, h, 0, E);
  }

  lemma SafeStep(w: World, h: nat, n: nat, op: Op, capacity: nat, limit: nat)
    requires Good(w, n, limit) && op.key < limit && (Published(w.t, h) || (h <= 3 && Young(w.t, h)))
    ensures var x := Step(w, n + 1, op, capacity);
            x.Some? && (Published(x.value.t, h) || Young(x.value.t, h))
  {
    hide Good, Published, Young, Update, Rebuild, Above, Grown, Ordered, Distinct, Shares, Ids, Path, Get;
    if Published(w.t, h) {
      StepShape(w, h, n + 1, op, capacity);
    } else if !Appends(w, op, capacity) {
      GoodFacts(w, n, limit);
      CopyGood(w, n, op, limit, n + 1, 0);
      YoungStep(w.t, h, w.side, Asked(n + 1, op));
      if Update(w.t, w.side, Asked(n + 1, op), 0).checkpoint {
        GrownCheckpoint(Copy(w, n + 1, op), h, w.side, n + 1, w.next, limit);
      }
    }
  }

  lemma {:induction false} SafeRun(w: World, h: nat, ops: seq<Op>, capacity: nat, limit: nat, n: nat)
    requires BeHistory.Legal(w, ops, capacity, limit) && limit > 0 && n <= |ops| && (Published(w.t, h) || (h <= 3 && Young(w.t, h)))
    ensures var x := AfterOps(w, ops, capacity, n); x.Some? && (Published(x.value.t, h) || (h <= 3 && Young(x.value.t, h)))
  {
    hide Good, Published, Young, Step, Get;
    if n > 0 {
      SafeRun(w, h, ops, capacity, limit, n - 1);
      RunGood(w, ops, capacity, limit, n - 1, 0);
      if Published(AfterOps(w, ops, capacity, n - 1).value.t, h) {
        StepShape(AfterOps(w, ops, capacity, n - 1).value, h, n, ops[n-1], capacity);
      } else {
        SafeStep(AfterOps(w, ops, capacity, n - 1).value, h, n - 1, ops[n-1], capacity, limit);
      }
    }
  }

  // ---- which ones -----------------------------------------------------------

  /** Over so many pairs, for h + 1 pipes, no checkpoint is ever undefined. */
  predicate Enough(pairs: nat, h: nat) {
    pairs >= 16 * Fill.Pow8(h) || (pairs < 16 && h <= 3)
  }

  /** Every run of appends, path copies and checkpoints is defined to its end. */
  ghost predicate AlwaysDefined(w: World, limit: nat) {
    forall ops: seq<Op>, capacity: nat, n: nat | n <= |ops| && BeHistory.Legal(w, ops, capacity, limit) :: AfterOps(w, ops, capacity, n).Some?
  }

  lemma EnoughIsSafe(h: nat, elems: seq<(Key, Val)>, limit: nat)
    requires Enough(|elems|, h) && Build.SortedPairs(elems, limit) && limit > 0
    ensures AlwaysDefined(Built(h, elems), limit)
  {
    hide Elastic, AtMost, WideRoot, BuildSorted, Good, AfterOps, LeafAbove;
    var w := Built(h, elems);
    if |elems| >= 16 * Fill.Pow8(h) {
      BuiltElastic(h, elems, 0);
      IsPublished(BuildSorted(h, elems, 0), h);
    } else {
      LeafYoung(h, elems);
    }
    forall ops: seq<Op>, capacity: nat, n: nat | n <= |ops| && BeHistory.Legal(w, ops, capacity, limit)
      ensures AfterOps(w, ops, capacity, n).Some?
    {
      SafeRun(w, h, ops, capacity, limit, n);
    }
  }

  lemma LeafYoung(h: nat, elems: seq<(Key, Val)>)
    requires |elems| < 16
    ensures Young(BuildSorted(h, elems, 0), h)
  {
  }

  /** Exactly the trees with enough pairs are safe: every run over them is defined
      if and only if there are 16 * 8^h pairs or more, or less than 16 and four
      pipes at most. */
  lemma SafeIffEnough(h: nat, elems: seq<(Key, Val)>, limit: nat)
    requires Build.SortedPairs(elems, limit) && Room(h) < limit && forall i :: 0 <= i < |elems| ==> Room(h) <= elems[i].0
    ensures AlwaysDefined(Built(h, elems), limit) <==> Enough(|elems|, h)
  {
    hide AfterOps, BuildSorted, Good, Above;
    if Enough(|elems|, h) {
      EnoughIsSafe(h, elems, limit);
    } else {
      ShortTreesFail(h, elems, limit);
      BuiltLegal(h, elems, limit);
      DescendingKeys(Room(h), limit);
      assert BeHistory.Legal(Built(h, elems), Descending(Room(h)), 0, limit);
    }
  }

  lemma DescendingKeys(top: nat, limit: nat)
    requires top < limit
    ensures forall i :: 0 <= i < |Descending(top)| ==> Descending(top)[i].key < limit
  {
  }
}
