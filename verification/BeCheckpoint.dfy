/** What a checkpoint keeps: the map, the shared subtrees, the elastic shape; and
    that what is retired is exactly what the new tree lacks. */
module BeCheckpoint {
  import opened Records
  import opened Nodes
  import opened BeTree
  import opened BeRebuild
  import Scan = BTreeScan
  import Build = BTreeBuild
  import H = BTreeHistory
  import M = BTreeMergeIds
  import Fill = BTreeFill

  // ---- pairs ----------------------------------------------------------------

  lemma {:induction false} LevelPairs(kind: Kind, lows: seq<Key>, chs: seq<Node>, m: nat, r: nat, c: nat, i: nat, k: nat, next: nat, side: Side, v: nat)
    requires |lows| == |chs| && Build.Spreading(|chs|, m, r, c, i, k) && i <= |chs|
    ensures AllPairs(Level(kind, lows, chs, m, r, i, k, next).1, side, v) == AllPairs(chs[i..], side, v)
    decreases |chs| - i
  {
    hide Build.Spreading, Build.ChunkSize, Build.Carry, Pairs, AllPairs, Over;
    if i == |chs| {
      assert chs[i..] == [];
    } else {
      Build.NextChunk(|chs|, m, r, c, i, k);
      var b := i + Build.ChunkSize(k, r, m);
      LevelPairs(kind, lows, chs, m, r, c + 1, b, Build.Carry(k, r, m), next + 1, side, v);
      var t := Over(kind, lows, chs, i, b, next);
      var rest := Level(kind, lows, chs, m, r, b, Build.Carry(k, r, m), next + 1).1;
      OverPairs(kind, lows, chs, i, b, next, side, v);
      OnePair(t, side, v);
      PairsJoin([t], rest, side, v);
      PairsJoin(chs[i..b], chs[b..], side, v);
      assert chs[i..] == chs[i..b] + chs[b..];
    }
  }

  lemma OverPairs(kind: Kind, lows: seq<Key>, chs: seq<Node>, a: nat, b: nat, next: nat, side: Side, v: nat)
    requires a < b <= |chs| == |lows|
    ensures Pairs(Over(kind, lows, chs, a, b, next), side, v) == AllPairs(chs[a..b], side, v)
  {
    hide AllPairs;
  }

  lemma {:induction false} UpPairs(h: nat, lows: seq<Key>, chs: seq<Node>, next: nat, side: Side, v: nat)
    requires |lows| == |chs| >= 1
    ensures Pairs(BuildUp(h, lows, chs, next), side, v) == AllPairs(chs, side, v)
    decreases |chs|
  {
    hide Pairs, AllPairs, Up;
    if |chs| < 2 * B {
      InnerPairs(BuildUp(h, lows, chs, next), side, v);
    } else {
      var up := Up(h, lows, chs, next);
      UpLevelPairs(h, lows, chs, next, side, v);
      UpPairs(h, up.0, up.1, next + |up.1|, side, v);
    }
  }

  lemma InnerPairs(t: Node, side: Side, v: nat)
    requires t.Inner?
    ensures Pairs(t, side, v) == AllPairs(t.chs, side, v)
  {
    hide AllPairs;
  }

  lemma UpLevelPairs(h: nat, lows: seq<Key>, chs: seq<Node>, next: nat, side: Side, v: nat)
    requires |lows| == |chs| >= 2 * B
    ensures AllPairs(Up(h, lows, chs, next).1, side, v) == AllPairs(chs, side, v)
  {
    hide AllPairs, Level, Build.Spreading;
    var m := |chs| / B;
    Build.SpreadStart(|chs|, m, |chs| - m * B);
    LevelPairs(KindAt(h, Levels(m)), lows, chs, m, |chs| - m * B, 0, 0, 0, next, side, v);
    assert chs[0..] == chs;
  }

  // ---- order ----------------------------------------------------------------

  /** Subtrees with their lowest keys. */
  ghost predicate LowsOk(lows: seq<Key>, chs: seq<Node>, side: Side, i: nat, lo: nat, hi: nat) {
    |lows| == |chs| && i < |chs| && RowOk(lows[i+1..], chs[i..], side, lo, hi)
  }

  lemma RowSplit(lows: seq<Key>, chs: seq<Node>, side: Side, i: nat, b: nat, lo: nat, hi: nat)
    requires LowsOk(lows, chs, side, i, lo, hi) && i < b < |chs|
    ensures lo < lows[b] < hi && RowOk(lows[i+1..b], chs[i..b], side, lo, lows[b]) && LowsOk(lows, chs, side, b, lows[b], hi)
  {
    hide Ordered;
    var ks, ts := lows[i+1..], chs[i..];
    assert lows[b] == ks[b - i - 1];
    var k1, t1, k2, t2 := lows[i+1..b], chs[i..b], lows[b+1..], chs[b..];
    assert forall j :: 0 <= j < |k1| ==> k1[j] == ks[j];
    assert forall j :: 0 <= j < |k2| ==> k2[j] == ks[b - i + j];
    forall j | 0 <= j < |t1| ensures Ordered(t1[j], side, LoAt(k1, lo, j), HiAt(k1, lows[b], j)) {
      assert t1[j] == ts[j];
    }
    forall j | 0 <= j < |t2| ensures Ordered(t2[j], side, LoAt(k2, lows[b], j), HiAt(k2, hi, j)) {
      assert t2[j] == ts[b - i + j];
    }
  }

  lemma OverOrdered(kind: Kind, lows: seq<Key>, chs: seq<Node>, a: nat, b: nat, next: nat, side: Side, lo: nat, hi: nat)
    requires a < b <= |chs| == |lows| && RowOk(lows[a+1..b], chs[a..b], side, lo, hi)
    ensures Ordered(Over(kind, lows, chs, a, b, next), side, lo, hi)
  {
    hide RowOk;
    InnerRow(Over(kind, lows, chs, a, b, next), side, lo, hi);
  }

  /** One more subtree in front. */
  lemma ConsOk(t: Node, mid: Key, lows: seq<Key>, chs: seq<Node>, low: Key, side: Side, lo: nat, hi: nat)
    requires Ordered(t, side, lo, mid) && lo < mid < hi && LowsOk(lows, chs, side, 0, mid, hi) && lows[0] == mid
    ensures LowsOk([low] + lows, [t] + chs, side, 0, lo, hi)
  {
    hide Ordered, RowOk;
    OneOk(t, side, lo, mid);
    assert lows[0+1..] == lows[1..] && chs[0..] == chs;
    JoinOk(Row([], [t]), mid, Row(lows[1..], chs), side, lo, hi);
    assert ([low] + lows)[0+1..] == [] + [mid] + lows[1..];
    assert ([t] + chs)[0..] == [t] + chs;
  }

  lemma {:induction false} LevelOrdered(kind: Kind, lows: seq<Key>, chs: seq<Node>, m: nat, r: nat, c: nat, i: nat, k: nat, next: nat,
                                        side: Side, lo: nat, hi: nat)
    requires |lows| == |chs| && Build.Spreading(|chs|, m, r, c, i, k) && LowsOk(lows, chs, side, i, lo, hi)
    ensures var res := Level(kind, lows, chs, m, r, i, k, next);
            |res.1| >= 1 && res.0[0] == lows[i] && LowsOk(res.0, res.1, side, 0, lo, hi)
    decreases |chs| - i
  {
    hide Build.Spreading, Build.ChunkSize, Build.Carry, Ordered, RowOk, Over;
    Build.NextChunk(|chs|, m, r, c, i, k);
    var b := i + Build.ChunkSize(k, r, m);
    var t := Over(kind, lows, chs, i, b, next);
    var res := Level(kind, lows, chs, m, r, i, k, next);
    var rest := Level(kind, lows, chs, m, r, b, Build.Carry(k, r, m), next + 1);
    if b < |chs| {
      RowSplit(lows, chs, side, i, b, lo, hi);
      OverOrdered(kind, lows, chs, i, b, next, side, lo, lows[b]);
      LevelOrdered(kind, lows, chs, m, r, c + 1, b, Build.Carry(k, r, m), next + 1, side, lows[b], hi);
      ConsOk(t, lows[b], rest.0, rest.1, res.0[0], side, lo, hi);
    } else {
      assert lows[i+1..b] == lows[i+1..] && chs[i..b] == chs[i..];
      OverOrdered(kind, lows, chs, i, b, next, side, lo, hi);
      OneOk(t, side, lo, hi);
      assert res.0[0+1..] == [] && res.1[0..] == [t];
    }
  }

  lemma {:induction false} UpOrdered(h: nat, lows: seq<Key>, chs: seq<Node>, next: nat, side: Side, lo: nat, hi: nat)
    requires LowsOk(lows, chs, side, 0, lo, hi)
    ensures Ordered(BuildUp(h, lows, chs, next), side, lo, hi)
    decreases |chs|
  {
    hide Ordered, RowOk, Up;
    if |chs| < 2 * B {
      assert lows[0+1..] == lows[1..] && chs[0..] == chs;
      InnerRow(BuildUp(h, lows, chs, next), side, lo, hi);
    } else {
      var up := Up(h, lows, chs, next);
      UpLevelOrdered(h, lows, chs, next, side, lo, hi);
      UpOrdered(h, up.0, up.1, next + |up.1|, side, lo, hi);
    }
  }

  lemma UpLevelOrdered(h: nat, lows: seq<Key>, chs: seq<Node>, next: nat, side: Side, lo: nat, hi: nat)
    requires LowsOk(lows, chs, side, 0, lo, hi) && |chs| >= 2 * B
    ensures var up := Up(h, lows, chs, next); LowsOk(up.0, up.1, side, 0, lo, hi)
  {
    hide RowOk, Level, Build.Spreading;
    var m := |chs| / B;
    Build.SpreadStart(|chs|, m, |chs| - m * B);
    LevelOrdered(KindAt(h, Levels(m)), lows, chs, m, |chs| - m * B, 0, 0, 0, next, side, lo, hi);
  }

  // ---- identities -----------------------------------------------------------

  /** A level over subtrees: their nodes, and as many new ones as it is long. */
  ghost predicate Fresh(ids: set<Id>, kept: set<Id>, from: nat, next: nat) {
    && kept <= ids && (forall x :: x in ids ==> x in kept || (x.Built? && from <= x.index < next))
  }

  lemma OverIds(kind: Kind, lows: seq<Key>, chs: seq<Node>, a: nat, b: nat, next: nat)
    requires a < b <= |chs| == |lows| && AllDistinct(chs[a..b]) && NamedBelow(AllIds(chs[a..b]), next)
    ensures var t := Over(kind, lows, chs, a, b, next);
            Distinct(t) && Ids(t) == {Built(next)} + AllIds(chs[a..b])
  {
    hide AllIds, AllDistinct;
  }

  lemma {:induction false} LevelIds(kind: Kind, lows: seq<Key>, chs: seq<Node>, m: nat, r: nat, c: nat, i: nat, k: nat, from: nat, next: nat)
    requires |lows| == |chs| && Build.Spreading(|chs|, m, r, c, i, k) && i <= |chs|
    requires AllDistinct(chs[i..]) && NamedBelow(AllIds(chs[i..]), from) && from <= next
    ensures var ts := Level(kind, lows, chs, m, r, i, k, next).1;
            AllDistinct(ts) && Fresh(AllIds(ts), AllIds(chs[i..]), next, next + |ts|)
    decreases |chs| - i
  {
    hide Build.Spreading, Build.ChunkSize, Build.Carry, Over, Ids, AllIds, Distinct, AllDistinct;
    if i == |chs| {
      assert chs[i..] == [];
      NoIds();
    } else {
      Build.NextChunk(|chs|, m, r, c, i, k);
      var b := i + Build.ChunkSize(k, r, m);
      assert chs[i..] == chs[i..b] + chs[b..];
      JoinIds(chs[i..b], chs[b..]);
      LevelIds(kind, lows, chs, m, r, c + 1, b, Build.Carry(k, r, m), from, next + 1);
      OverIds(kind, lows, chs, i, b, next);
      var t := Over(kind, lows, chs, i, b, next);
      OneIds(t);
      JoinIds([t], Level(kind, lows, chs, m, r, b, Build.Carry(k, r, m), next + 1).1);
    }
  }

  lemma NoIds()
    ensures AllIds([]) == {} && AllDistinct([])
  {
  }

  lemma {:induction false} UpIds(h: nat, lows: seq<Key>, chs: seq<Node>, next: nat)
    requires |lows| == |chs| >= 1 && AllDistinct(chs) && NamedBelow(AllIds(chs), next)
    ensures Distinct(BuildUp(h, lows, chs, next))
    ensures exists last: nat :: last > next && Fresh(Ids(BuildUp(h, lows, chs, next)), AllIds(chs), next, last)
    decreases |chs|
  {
    hide AllIds, AllDistinct, Up;
    if |chs| < 2 * B {
      assert Fresh(Ids(BuildUp(h, lows, chs, next)), AllIds(chs), next, next + 1);
    } else {
      var up := Up(h, lows, chs, next);
      UpLevelIds(h, lows, chs, next);
      UpIds(h, up.0, up.1, next + |up.1|);
      var last: nat :| last > next + |up.1| && Fresh(Ids(BuildUp(h, up.0, up.1, next + |up.1|)), AllIds(up.1), next + |up.1|, last);
      assert Fresh(Ids(BuildUp(h, lows, chs, next)), AllIds(chs), next, last);
    }
  }

  lemma UpLevelIds(h: nat, lows: seq<Key>, chs: seq<Node>, next: nat)
    requires |lows| == |chs| >= 2 * B && AllDistinct(chs) && NamedBelow(AllIds(chs), next)
    ensures var up := Up(h, lows, chs, next);
            AllDistinct(up.1) && Fresh(AllIds(up.1), AllIds(chs), next, next + |up.1|) && NamedBelow(AllIds(up.1), next + |up.1|)
  {
    hide AllIds, AllDistinct, Level, Build.Spreading;
    var m := |chs| / B;
    Build.SpreadStart(|chs|, m, |chs| - m * B);
    assert chs[0..] == chs;
    LevelIds(KindAt(h, Levels(m)), lows, chs, m, |chs| - m * B, 0, 0, 0, next, next);
  }

  // ---- shape ----------------------------------------------------------------

  /** What a subtree at depth d below the root has to be. */
  ghost predicate Fit(t: Node, h: nat, d: nat) {
    if d <= h then Elastic(t, h - d) && AtMost(t, h - d, 0) && Wide(t, h - d) else Bottom(t)
  }

  /** A subtree of height zero below the boundary. */
  ghost predicate Bottom(t: Node) {
    Low(t) && HeightOf(t) == 0
  }

  ghost predicate AllFit(ts: seq<Node>, h: nat, d: nat) {
    forall i :: 0 <= i < |ts| ==> Fit(ts[i], h, d)
  }

  ghost predicate AllBottom(ts: seq<Node>) {
    forall i :: 0 <= i < |ts| ==> Bottom(ts[i])
  }

  lemma NodeFit(t: Node, h: nat, d: nat)
    requires t.Inner? && t.kind == KindAt(h, d) && t.height == 0 && Sized(t) && |t.chs| >= B && AllFit(t.chs, h, d + 1)
    ensures Fit(t, h, d)
  {
    forall i | 0 <= i < |t.chs| ensures Fit(t.chs[i], h, d + 1) {
    }
  }

  lemma RootFit(t: Node, h: nat)
    requires t.Inner? && t.kind == KindAt(h, 0) && t.height == 0 && Sized(t) && |t.chs| >= 2 && AllFit(t.chs, h, 1)
    ensures Elastic(t, h) && AtMost(t, h, 0) && WideRoot(t, h)
  {
    forall i | 0 <= i < |t.chs| ensures Fit(t.chs[i], h, 1) {
    }
  }

  lemma {:induction false} LevelFit(h: nat, d: nat, lows: seq<Key>, chs: seq<Node>, m: nat, r: nat, c: nat, i: nat, k: nat, next: nat)
    requires |lows| == |chs| && Build.Spreading(|chs|, m, r, c, i, k) && i <= |chs| && AllFit(chs, h, d + 1)
    ensures AllFit(Level(KindAt(h, d), lows, chs, m, r, i, k, next).1, h, d)
    decreases |chs| - i
  {
    hide Build.Spreading, Build.ChunkSize, Build.Carry, Fit;
    if i < |chs| {
      Build.NextChunk(|chs|, m, r, c, i, k);
      var b := i + Build.ChunkSize(k, r, m);
      LevelFit(h, d, lows, chs, m, r, c + 1, b, Build.Carry(k, r, m), next + 1);
      var t := Over(KindAt(h, d), lows, chs, i, b, next);
      forall j | 0 <= j < |t.chs| ensures Fit(t.chs[j], h, d + 1) {
        assert t.chs[j] == chs[i + j];
      }
      NodeFit(t, h, d);
      var ts, rest := Level(KindAt(h, d), lows, chs, m, r, i, k, next).1, Level(KindAt(h, d), lows, chs, m, r, b, Build.Carry(k, r, m), next + 1).1;
      assert ts == [t] + rest;
      forall j | 0 <= j < |ts| ensures Fit(ts[j], h, d) {
        if j > 0 { assert ts[j] == rest[j-1]; }
      }
    }
  }

  lemma {:induction false} UpFit(h: nat, lows: seq<Key>, chs: seq<Node>, next: nat)
    requires |lows| == |chs| >= 2 && AllFit(chs, h, Levels(|chs|))
    ensures var t := BuildUp(h, lows, chs, next); Elastic(t, h) && AtMost(t, h, 0) && WideRoot(t, h) && t.verge == h
    decreases |chs|
  {
    hide Fit, Up, Elastic, AtMost, WideRoot;
    if |chs| < 2 * B {
      RootFit(BuildUp(h, lows, chs, next), h);
    } else {
      var up := Up(h, lows, chs, next);
      UpLevelFit(h, lows, chs, next);
      UpFit(h, up.0, up.1, next + |up.1|);
    }
  }

  lemma UpLevelFit(h: nat, lows: seq<Key>, chs: seq<Node>, next: nat)
    requires |lows| == |chs| >= 2 * B && AllFit(chs, h, Levels(|chs|))
    ensures var up := Up(h, lows, chs, next); AllFit(up.1, h, Levels(|up.1|))
  {
    hide Fit, Level, Build.Spreading;
    var m := |chs| / B;
    Build.SpreadStart(|chs|, m, |chs| - m * B);
    assert Levels(|chs|) == Levels(m) + 1;
    LevelFit(h, Levels(m), lows, chs, m, |chs| - m * B, 0, 0, 0, next);
  }

  // ---- what is unfolded -----------------------------------------------------

  lemma AllBottomJoin(a: seq<Node>, b: seq<Node>)
    requires AllBottom(a) && AllBottom(b)
    ensures AllBottom(a + b)
  {
  }

  lemma {:induction false} UnfoldLow(t: Node)
    requires Low(t)
    ensures AllBottom(Unfold(t, false).chs)
    decreases t, 0, 0
  {
    hide UnfoldFrom;
    if !Stops(t, false) {
      UnfoldLowFrom(t.keys, t.chs, 0);
    }
  }

  lemma {:induction false} UnfoldLowFrom(keys: seq<Key>, chs: seq<Node>, i: nat)
    requires i < |chs| == |keys| + 1 && forall j :: 0 <= j < |chs| ==> Low(chs[j])
    ensures AllBottom(UnfoldFrom(keys, chs, i, false).chs)
    decreases chs, 1, |chs| - i
  {
    hide Unfold, Low;
    UnfoldLow(chs[i]);
    if i < |keys| {
      UnfoldLowFrom(keys, chs, i + 1);
      AllBottomJoin(Unfold(chs[i], false).chs, UnfoldFrom(keys, chs, i + 1, false).chs);
    }
  }

  /** The row has a subtree for each child of a boundary node at least. */
  lemma {:induction false} RowLong(keys: seq<Key>, chs: seq<Node>, i: nat, upper: bool, n: nat)
    requires i < |chs| == |keys| + 1 && forall j :: 0 <= j < |chs| ==> |Unfold(chs[j], upper).chs| >= n
    ensures |UnfoldFrom(keys, chs, i, upper).chs| >= (|chs| - i) * n
    decreases |chs| - i
  {
    hide Unfold;
    if i < |keys| {
      RowLong(keys, chs, i + 1, upper, n);
      OneMoreTimes(|chs| - (i + 1), n);
    }
  }

  lemma OneMoreTimes(k: nat, n: nat)
    ensures (k + 1) * n == k * n + n
  {
  }

  lemma {:induction false} UnfoldElastic(t: Node, h: nat)
    requires Elastic(t, h)
    ensures AllBottom(Unfold(t, true).chs)
    ensures Wide(t, h) ==> |Unfold(t, true).chs| >= 8 * Fill.Pow8(h)
    ensures WideRoot(t, h) ==> |Unfold(t, true).chs| >= 2 * Fill.Pow8(h)
    decreases t, 0, 0
  {
    hide UnfoldFrom, Low;
    if h == 0 {
      UnfoldLowFrom(t.keys, t.chs, 0);
      forall j | 0 <= j < |t.chs| ensures |Unfold(t.chs[j], false).chs| >= 1 {
      }
      RowLong(t.keys, t.chs, 0, false, 1);
    } else {
      UnfoldElasticFrom(t.keys, t.chs, 0, h - 1);
      var n := Fill.Pow8(h);
      if (forall j :: 0 <= j < |t.chs| ==> Wide(t.chs[j], h - 1)) {
        forall j | 0 <= j < |t.chs| ensures |Unfold(t.chs[j], true).chs| >= n {
          UnfoldElastic(t.chs[j], h - 1);
        }
        RowLong(t.keys, t.chs, 0, true, n);
        if |t.chs| >= 8 { Fill.TimesMono(|t.chs|, 8, n); }
        if |t.chs| >= 2 { Fill.TimesMono(|t.chs|, 2, n); }
      }
    }
  }

  lemma {:induction false} UnfoldElasticFrom(keys: seq<Key>, chs: seq<Node>, i: nat, h: nat)
    requires i < |chs| == |keys| + 1 && forall j :: 0 <= j < |chs| ==> Elastic(chs[j], h)
    ensures AllBottom(UnfoldFrom(keys, chs, i, true).chs)
    decreases chs, 1, |chs| - i
  {
    hide Unfold, Elastic;
    UnfoldElastic(chs[i], h);
    if i < |keys| {
      UnfoldElasticFrom(keys, chs, i + 1, h);
      AllBottomJoin(Unfold(chs[i], true).chs, UnfoldFrom(keys, chs, i + 1, true).chs);
    }
  }

  /** So many subtrees need all the upper levels again. */
  lemma {:induction false} LevelsEnough(n: nat, h: nat)
    requires n >= 2 * Fill.Pow8(h)
    ensures Levels(n) > h
  {
    if h > 0 {
      assert n / B >= 2 * Fill.Pow8(h - 1);
      LevelsEnough(n / B, h - 1);
    }
  }

  // ---- the partial rebuild --------------------------------------------------

  /** A rebuilt tree has the same upper levels over elastic subtrees of height
      zero. */
  lemma RebuildFit(t: Node, h: nat, next: nat)
    requires Elastic(t, h) && WideRoot(t, h)
    ensures var r := RebuildUpper(t, h, next); Elastic(r, h) && AtMost(r, h, 0) && WideRoot(r, h) && r.verge == h
  {
    hide Elastic, AtMost, WideRoot, Unfold, BuildUp, Bottom;
    var row := Unfold(t, true);
    UnfoldElastic(t, h);
    LevelsEnough(|row.chs|, h);
    UpFit(h, [0] + row.keys, row.chs, next);
  }

  /** It shows the same pairs to every snapshot, and stays ordered. */
  lemma RebuildShows(t: Node, h: nat, next: nat, side: Side, lo: nat, hi: nat, v: nat, k: Key)
    requires Ordered(t, side, lo, hi) && lo <= k < hi
    ensures var r := RebuildUpper(t, h, next);
            Ordered(r, side, lo, hi) && Pairs(r, side, v) == Pairs(t, side, v) && Get(r, side, v, k) == Get(t, side, v, k)
  {
    hide Ordered, Pairs, AllPairs, RowOk, Unfold, BuildUp, Get, Scan.Assoc, Scan.InOrder;
    var row := Unfold(t, true);
    UnfoldOk(t, true, side, lo, hi);
    UnfoldPairs(t, true, side, v);
    var lows := [0] + row.keys;
    assert lows[0+1..] == row.keys && row.chs[0..] == row.chs;
    UpOrdered(h, lows, row.chs, next, side, lo, hi);
    UpPairs(h, lows, row.chs, next, side, v);
    PairsAre(t, side, v, lo, hi, k);
    PairsAre(RebuildUpper(t, h, next), side, v, lo, hi, k);
  }

  /** It shares exactly the subtrees of height zero, and the visitor gives the
      nodes it lacks, once each. */
  lemma RebuildShares(t: Node, h: nat, next: nat)
    requires Distinct(t) && NamedBelow(Ids(t), next)
    ensures var r := RebuildUpper(t, h, next);
            && Distinct(r) && Ids(t) * Ids(r) == AllIds(Unfold(t, true).chs)
            && M.Once(Visit(t, true)) && H.Elements(Visit(t, true)) == Ids(t) - Ids(r)
            && forall x :: x in Ids(r) - Ids(t) ==> x.Built? && x.index >= next
  {
    hide Unfold, BuildUp, Ids, AllIds, Distinct, AllDistinct, Visit;
    var row := Unfold(t, true);
    VisitExact(t, true);
    UpIds(h, [0] + row.keys, row.chs, next);
    var last: nat :| last > next && Fresh(Ids(RebuildUpper(t, h, next)), AllIds(row.chs), next, last);
  }
}
