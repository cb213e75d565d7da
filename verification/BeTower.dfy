/** Trees built over few pairs: upper nodes only, over leaves. */
module BeTower {
  import opened Records
  import opened BeTree
  import opened BeRebuild
  import opened BeFull
  import Build = BTreeBuild
  import Fill = BTreeFill

  /** d levels of upper nodes over leaves. */
  ghost predicate Tower(t: Node, d: nat)
    decreases t
  {
    if d == 0 then t.Leaf?
    else t.Inner? && t.kind == Upper && |t.chs| == |t.keys| + 1 >= 2 && forall i :: 0 <= i < |t.chs| ==> Tower(t.chs[i], d - 1)
  }

  ghost predicate AllTower(ts: seq<Node>, d: nat) {
    forall i :: 0 <= i < |ts| ==> Tower(ts[i], d)
  }

  lemma {:induction false} TowerFacts(t: Node, d: nat, x: nat)
    requires Tower(t, d)
    ensures !Meets(t)
    ensures LeafAbove(t, x) <==> x >= d
    decreases t
  {
    if d > 0 {
      TowerFacts(t.chs[0], d - 1, if x > 0 then x - 1 else 0);
    }
  }

  lemma OverTower(kind: Kind, lows: seq<Key>, chs: seq<Node>, a: nat, b: nat, next: nat, d: nat)
    requires a + 2 <= b <= |chs| == |lows| && kind == Upper && AllTower(chs, d)
    ensures Tower(Over(kind, lows, chs, a, b, next), d + 1)
  {
    var t := Over(kind, lows, chs, a, b, next);
    forall i | 0 <= i < |t.chs| ensures Tower(t.chs[i], d) {
      assert t.chs[i] == chs[a + i];
    }
  }

  lemma {:induction false} LevelTower(kind: Kind, lows: seq<Key>, chs: seq<Node>, m: nat, r: nat, c: nat, i: nat, k: nat, next: nat, d: nat)
    requires |lows| == |chs| && Build.Spreading(|chs|, m, r, c, i, k) && i <= |chs| && kind == Upper && AllTower(chs, d)
    ensures AllTower(Level(kind, lows, chs, m, r, i, k, next).1, d + 1)
    decreases |chs| - i
  {
    hide Build.Spreading, Build.ChunkSize, Build.Carry, Tower, Over;
    if i < |chs| {
      Build.NextChunk(|chs|, m, r, c, i, k);
      var b := i + Build.ChunkSize(k, r, m);
      LevelTower(kind, lows, chs, m, r, c + 1, b, Build.Carry(k, r, m), next + 1, d);
      OverTower(kind, lows, chs, i, b, next, d);
      TowerCons(Over(kind, lows, chs, i, b, next), Level(kind, lows, chs, m, r, b, Build.Carry(k, r, m), next + 1).1, d + 1);
    }
  }

  lemma TowerCons(t: Node, ts: seq<Node>, d: nat)
    requires Tower(t, d) && AllTower(ts, d)
    ensures AllTower([t] + ts, d)
  {
    hide Tower;
  }

  /** What build_internal makes when it has no more than h levels to add. */
  lemma {:induction false} UpTower(h: nat, lows: seq<Key>, chs: seq<Node>, next: nat, d: nat)
    requires |lows| == |chs| >= 2 && AllTower(chs, d) && Levels(|chs|) <= h
    ensures var t := BuildUp(h, lows, chs, next); t.Inner? && t.verge == h && Tower(t, d + Levels(|chs|))
    decreases |chs|
  {
    hide Tower, Up;
    if |chs| < 2 * B {
      RootTower(BuildUp(h, lows, chs, next), d);
    } else {
      var up := Up(h, lows, chs, next);
      UpLevelTower(h, lows, chs, next, d);
      UpTower(h, up.0, up.1, next + |up.1|, d + 1);
    }
  }

  lemma RootTower(t: Node, d: nat)
    requires t.Inner? && t.kind == Upper && |t.chs| == |t.keys| + 1 >= 2 && AllTower(t.chs, d)
    ensures Tower(t, d + 1)
  {
  }

  lemma UpLevelTower(h: nat, lows: seq<Key>, chs: seq<Node>, next: nat, d: nat)
    requires |lows| == |chs| >= 2 * B && AllTower(chs, d) && Levels(|chs|) <= h
    ensures AllTower(Up(h, lows, chs, next).1, d + 1)
  {
    hide Tower, Level, Build.Spreading;
    var m := |chs| / B;
    Build.SpreadStart(|chs|, m, |chs| - m * B);
    LevelTower(KindAt(h, Levels(m)), lows, chs, m, |chs| - m * B, 0, 0, 0, next, d);
  }

  lemma BuiltTower(h: nat, elems: seq<(Key, Val)>, next: nat)
    requires |elems| >= 16 && Levels(|elems| / B) <= h
    ensures var t := BuildSorted(h, elems, next); t.Inner? && t.verge == h && Tower(t, Levels(|elems| / B))
  {
    hide Leaves, BuildUp, Tower;
    LeavesAre(elems, next);
    var up := Leaves(elems, next);
    LeavesTower(up.1);
    UpTower(h, up.0, up.1, next + |up.1|, 0);
  }

  lemma LeavesTower(ts: seq<Node>)
    requires AllLeaves(ts)
    ensures AllTower(ts, 0)
  {
  }

  /** How many levels are needed. */
  lemma {:induction false} LevelsBounds(n: nat)
    requires n >= 2
    ensures 1 <= Levels(n) && 2 * Fill.Pow8(Levels(n) - 1) <= n < 2 * Fill.Pow8(Levels(n))
  {
    if n >= 2 * B {
      LevelsBounds(n / B);
    } else {
      assert Fill.Pow8(0) == 1 && Fill.Pow8(1) == 8;
    }
  }

  lemma {:induction false} Pow8Mono(a: nat, b: nat)
    requires a <= b
    ensures Fill.Pow8(a) <= Fill.Pow8(b)
  {
    if a < b { Pow8Mono(a, b - 1); }
  }
}
