/** Every step the staging order allows keeps the heap invariant. */
module PipelineSteps {
  import opened Records
  import opened BTree
  import opened BTreeCow
  import opened BTreeLevels
  import opened BTreeHistory
  import opened StagedCow
  import opened StagedCowOk
  import opened Pipeline
  import opened PipelineState

  // ---- contexts of other tickets --------------------------------------------

  lemma CursorStays(heap: Heap, heap': Heap, x: Context, v: nat, k: nat, past: Tree, t: nat, j: nat)
    requires Cursor(heap, x, v, k, past) && OnlyOwn(heap, heap', t, j) && v != t
    ensures Cursor(heap', x, v, k, past)
  {
  }

  lemma ToFillStays(heap: Heap, heap': Heap, x: Context, u: Setup, v: nat, t: nat, j: nat)
    requires u.Ok() && 1 <= v <= |u.ops| && ToFill(heap, x, u, v) && OwnedBy(x.cur, v) && OnlyOwn(heap, heap', t, j) && v != t
    ensures ToFill(heap', x, u, v)
  {
    hide Run;
  }

  lemma CtxStays(u: Setup, heap: Heap, heap': Heap, pr: Progress, x: Context, v: nat, t: nat, j: nat)
    requires u.Ok() && 1 <= v <= |u.ops| && v != t && CtxOk(u, heap, pr, x, v) && OnlyOwn(heap, heap', t, j)
    ensures CtxOk(u, heap', AfterStage(pr, t, j + 1), x, v)
  {
    hide Run, OnlyOwn, Cursor, ToFill, AfterOps, Legal, PathNode;
    if !u.Appending(v) {
      if pr.Passed(v) < u.Stages(v) {
        CursorStays(heap, heap', x, v, pr.Passed(v), u.Source(v, pr.Passed(v)), t, j);
      } else if u.worker && !pr.Done(v) {
        ToFillStays(heap, heap', x, u, v, t, j);
      }
    }
  }

  // ---- a later stage --------------------------------------------------------

  /** What a finished stage means for the ticket's own nodes. */
  lemma StageBuilds(u: Setup, heap: Heap, x: Context, heap': Heap, x': Context, t: nat, j: nat)
    requires u.Ok() && 1 <= t <= |u.ops| && !u.Appending(t) && j < u.At(t - 1).h
    requires Shaped(u.Source(t, j), u.At(t - 1).h - j) && Shaped(Toward(u.Source(t, j), u.ops[t-1].key), u.At(t - 1).h - j - 1)
    requires u.Source(t, j + 1) == Toward(u.Source(t, j), u.ops[t-1].key)
    requires StageDone(heap, x, heap', x', u.Source(t, j), u.At(t - 1).h - j - 1, u.At(t - 1).side, j, u.Req(t))
    ensures RunHolds(heap', Run(u, t, j), true) && OnlyOwn(heap, heap', t, j)
    ensures x'.past == u.Source(t, j + 1).id && x'.retired == x.retired + [u.Source(t, j + 1).id]
    ensures forall id :: IsReady(heap', id) ==> OwnAt(id, t, j) || IsReady(heap, id)
    ensures j + 1 < u.At(t - 1).h ==> NextLevel(u, heap', t, j + 1)
    ensures j + 1 == u.At(t - 1).h ==> RunHolds(heap', Run(u, t, j + 1), !u.worker) && LeafPlace(heap', x', Run(u, t, j + 1), u.Req(t))
    ensures j + 1 < u.At(t - 1).h ==> Cursor(heap', x', t, j + 1, u.Source(t, j + 1))
  {
    hide AfterOps, Legal, PathNode, RunFor, RunHolds, LeafPlace;
    var p, op := u.At(t - 1), u.ops[t-1];
    TreePath(u, t);
    if j + 1 < p.h {
      HeadersThere(u, heap', x', t, j + 1);
    }
  }

  /** The headers of a level, where the cursor says they are. */
  lemma HeadersThere(u: Setup, heap: Heap, x: Context, t: nat, k: nat)
    requires u.Ok() && 1 <= t <= |u.ops| && 0 < k < u.At(t - 1).h && Cursor(heap, x, t, k, u.Source(t, k))
    ensures NextLevel(u, heap, t, k)
  {
    hide AfterOps, Legal, PathNode, Grow;
    var p, op := u.At(t - 1), u.ops[t-1];
    TreePath(u, t);
    var past := u.Source(t, k);
    ShapedAt(p.tree, op.key, p.h, k);
    if |past.kids.keys| == MAX_KEYS {
      HalvesIds(past.kids, p.h - k - 1, p.side, t, k, op.key, op.val);
      var run := Run(u, t, k);
      assert run == Halves(past.kids, p.h - k - 1, p.side, t, k, op.key, op.val);
      assert run.chs[0].id == KidIds(run)[0] && run.chs[1].id == KidIds(run)[1];
    } else {
      var run := Run(u, t, k);
      assert run == One(Copy(past, p.h - k - 1, p.side, t, k, op.key, op.val));
    }
  }

  lemma LeafPlaceFills(u: Setup, heap: Heap, x: Context, t: nat)
    requires u.Ok() && 1 <= t <= |u.ops| && LeafPlace(heap, x, Run(u, t, u.At(t - 1).h), u.Req(t))
    ensures ToFill(heap, x, u, t) && OwnedBy(x.cur, t)
  {
    hide AfterOps, Legal, LevelRun;
    LastRun(u, t);
  }

  lemma LastRun(u: Setup, t: nat)
    requires u.Ok() && 1 <= t <= |u.ops|
    ensures 1 <= |Run(u, t, u.At(t - 1).h).chs| <= 2
  {
    hide AfterOps, Legal, PathNode, RunFor;
    var p, op := u.At(t - 1), u.ops[t-1];
    TreePath(u, t);
    ShapedAt(p.tree, op.key, p.h, p.h);
    RunShape(PathNode(p.tree, op.key, p.h), 0, p.side, t, p.h, op.key, op.val);
  }

  /** The context after a stage. */
  lemma CtxAfter(u: Setup, heap: Heap, pr: Progress, x: Context, heap': Heap, x': Context, t: nat, j: nat)
    requires u.Ok() && 1 <= t <= |u.ops| && !u.Appending(t) && j < u.At(t - 1).h && pr.Passed(t) == j && !pr.Done(t)
    requires RetiredSoFar(u, x, t, j + 1)
    requires x'.retired == x.retired + [u.Source(t, j + 1).id] && x'.past == u.Source(t, j + 1).id
    requires j + 1 == u.At(t - 1).h ==> LeafPlace(heap', x', Run(u, t, j + 1), u.Req(t))
    requires j + 1 < u.At(t - 1).h ==> Cursor(heap', x', t, j + 1, u.Source(t, j + 1))
    ensures CtxOk(u, heap', AfterStage(pr, t, j + 1), x', t)
  {
    hide AfterOps, Legal, PathNode, Run, Cursor, ToFill;
    if j + 1 == u.At(t - 1).h {
      LeafPlaceFills(u, heap', x', t);
    }
  }

  lemma CtxHere(u: Setup, m: Memory, pr: Progress, e: nat, t: nat)
    requires PipeInv(u, m, pr, e) && 1 <= t <= e
    ensures t < |m.ctxs| && CtxOk(u, m.heap, pr, m.ctxs[t], t) && m.ctxs[t].root == u.At(t).tree.id
  {
    hide HeapOk, SideOk, AfterOps, Legal, CtxOk;
  }

  /** What the handler of a later stage does. */
  lemma DescendRuns(u: Setup, m: Memory, t: nat, j: nat)
    requires 1 <= t <= |u.ops| && t < |m.ctxs| && j < u.At(t - 1).h
    requires Cursor(m.heap, m.ctxs[t], t, j, u.Source(t, j)) && |u.Source(t, j).kids.keys| <= MAX_KEYS
    requires Shaped(u.Source(t, j), u.At(t - 1).h - j) && Shaped(Toward(u.Source(t, j), u.ops[t-1].key), u.At(t - 1).h - j - 1)
    requires StageReady(m.heap, m.side, u.Source(t, j), u.At(t - 1).h - j - 1, u.At(t - 1).side, u.Req(t))
    ensures var m' := Descend(u, m, t, j);
            && m'.side == m.side && |m'.ctxs| == |m.ctxs| && m'.ctxs == m.ctxs[t := m'.ctxs[t]] && m'.ctxs[t].root == m.ctxs[t].root
            && StageDone(m.heap, m.ctxs[t], m'.heap, m'.ctxs[t], u.Source(t, j), u.At(t - 1).h - j - 1, u.At(t - 1).side, j, u.Req(t))
  {
    hide AfterOps, PathNode, Cursor, StageReady, StageDone, HandleSearchDown, HandleSearchSplit, Shaped;
    var x, h := m.ctxs[t], u.At(t - 1).h;
    var past := u.Source(t, j);
    CursorOp(m.heap, x, t, j, past);
    if |past.kids.keys| == MAX_KEYS {
      SplitStage(m.heap, m.side, x, past, h - j - 1, u.At(t - 1).side, j, u.Req(t));
    } else {
      DownStage(m.heap, m.side, x, past, h - j - 1, u.At(t - 1).side, j, u.Req(t));
    }
  }

  /** Where a ticket stands between two stages. */
  ghost predicate AtStage(u: Setup, m: Memory, pr: Progress, t: nat, j: nat)
    requires u.Ok() && 1 <= t <= |u.ops|
  {
    && t < |m.ctxs| && !u.Appending(t) && j < u.At(t - 1).h && pr.Passed(t) == j && !pr.Done(t)
    && RetiredSoFar(u, m.ctxs[t], t, j + 1) && Cursor(m.heap, m.ctxs[t], t, j, u.Source(t, j))
  }

  lemma StageStands(u: Setup, m: Memory, pr: Progress, e: nat, t: nat, j: nat)
    requires PipeInv(u, m, pr, e) && 1 <= t <= e && j > 0 && MayRun(u, pr, t, j)
    ensures AtStage(u, m, pr, t, j)
  {
    hide AfterOps, Legal, PathNode, HeapOk, SideOk, Cursor, RetiredSoFar, PipeInv;
    CtxHere(u, m, pr, e, t);
    SetupOk(u, m, pr, e);
  }

  /** A stage after the entry: the handler finds its sources finished, and
      leaves exactly the level the sequential update has. */
  lemma DescendStage(u: Setup, m: Memory, pr: Progress, t: nat, j: nat)
    requires u.Ok() && 1 <= t <= |u.ops| && AtStage(u, m, pr, t, j) && j > 0
    requires StageReady(m.heap, m.side, u.Source(t, j), u.At(t - 1).h - j - 1, u.At(t - 1).side, u.Req(t))
    ensures var m' := Descend(u, m, t, j);
            && m'.side == m.side && |m'.ctxs| == |m.ctxs| && m'.ctxs == m.ctxs[t := m'.ctxs[t]] && m'.ctxs[t].root == m.ctxs[t].root
            && OnlyOwn(m.heap, m'.heap, t, j) && StageBuilt(u, m'.heap, t, j)
            && (forall id :: IsReady(m'.heap, id) ==> OwnAt(id, t, j) || IsReady(m.heap, id))
            && CtxOk(u, m'.heap, AfterStage(pr, t, j + 1), m'.ctxs[t], t)
  {
    hide AfterOps, Legal, PathNode, RunHolds, Cursor, Descend, StageDone, StageReady, Shaped, OnlyOwn, IsReady, CtxOk, RetiredSoFar,
         LeafPlace, NextLevel, Run;
    SourceFacts(u, t, j);
    SourceFacts(u, t, j + 1);
    CursorOp(m.heap, m.ctxs[t], t, j, u.Source(t, j));
    ShapedSize(u.Source(t, j), u.At(t - 1).h - j);
    DescendRuns(u, m, t, j);
    var m' := Descend(u, m, t, j);
    StageBuilds(u, m.heap, m.ctxs[t], m'.heap, m'.ctxs[t], t, j);
    CtxAfter(u, m.heap, pr, m.ctxs[t], m'.heap, m'.ctxs[t], t, j);
  }

  lemma ShapedSize(x: Tree, h: int)
    requires Shaped(x, h)
    ensures x.Node? ==> |x.kids.keys| <= MAX_KEYS
  {
  }

  lemma CursorOp(heap: Heap, x: Context, t: nat, j: nat, past: Tree)
    requires Cursor(heap, x, t, j, past)
    ensures past.Node? && x.op == if |past.kids.keys| == MAX_KEYS then SearchSplit else SearchDown
  {
  }

  lemma SideStays(u: Setup, side: HSide, pr: Progress, e: nat, e': nat, t: nat, n: nat)
    requires u.Ok() && e <= |u.ops| && e' <= |u.ops| && SideOk(u, side, pr, e) && u.At(e').side == u.At(e).side
    ensures SideOk(u, side, AfterStage(pr, t, n), e')
  {
    hide AfterOps, SlotsMatch;
  }

  lemma EnteredStays(u: Setup, pr: Progress, e: nat, t: nat, j: nat)
    requires u.Ok() && Entered(u, pr, e) && MayRun(u, pr, t, j) && (if j == 0 then t == e + 1 else t <= e)
    ensures Entered(u, AfterStage(pr, t, j + 1), if j == 0 then e + 1 else e)
  {
    hide AfterOps, PathNode;
    var pr', e' := AfterStage(pr, t, j + 1), if j == 0 then e + 1 else e;
    forall v: nat | v >= 1 ensures pr'.Passed(v) >= 1 <==> v <= e' {
      assert pr.Passed(v) >= 1 <==> v <= e;
    }
    forall v: nat | v >= 1 && pr'.Done(v) ensures pr'.Passed(v) >= u.Stages(v) {
      assert pr.Done(v) && pr.Passed(v) >= u.Stages(v);
    }
  }

  lemma DescendInv(u: Setup, m: Memory, pr: Progress, e: nat, t: nat, j: nat)
    requires PipeInv(u, m, pr, e) && 1 <= t <= e && t < |m.ctxs| && e <= |u.ops| && j > 0 && MayRun(u, pr, t, j)
    ensures PipeInv(u, Descend(u, m, t, j), AfterStage(pr, t, j + 1), e)
  {
    hide AfterOps, Legal, Descend, HeapOk, SideOk, CtxOk, OnlyOwn, StageBuilt, MayRun, Entered;
    var m' := Descend(u, m, t, j);
    StageStands(u, m, pr, e, t, j);
    StageMayStart(u, m, pr, e, t, j);
    DescendStage(u, m, pr, t, j);
    EnteredStays(u, pr, e, t, j);
    HeapAfter(u, m, pr, e, t, j, m'.heap, e);
    SideStays(u, m.side, pr, e, e, t, j + 1);
    forall v: nat | 1 <= v <= e
      ensures CtxOk(u, m'.heap, AfterStage(pr, t, j + 1), m'.ctxs[v], v)
    {
      if v != t {
        CtxStays(u, m.heap, m'.heap, pr, m.ctxs[v], v, t, j);
      }
    }
  }
}
