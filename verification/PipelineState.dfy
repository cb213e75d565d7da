/** What holds of the shared heap in every state the staging order allows. */
module PipelineState {
  import opened Records
  import opened Nodes
  import opened BTree
  import opened BTreeCow
  import opened BTreeLevels
  import opened BTreeHistory
  import opened StagedCow
  import opened StagedCowOk
  import opened Pipeline

  // ---- invariant ------------------------------------------------------------

  /** Tickets 1..e have performed their entry. */
  ghost predicate Entered(u: Setup, pr: Progress, e: nat) {
    && e <= |u.ops|
    && (forall t: nat :: t >= 1 ==> (pr.Passed(t) >= 1 <==> t <= e))
    && (forall t: nat :: t >= 1 && pr.Done(t) ==> pr.Passed(t) >= u.Stages(t))
  }

  ghost predicate RootsOk(u: Setup, m: Memory, e: nat) {
    |m.ctxs| == e + 1 && forall t: nat :: t <= e ==> m.ctxs[t].root == u.At(t).tree.id
  }

  ghost predicate HeapOk(u: Setup, heap: Heap, pr: Progress, e: nat)
    requires u.Ok() && e <= |u.ops|
  {
    && AllNodes(u.w.tree, SettledQ(u, heap, pr))
    && (forall v: nat :: 1 <= v <= e && !u.Appending(v) ==> Own(u, v, SettledQ(u, heap, pr)))
    && (forall id :: IsReady(heap, id) ==> Complete(pr, id))
  }

  predicate OwnedBy(id: Id, t: nat) {
    id.New? && id.ticket == t
  }

  /** The context of a path-copying ticket. */
  ghost predicate CopyCtx(u: Setup, heap: Heap, pr: Progress, x: Context, t: nat)
    requires u.Ok() && 1 <= t <= |u.ops|
  {
    var h := u.At(t - 1).h;
    && RetiredSoFar(u, x, t, if pr.Passed(t) <= h then pr.Passed(t) + 1 else h + 1)
    && if pr.Passed(t) < u.Stages(t) then
         Cursor(heap, x, t, pr.Passed(t), u.Source(t, pr.Passed(t)))
       else
         && (u.worker && !pr.Done(t) ==> x.op == Materialize && OwnedBy(x.cur, t) && x.past == u.Source(t, h).id && ToFill(heap, x, u, t))
         && (!u.worker || pr.Done(t) ==> x.op == Done)
  }

  /** Where the values go. */
  ghost predicate ToFill(heap: Heap, x: Context, u: Setup, t: nat)
    requires u.Ok() && 1 <= t <= |u.ops|
  {
    var run := Run(u, t, u.At(t - 1).h);
    x.cur in heap && x.pair == (|run.chs| == 2) && 1 <= |run.chs| <= 2 &&
    if heap[x.cur].HLeaf? then [x.cur] == KidIds(run)
    else x.idx + |run.chs| <= |heap[x.cur].chs| && heap[x.cur].chs[x.idx..x.idx + |run.chs|] == KidIds(run)
  }

  ghost predicate RetiredSoFar(u: Setup, x: Context, t: nat, n: nat)
    requires 1 <= t <= |u.ops|
  {
    |x.retired| == n && forall k: nat :: k < n ==> x.retired[k] == u.Source(t, k).id
  }

  /** The context of an appending ticket. */
  ghost predicate AppendCtx(u: Setup, pr: Progress, x: Context, t: nat)
    requires 1 <= t <= |u.ops|
  {
    var leaf := Route(u.At(t - 1).tree, u.ops[t-1].key).id;
    && x.retired == []
    && (u.worker && !pr.Done(t) ==> x.op == FatAppend && x.cur == leaf && x.idx == |SlotsAt(u.At(t - 1).side, leaf)|)
    && (!u.worker || pr.Done(t) ==> x.op == Done)
  }

  ghost predicate CtxOk(u: Setup, heap: Heap, pr: Progress, x: Context, t: nat)
    requires u.Ok() && 1 <= t <= |u.ops|
  {
    if u.Appending(t) then AppendCtx(u, pr, x, t) else CopyCtx(u, heap, pr, x, t)
  }

  ghost predicate CtxsOk(u: Setup, m: Memory, pr: Progress, e: nat)
    requires u.Ok() && e <= |u.ops| && |m.ctxs| == e + 1
  {
    forall t: nat :: 1 <= t <= e ==> CtxOk(u, m.heap, pr, m.ctxs[t], t)
  }

  /** Slots are where the history puts them; a value may still be missing. */
  ghost predicate SideOk(u: Setup, side: HSide, pr: Progress, e: nat)
    requires e <= |u.ops|
  {
    && (forall id :: SlotsMatch(HSlotsAt(side, id), SlotsAt(u.At(e).side, id)))
    && (forall id, i :: 0 <= i < |HSlotsAt(side, id)| && Filled(u, pr, HSlotsAt(side, id)[i].version) ==> HSlotsAt(side, id)[i].value.Some?)
  }

  ghost predicate PipeInv(u: Setup, m: Memory, pr: Progress, e: nat) {
    && u.Ok() && Entered(u, pr, e) && RootsOk(u, m, e)
    && HeapOk(u, m.heap, pr, e) && CtxsOk(u, m, pr, e) && SideOk(u, m.side, pr, e)
  }

  // ---- the staging order ----------------------------------------------------

  /** Ticket v has performed n stages, or all it has. */
  predicate Ahead(u: Setup, pr: Progress, v: nat, n: nat) {
    v == 0 || pr.Passed(v) >= n || pr.Passed(v) >= u.Stages(v)
  }

  ghost predicate AllAhead(u: Setup, pr: Progress, t: nat, n: nat) {
    forall v: nat :: 0 < v < t ==> Ahead(u, pr, v, n)
  }

  /** The handoff lets ticket t perform its stage j: either every earlier ticket
      is a stage ahead, or the one that stamped the node to copy is. */
  ghost predicate MayRun(u: Setup, pr: Progress, t: nat, j: nat) {
    && 1 <= t <= |u.ops| && pr.Passed(t) == j < u.Stages(t)
    && (AllAhead(u, pr, t, j + 2) || (j > 0 && Ahead(u, pr, u.Source(t, j).ver, j + 2)))
  }

  function AfterStage(pr: Progress, t: nat, n: nat): Progress {
    pr.(counts := pr.counts[t := n])
  }

  function AfterTask(pr: Progress, t: nat): Progress {
    pr.(tasks := pr.tasks + {t})
  }

  // ---- reading --------------------------------------------------------------

  lemma TreeSettled(u: Setup, m: Memory, pr: Progress, e: nat, t: nat)
    requires u.Ok() && e <= |u.ops| && HeapOk(u, m.heap, pr, e) && t <= e
    ensures AllNodes(u.At(t).tree, SettledQ(u, m.heap, pr))
  {
    hide Own, AllNodes, Appends, AfterOps, Legal, Settled;
    TreeAll(u, t, SettledQ(u, m.heap, pr));
  }

  /** A node whose owner is a stage ahead of its level is finished. */
  lemma AheadComplete(u: Setup, pr: Progress, x: Tree, n: nat)
    requires Placed(u, x) && Ahead(u, pr, x.id.Version(), n) && Level(x.id) < n && (x.id.New? ==> x.id.ticket > 0)
    ensures Complete(pr, x.id)
  {
  }

  lemma {:induction false} PathNodeIn(t: Tree, key: Key, k: nat)
    ensures PathNode(t, key, k).id in Ids(t)
    decreases k
  {
    if k > 0 && t.Node? {
      var i := FindCh(t.kids.keys, key);
      if i < |t.kids.chs| {
        PathNodeIn(t.kids.chs[i], key, k - 1);
        ChildIds(t.kids, i);
      }
    }
  }

  lemma SourceFacts(u: Setup, t: nat, k: nat)
    requires u.Ok() && 1 <= t <= |u.ops| && k <= u.At(t - 1).h
    ensures var x := u.Source(t, k);
            && Shaped(x, u.At(t - 1).h - k) && Placed(u, x) && Level(x.id) <= k
            && x.id.Version() < t && x.id in Ids(u.At(t - 1).tree) && (x.id.New? ==> x.id.ticket > 0)
    ensures k < u.At(t - 1).h ==> u.Source(t, k + 1) == Toward(u.Source(t, k), u.ops[t-1].key)
    ensures k < u.At(t - 1).h ==> u.Source(t, k + 1) in u.Source(t, k).kids.chs
  {
    hide Wf, AllNodes, PathOk, Legal, Placed;
    var p, key := u.At(t - 1), u.ops[t-1].key;
    TreePath(u, t);
    ShapedAt(p.tree, key, p.h, k);
    TreePlaced(u, t - 1);
    PathAll(p.tree, key, k, PlacedQ(u));
    AllHere(u.Source(t, k), PlacedQ(u));
    assert Placed(u, u.Source(t, k)) by { assert PlacedQ(u)(u.Source(t, k)); }
    PathLevel(u, p.tree, key, k);
    PathNodeIn(p.tree, key, k);
    TreesGood(u, t - 1);
    NewFromTickets(u, t - 1);
    if k < p.h {
      PathStep(p.tree, key, k);
      TowardIs(u.Source(t, k), key);
    }
  }

  /** The staging order makes the source node and the one below it finished
      before they are read. */
  lemma SourcesComplete(u: Setup, m: Memory, pr: Progress, e: nat, t: nat, j: nat)
    requires PipeInv(u, m, pr, e) && t <= e + 1 && MayRun(u, pr, t, j) && j <= u.At(t - 1).h
    ensures Complete(pr, u.Source(t, j).id) && Settled(u, m.heap, pr, u.Source(t, j))
    ensures j < u.At(t - 1).h ==> Complete(pr, u.Source(t, j + 1).id) && Settled(u, m.heap, pr, u.Source(t, j + 1))
  {
    hide AllNodes, Own, Legal, CtxsOk, SideOk, RootsOk, Placed, PathNode, AfterOps;
    var x := u.Source(t, j);
    SourceFacts(u, t, j);
    SettledAt(u, m, pr, e, t, j);
    SourceStarted(u, pr, e, t, j);
    AheadComplete(u, pr, x, j + 2);
    if j < u.At(t - 1).h {
      var y := u.Source(t, j + 1);
      SourceFacts(u, t, j + 1);
      SettledAt(u, m, pr, e, t, j + 1);
      assert y in x.kids.chs;
      var i :| 0 <= i < |x.kids.chs| && x.kids.chs[i] == y;
      assert KidSettled(m.heap, pr, y.id, x.id.Version());
      if y.id.Version() == x.id.Version() {
        AheadComplete(u, pr, y, j + 2);
      }
    }
  }

  lemma SettledAt(u: Setup, m: Memory, pr: Progress, e: nat, t: nat, k: nat)
    requires PipeInv(u, m, pr, e) && 1 <= t <= e + 1 && t <= |u.ops|
    ensures Settled(u, m.heap, pr, u.Source(t, k))
  {
    hide AllNodes, Own, Legal, CtxsOk, SideOk, RootsOk, AfterOps, Settled;
    TreeSettled(u, m, pr, e, t - 1);
    PathAll(u.At(t - 1).tree, u.ops[t-1].key, k, SettledQ(u, m.heap, pr));
    AllHere(u.Source(t, k), SettledQ(u, m.heap, pr));
    assert SettledQ(u, m.heap, pr)(u.Source(t, k));
  }

  lemma SourceStarted(u: Setup, pr: Progress, e: nat, t: nat, j: nat)
    requires u.Ok() && MayRun(u, pr, t, j) && j <= u.At(t - 1).h
    ensures Ahead(u, pr, u.Source(t, j).id.Version(), j + 2)
  {
    hide Legal, AfterOps, PathNode;
    SourceFacts(u, t, j);
  }

  /** New nodes belong to tickets, which start at 1. */
  lemma {:induction false} NewFromTickets(u: Setup, t: nat)
    requires u.Ok() && t <= |u.ops|
    ensures forall x :: x in Ids(u.At(t).tree) && x.New? ==> x.ticket > 0
  {
    hide AfterOps, Cow, Path, Appends;
    if t == 0 {
      AtZero(u);
    } else {
      NewFromTickets(u, t - 1);
      TreeStep(u, t);
      if !u.Appending(t) {
        TreesGood(u, t - 1);
        var p := u.At(t - 1);
        CowShares(p.tree, p.h, p.side, t, u.ops[t-1].key, u.ops[t-1].val, u.limit);
      }
    }
  }

  // ---- slots on a replaced leaf ---------------------------------------------

  /** No lost append: a leaf on the path of a path-copying ticket has all its
      slots when the ticket enters. */
  lemma SlotsFrozen(u: Setup, t: nat, e: nat, k: nat)
    requires u.Ok() && 1 <= t <= |u.ops| && t - 1 <= e <= |u.ops| && !u.Appending(t) && k <= u.At(t - 1).h
    ensures SlotsAt(u.At(e).side, u.Source(t, k).id) == SlotsAt(u.At(t - 1).side, u.Source(t, k).id)
  {
    hide AfterOps, Legal, PathNode, Retired, Setup.Appending, Setup.Source;
    SideStep(u, t);
    if t < e {
      InRetired(u, t, k);
      NoAppendAfterReplacement(u.w, u.ops, u.capacity, u.limit, t, e, u.Source(t, k).id);
    }
  }

  lemma SideStep(u: Setup, t: nat)
    requires 1 <= t <= |u.ops| && !u.Appending(t)
    ensures u.At(t).side == u.At(t - 1).side
  {
    hide AfterOps;
    TreeStep(u, t);
  }

  lemma {:induction false} OnPath(t: Tree, h: nat, key: Key, k: nat)
    requires PathOk(t, key, h) && k <= h
    ensures |Path(t, key)| == h + 1 && Path(t, key)[k] == PathNode(t, key, k).id
    decreases h
  {
    ShapedAt(t, key, h, 0);
    if t.Node? {
      var i := FindCh(t.kids.keys, key);
      var kid := t.kids.chs[i];
      forall j | 0 <= j <= h - 1 ensures Shaped(PathNode(kid, key, j), h - 1 - j) {
        ShapedAt(t, key, h, j + 1);
        assert PathNode(t, key, j + 1) == PathNode(kid, key, j);
      }
      OnPath(kid, h - 1, key, if k == 0 then 0 else k - 1);
      assert Path(t, key) == [t.id] + Path(kid, key);
    }
  }

  lemma InRetired(u: Setup, t: nat, k: nat)
    requires u.Ok() && 1 <= t <= |u.ops| && !u.Appending(t) && k <= u.At(t - 1).h
    ensures u.Source(t, k).id in Retired(u.w, u.ops, u.capacity, t)
  {
    hide AfterOps, Legal, PathNode, Path, PathOk;
    TreePath(u, t);
    OnPath(u.At(t - 1).tree, u.At(t - 1).h, u.ops[t-1].key, k);
  }

  // ---- one structural stage -------------------------------------------------

  /** Stage j of a path-copying ticket finds everything it reads finished. */
  lemma StageMayStart(u: Setup, m: Memory, pr: Progress, e: nat, t: nat, j: nat)
    requires PipeInv(u, m, pr, e) && t <= e + 1 && MayRun(u, pr, t, j) && !u.Appending(t) && j < u.At(t - 1).h
    ensures StageReady(m.heap, m.side, u.Source(t, j), u.At(t - 1).h - j - 1, u.At(t - 1).side, u.Req(t))
  {
    hide AfterOps, Legal, PathNode, Own, AllNodes, Appends, CtxsOk, RootsOk, SlotsMatch;
    SourceFacts(u, t, j);
    SourceFacts(u, t, j + 1);
    SourcesComplete(u, m, pr, e, t, j);
    SlotsFrozen(u, t, e, j + 1);
    var next := u.Source(t, j + 1);
    assert SlotsMatch(HSlotsAt(m.side, next.id), SlotsAt(u.At(e).side, next.id));
    assert !u.worker ==> Published(HSlotsAt(m.side, next.id));
  }

  lemma LeafMayStart(u: Setup, m: Memory, pr: Progress, e: nat, t: nat)
    requires PipeInv(u, m, pr, e) && t <= e + 1 && MayRun(u, pr, t, 0) && !u.Appending(t) && u.At(t - 1).h == 0
    ensures var past := u.Source(t, 0);
            && past == u.At(t - 1).tree && past.Leaf? && |past.keys| == |past.vals| && !OwnedBy(past.id, t)
            && NodeHolds(m.heap, past, !u.worker) && SlotsMatch(HSlotsAt(m.side, past.id), SlotsAt(u.At(t - 1).side, past.id))
            && (!u.worker ==> Published(HSlotsAt(m.side, past.id)))
  {
    hide AfterOps, Legal, Own, AllNodes, Appends, CtxsOk, RootsOk, SlotsMatch;
    SourceFacts(u, t, 0);
    SourcesComplete(u, m, pr, e, t, 0);
    SlotsFrozen(u, t, e, 0);
    var past := u.Source(t, 0);
    assert SlotsMatch(HSlotsAt(m.side, past.id), SlotsAt(u.At(e).side, past.id));
    assert !u.worker ==> Published(HSlotsAt(m.side, past.id));
  }

  /** The heap changes only at nodes of one ticket's present levels. */
  ghost predicate OnlyOwn(a: Heap, b: Heap, t: nat, j: nat) {
    forall id :: !OwnAt(id, t, j) && !OwnAt(id, t, j + 1) ==> (id in b <==> id in a) && (id in a ==> b[id] == a[id])
  }

  /** The progress of a stage. */
  lemma CompleteAfter(pr: Progress, t: nat, j: nat, id: Id)
    requires pr.Passed(t) == j
    ensures Complete(pr, id) ==> Complete(AfterStage(pr, t, j + 1), id)
    ensures !OwnedBy(id, t) ==> Complete(AfterStage(pr, t, j + 1), id) == Complete(pr, id)
    ensures OwnedBy(id, t) && Complete(AfterStage(pr, t, j + 1), id) ==>
              id.stage < j || id.stage == j || (LeafRole(id) && id.stage == j + 1)
    ensures OwnedBy(id, t) && id.stage < j ==> Complete(pr, id)
    ensures OwnAt(id, t, j) ==> Complete(AfterStage(pr, t, j + 1), id)
  {
  }

  lemma KidStays(heap: Heap, heap': Heap, pr: Progress, t: nat, j: nat, id: Id, version: nat)
    requires pr.Passed(t) == j && OnlyOwn(heap, heap', t, j) && KidSettled(heap, pr, id, version)
    requires OwnedBy(id, t) ==> id.stage <= j
    ensures KidSettled(heap', AfterStage(pr, t, j + 1), id, version)
  {
    CompleteAfter(pr, t, j, id);
  }

  /** Nodes of others, and the ticket's own from earlier stages, stay settled. */
  lemma SettledStays(u: Setup, heap: Heap, heap': Heap, pr: Progress, t: nat, j: nat, x: Tree)
    requires t >= 1 && pr.Passed(t) == j && Settled(u, heap, pr, x) && OnlyOwn(heap, heap', t, j) && Placed(u, x)
    requires OwnedBy(x.id, t) ==> x.id.stage < j
    ensures Settled(u, heap', AfterStage(pr, t, j + 1), x)
  {
    CompleteAfter(pr, t, j, x.id);
    if Complete(pr, x.id) && x.Node? {
      forall i | 0 <= i < |x.kids.chs|
        ensures KidSettled(heap', AfterStage(pr, t, j + 1), x.kids.chs[i].id, x.id.Version())
      {
        var id := x.kids.chs[i].id;
        if Complete(pr, id) {
          CompleteAfter(pr, t, j, id);
        } else {
          KidStays(heap, heap', pr, t, j, id, x.id.Version());
        }
      }
    }
  }

  lemma {:induction false} AllImplies(t: Tree, p: Tree -> bool, q: Tree -> bool, r: Tree -> bool)
    requires AllNodes(t, p) && AllNodes(t, q) && (forall x: Tree :: x.id in Ids(t) && p(x) && q(x) ==> r(x))
    ensures AllNodes(t, r)
    decreases t
  {
    if t.Node? {
      forall i | 0 <= i < |t.kids.chs| ensures AllNodes(t.kids.chs[i], r) {
        ChildIds(t.kids, i);
        AllImplies(t.kids.chs[i], p, q, r);
      }
    }
  }

  lemma BaseStays(u: Setup, heap: Heap, heap': Heap, pr: Progress, t: nat, j: nat)
    requires u.Ok() && t >= 1 && pr.Passed(t) == j && OnlyOwn(heap, heap', t, j) && AllNodes(u.w.tree, SettledQ(u, heap, pr))
    ensures AllNodes(u.w.tree, SettledQ(u, heap', AfterStage(pr, t, j + 1)))
  {
    hide Settled, OnlyOwn, AllNodes, Placed, AfterOps, Wf;
    TreePlaced(u, 0);
    AtZero(u);
    forall x: Tree | x.id in Ids(u.w.tree) && PlacedQ(u)(x) && SettledQ(u, heap, pr)(x)
      ensures SettledQ(u, heap', AfterStage(pr, t, j + 1))(x)
    {
      SettledStays(u, heap, heap', pr, t, j, x);
    }
    AllImplies(u.w.tree, PlacedQ(u), SettledQ(u, heap, pr), SettledQ(u, heap', AfterStage(pr, t, j + 1)));
  }

  /** Whose the nodes of a run are. */
  lemma RunOwner(u: Setup, t: nat, k: nat, y: nat)
    requires u.Ok() && 1 <= t <= |u.ops| && k <= u.At(t - 1).h && y < |Run(u, t, k).chs|
    ensures OwnAt(Run(u, t, k).chs[y].id, t, k)
    ensures LeafRole(Run(u, t, k).chs[y].id) <==> k == u.At(t - 1).h
    ensures Run(u, t, k).chs[y].Leaf? <==> k == u.At(t - 1).h
  {
    hide Wf, Legal, Appends, RunFor, PathOk, AfterOps;
    var p, op := u.At(t - 1), u.ops[t-1];
    TreePath(u, t);
    ShapedAt(p.tree, op.key, p.h, k);
    RunKinds(PathNode(p.tree, op.key, k), p.h - k, p.side, t, k, op.key, op.val, y);
  }

  lemma RootOwner(u: Setup, t: nat)
    requires u.Ok() && 1 <= t <= |u.ops| && !u.Appending(t)
    ensures OwnAt(u.At(t).tree.id, t, 0)
  {
    hide Legal, AfterOps, Run;
    RootIs(u, t);
  }

  lemma OthersStay(u: Setup, heap: Heap, heap': Heap, pr: Progress, t: nat, j: nat, v: nat)
    requires u.Ok() && 1 <= t <= |u.ops| && 1 <= v <= |u.ops| && v != t && !u.Appending(v)
    requires pr.Passed(t) == j && OnlyOwn(heap, heap', t, j) && Own(u, v, SettledQ(u, heap, pr))
    ensures Own(u, v, SettledQ(u, heap', AfterStage(pr, t, j + 1)))
  {
    hide Settled, OnlyOwn, Run, AfterOps, Legal;
    var q, q' := SettledQ(u, heap, pr), SettledQ(u, heap', AfterStage(pr, t, j + 1));
    forall k: nat | k <= u.At(v - 1).h
      ensures Tops(Run(u, v, k), q')
    {
      assert Tops(Run(u, v, k), q);
      forall y | 0 <= y < |Run(u, v, k).chs| ensures q'(Run(u, v, k).chs[y]) {
        RunOwner(u, v, k, y);
        assert q(Run(u, v, k).chs[y]);
        RunIsPlaced(u, v, k, y);
        SettledStays(u, heap, heap', pr, t, j, Run(u, v, k).chs[y]);
      }
    }
    RootOwner(u, v);
    RootIsPlaced(u, v);
    SettledStays(u, heap, heap', pr, t, j, u.At(v).tree);
  }

  lemma RunIsPlaced(u: Setup, v: nat, k: nat, y: nat)
    requires u.Ok() && 1 <= v <= |u.ops| && !u.Appending(v) && k <= u.At(v - 1).h && y < |Run(u, v, k).chs|
    ensures Placed(u, Run(u, v, k).chs[y])
  {
    hide AfterOps, Legal, Run, AllNodes;
    TreePlaced(u, v - 1);
    RunPlaced(u, v, k, y);
  }

  lemma RootIsPlaced(u: Setup, v: nat)
    requires u.Ok() && v <= |u.ops|
    ensures Placed(u, u.At(v).tree)
  {
    hide AfterOps, Legal, Placed;
    TreePlaced(u, v);
    AllHere(u.At(v).tree, PlacedQ(u));
    assert PlacedQ(u)(u.At(v).tree);
  }

  // ---- what the stage has built ---------------------------------------------

  /** All children of the copied node are finished by then. */
  lemma PastKidsComplete(u: Setup, m: Memory, pr: Progress, e: nat, t: nat, j: nat)
    requires PipeInv(u, m, pr, e) && t <= e + 1 && MayRun(u, pr, t, j) && j < u.At(t - 1).h
    ensures var past := u.Source(t, j);
            past.Node? && forall i :: 0 <= i < |past.kids.chs| ==> Complete(pr, past.kids.chs[i].id)
  {
    hide AllNodes, Own, Legal, CtxsOk, SideOk, RootsOk, AfterOps, PathNode;
    var past := u.Source(t, j);
    SourceFacts(u, t, j);
    SourcesComplete(u, m, pr, e, t, j);
    SourceStarted(u, pr, e, t, j);
    forall i | 0 <= i < |past.kids.chs| ensures Complete(pr, past.kids.chs[i].id) {
      var kid := past.kids.chs[i];
      assert KidSettled(m.heap, pr, kid.id, past.id.Version());
      if kid.id.Version() == past.id.Version() {
        KidPlaced(u, t, j, i);
        AheadComplete(u, pr, kid, j + 2);
      }
    }
  }

  lemma KidPlaced(u: Setup, t: nat, j: nat, i: nat)
    requires u.Ok() && 1 <= t <= |u.ops| && j <= u.At(t - 1).h && u.Source(t, j).Node? && i < |u.Source(t, j).kids.chs|
    ensures var kid := u.Source(t, j).kids.chs[i];
            Placed(u, kid) && Level(kid.id) <= j + 1 && (kid.id.New? ==> kid.id.ticket > 0)
  {
    hide Legal, AfterOps, PathNode, Placed;
    var p, key := u.At(t - 1), u.ops[t-1].key;
    SourceFacts(u, t, j);
    TreePlaced(u, t - 1);
    PathAll(p.tree, key, j, PlacedQ(u));
    var kid := u.Source(t, j).kids.chs[i];
    assert AllNodes(kid, PlacedQ(u));
    assert Placed(u, kid) by { assert PlacedQ(u)(kid); }
    assert Level(kid.id) <= Level(u.Source(t, j).id) + 1 by { PlacedKid(u, u.Source(t, j), i); }
    NewFromTickets(u, t - 1);
    PathNodeIds(p.tree, key, j);
    ChildIds(u.Source(t, j).kids, i);
    assert kid.id in Ids(kid);
  }

  lemma PlacedKid(u: Setup, x: Tree, i: nat)
    requires Placed(u, x) && x.Node? && i < |x.kids.chs|
    ensures Level(x.kids.chs[i].id) <= Level(x.id) + 1
  {
  }

  lemma {:induction false} PathNodeIds(t: Tree, key: Key, k: nat)
    ensures Ids(PathNode(t, key, k)) <= Ids(t)
    decreases k
  {
    if k > 0 && t.Node? {
      var i := FindCh(t.kids.keys, key);
      if i < |t.kids.chs| {
        PathNodeIds(t.kids.chs[i], key, k - 1);
        ChildIds(t.kids, i);
      }
    }
  }

  /** The next level is there: finished leaves, or bare headers. */
  ghost predicate NextLevel(u: Setup, heap: Heap, t: nat, j: nat)
    requires u.Ok() && 1 <= t <= |u.ops|
  {
    j < u.At(t - 1).h && forall y :: 0 <= y < |Run(u, t, j).chs| ==> Run(u, t, j).chs[y].Leaf? || Header(heap, Run(u, t, j).chs[y].id)
  }

  /** The nodes of the level just built are settled. */
  lemma BuiltLevel(u: Setup, m: Memory, pr: Progress, e: nat, t: nat, j: nat, heap': Heap, y: nat)
    requires PipeInv(u, m, pr, e) && t <= e + 1 && MayRun(u, pr, t, j) && j < u.At(t - 1).h
    requires RunHolds(heap', Run(u, t, j), true) && y < |Run(u, t, j).chs|
    requires j + 1 < u.At(t - 1).h ==> NextLevel(u, heap', t, j + 1)
    ensures Settled(u, heap', AfterStage(pr, t, j + 1), Run(u, t, j).chs[y])
  {
    hide PipeInv, Legal, AfterOps, PathNode, RunFor, Toward;
    SetupOk(u, m, pr, e);
    var p, op := u.At(t - 1), u.ops[t-1];
    SourceFacts(u, t, j);
    SourceFacts(u, t, j + 1);
    PastKidsComplete(u, m, pr, e, t, j);
    RunOwner(u, t, j, y);
    var x := Run(u, t, j).chs[y];
    assert NodeHolds(heap', x, true);
    forall c | 0 <= c < |x.kids.chs|
      ensures KidSettled(heap', AfterStage(pr, t, j + 1), x.kids.chs[c].id, x.id.Version())
    {
      var kid := x.kids.chs[c];
      RunKids(u.Source(t, j), p.h - j - 1, p.side, t, j, op.key, op.val, y, c);
      CompleteAfter(pr, t, j, kid.id);
      if kid !in u.Source(t, j).kids.chs {
        var z :| 0 <= z < |Run(u, t, j + 1).chs| && Run(u, t, j + 1).chs[z] == kid;
        RunOwner(u, t, j + 1, z);
      }
    }
  }

  lemma SetupOk(u: Setup, m: Memory, pr: Progress, e: nat)
    requires PipeInv(u, m, pr, e)
    ensures u.Ok() && Entered(u, pr, e)
  {
  }

  /** The facts a finished stage leaves about the ticket's own nodes. */
  ghost predicate StageBuilt(u: Setup, heap: Heap, t: nat, j: nat)
    requires u.Ok() && 1 <= t <= |u.ops|
  {
    var h := u.At(t - 1).h;
    && (j < h ==> RunHolds(heap, Run(u, t, j), true))
    && (j + 1 < h ==> NextLevel(u, heap, t, j + 1))
    && (j + 1 >= h ==> RunHolds(heap, Run(u, t, h), !u.worker))
    && (j == 0 ==> NodeHolds(heap, u.At(t).tree, !u.worker))
  }

  lemma OwnLevel(u: Setup, m: Memory, pr: Progress, e: nat, t: nat, j: nat, heap': Heap, k: nat, y: nat)
    requires PipeInv(u, m, pr, e) && t <= e + 1 && MayRun(u, pr, t, j) && !u.Appending(t)
    requires j > 0 ==> Own(u, t, SettledQ(u, m.heap, pr))
    requires OnlyOwn(m.heap, heap', t, j) && StageBuilt(u, heap', t, j)
    requires k <= u.At(t - 1).h && y < |Run(u, t, k).chs|
    ensures Settled(u, heap', AfterStage(pr, t, j + 1), Run(u, t, k).chs[y])
  {
    hide PipeInv, Legal, AfterOps, Run, OnlyOwn, NodeHolds;
    SetupOk(u, m, pr, e);
    RunOwner(u, t, k, y);
    var x, h := Run(u, t, k).chs[y], u.At(t - 1).h;
    CompleteAfter(pr, t, j, x.id);
    if k < j {
      assert Tops(Run(u, t, k), SettledQ(u, m.heap, pr));
      assert SettledQ(u, m.heap, pr)(x);
      RunIsPlaced(u, t, k, y);
      SettledStays(u, m.heap, heap', pr, t, j, x);
    } else if k == j < h {
      BuiltLevel(u, m, pr, e, t, j, heap', y);
    } else if k == h && j + 1 >= h {
      assert !pr.Done(t);
      assert NodeHolds(heap', x, !u.worker);
    }
  }

  lemma OwnRoot(u: Setup, m: Memory, pr: Progress, e: nat, t: nat, j: nat, heap': Heap)
    requires PipeInv(u, m, pr, e) && t <= e + 1 && MayRun(u, pr, t, j) && !u.Appending(t)
    requires j > 0 ==> Own(u, t, SettledQ(u, m.heap, pr))
    requires OnlyOwn(m.heap, heap', t, j) && StageBuilt(u, heap', t, j)
    ensures Settled(u, heap', AfterStage(pr, t, j + 1), u.At(t).tree)
  {
    hide PipeInv, Legal, AfterOps, Run, OnlyOwn;
    SetupOk(u, m, pr, e);
    RootIs(u, t);
    RootOwner(u, t);
    if |Run(u, t, 0).chs| == 1 {
      OwnLevel(u, m, pr, e, t, j, heap', 0, 0);
    } else if j == 0 {
      assert !pr.Done(t);
      assert NodeHolds(heap', u.At(t).tree, !u.worker);
    } else {
      assert SettledQ(u, m.heap, pr)(u.At(t).tree);
      RootIsPlaced(u, t);
      SettledStays(u, m.heap, heap', pr, t, j, u.At(t).tree);
    }
  }

  lemma OwnAfter(u: Setup, m: Memory, pr: Progress, e: nat, t: nat, j: nat, heap': Heap)
    requires u.Ok() && 1 <= t <= |u.ops| && PipeInv(u, m, pr, e) && t <= e + 1 && MayRun(u, pr, t, j) && !u.Appending(t)
    requires j > 0 ==> Own(u, t, SettledQ(u, m.heap, pr))
    requires OnlyOwn(m.heap, heap', t, j) && StageBuilt(u, heap', t, j)
    ensures Own(u, t, SettledQ(u, heap', AfterStage(pr, t, j + 1)))
  {
    hide PipeInv, Legal, AfterOps, Run, OnlyOwn, Settled, StageBuilt, MayRun;
    SetupOk(u, m, pr, e);
    var q := SettledQ(u, heap', AfterStage(pr, t, j + 1));
    forall k: nat | k <= u.At(t - 1).h
      ensures Tops(Run(u, t, k), q)
    {
      forall y | 0 <= y < |Run(u, t, k).chs| ensures q(Run(u, t, k).chs[y]) {
        OwnLevel(u, m, pr, e, t, j, heap', k, y);
      }
    }
    OwnRoot(u, m, pr, e, t, j, heap');
  }

  /** The heap after a stage. */
  lemma HeapAfter(u: Setup, m: Memory, pr: Progress, e: nat, t: nat, j: nat, heap': Heap, e': nat)
    requires PipeInv(u, m, pr, e) && t <= e + 1 && MayRun(u, pr, t, j) && !u.Appending(t)
    requires e' == if j == 0 then e + 1 else e
    requires if j == 0 then t == e + 1 else t <= e
    requires OnlyOwn(m.heap, heap', t, j) && StageBuilt(u, heap', t, j)
    requires forall id :: IsReady(heap', id) ==> OwnAt(id, t, j) || IsReady(m.heap, id)
    ensures HeapOk(u, heap', AfterStage(pr, t, j + 1), e')
  {
    hide Legal, AfterOps, Own, OnlyOwn, Settled, StageBuilt, AllNodes, CtxsOk, SideOk, RootsOk;
    BaseStays(u, m.heap, heap', pr, t, j);
    OwnAfter(u, m, pr, e, t, j, heap');
    forall v: nat | 1 <= v <= e' && !u.Appending(v)
      ensures Own(u, v, SettledQ(u, heap', AfterStage(pr, t, j + 1)))
    {
      if v != t {
        OthersStay(u, m.heap, heap', pr, t, j, v);
      }
    }
    forall id | IsReady(heap', id)
      ensures Complete(AfterStage(pr, t, j + 1), id)
    {
      CompleteAfter(pr, t, j, id);
    }
  }
}
