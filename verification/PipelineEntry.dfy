/** The entry stage: what the readiness probe may conclude, appends, and the
    first stage of a path copy. */
module PipelineEntry {
  import opened Options
  import opened Records
  import opened Nodes
  import opened BTree
  import opened BTreeCow
  import opened BTreeLevels
  import opened BTreeHistory
  import opened StagedCow
  import opened StagedCowOk
  import opened Pipeline
  import opened PipelineState
  import opened PipelineSteps

  // ---- the probe ------------------------------------------------------------

  /** Committed tickets have performed all their stages. */
  ghost predicate CommittedBy(u: Setup, pr: Progress, committed: nat) {
    forall v: nat :: 0 < v <= committed ==> pr.Passed(v) >= u.Stages(v)
  }

  /** The history records what the probe found. */
  predicate Coherent(u: Setup, m: Memory, t: nat, committed: nat)
    requires 1 <= t <= |u.ops| && t <= |m.ctxs|
  {
    u.ops[t-1].open <==> Sought(u, m, t, committed).At?
  }

  /** What the probe may meet at a node of a settled tree. */
  lemma NodeMet(u: Setup, heap: Heap, pr: Progress, committed: nat, x: Tree)
    requires CommittedBy(u, pr, committed) && AllNodes(x, PlacedQ(u)) && AllNodes(x, SettledQ(u, heap, pr))
    requires (x.id.New? ==> x.id.ticket > 0) && KidSettled(heap, pr, x.id, x.id.Version())
    ensures x.id in heap
    ensures !Complete(pr, x.id) ==> heap[x.id].HInner? && heap[x.id].ver > committed && !heap[x.id].ready
    ensures Complete(pr, x.id) && x.Leaf? ==> heap[x.id].HLeaf?
    ensures Complete(pr, x.id) && x.Node? ==>
              heap[x.id].HInner? && heap[x.id].keys == x.kids.keys && heap[x.id].chs == KidIds(x.kids) && KidsSettled(heap, pr, x)
    ensures x.Node? ==> forall i :: 0 <= i < |x.kids.chs| ==> AllNodes(x.kids.chs[i], PlacedQ(u)) && AllNodes(x.kids.chs[i], SettledQ(u, heap, pr))
  {
    hide Complete, CommittedBy, Filled;
    AllHere(x, PlacedQ(u));
    assert Placed(u, x) by { assert PlacedQ(u)(x); }
    AllHere(x, SettledQ(u, heap, pr));
    assert Settled(u, heap, pr, x) by { assert SettledQ(u, heap, pr)(x); }
    if !Complete(pr, x.id) {
      UnfinishedIsLate(u, pr, committed, x);
    }
  }

  /** The probe never goes below an unfinished node, and when it gets through
      it ends at the leaf the finished tree routes the key to. */
  lemma {:induction false} ProbeRoutes(u: Setup, heap: Heap, pr: Progress, committed: nat, x: Tree, side: Side,
                                       lo: nat, hi: nat, h: nat, key: Key, fuel: nat)
    requires CommittedBy(u, pr, committed) && Wf(x, side, lo, hi, h) && lo <= key < hi && h <= fuel
    requires AllNodes(x, PlacedQ(u)) && AllNodes(x, SettledQ(u, heap, pr))
    requires forall id :: id in Ids(x) && id.New? ==> id.ticket > 0
    requires KidSettled(heap, pr, x.id, x.id.Version())
    ensures var r := Probe(heap, committed, x.id, key, fuel); r == Blocked || r == Found.At(Route(x, key).id)
    decreases fuel
  {
    hide AllNodes, Complete, CommittedBy, KidSettled, Ids;
    assert x.id in Ids(x) by { OwnId(x); }
    NodeMet(u, heap, pr, committed, x);
    if Complete(pr, x.id) && x.Node? {
      var i := FindCh(x.kids.keys, key);
      var kid := x.kids.chs[i];
      assert heap[x.id].chs[i] == kid.id;
      KidIdsIn(x, i);
      assert KidSettled(heap, pr, kid.id, x.id.Version());
      KidOwnVersion(heap, pr, kid.id, x.id.Version());
      ProbeRoutes(u, heap, pr, committed, kid, side, LoAt(x.kids.keys, lo, i), HiAt(x.kids.keys, hi, i), h - 1, key, fuel - 1);
    }
  }

  lemma OwnId(x: Tree)
    ensures x.id in Ids(x)
  {
  }

  lemma KidIdsIn(x: Tree, i: nat)
    requires x.Node? && i < |x.kids.chs|
    ensures Ids(x.kids.chs[i]) <= Ids(x)
  {
    ChildIds(x.kids, i);
  }

  lemma KidOwnVersion(heap: Heap, pr: Progress, id: Id, version: nat)
    requires KidSettled(heap, pr, id, version)
    ensures KidSettled(heap, pr, id, id.Version())
  {
  }

  lemma UnfinishedIsLate(u: Setup, pr: Progress, committed: nat, x: Tree)
    requires CommittedBy(u, pr, committed) && Placed(u, x) && !Complete(pr, x.id) && (x.id.New? ==> x.id.ticket > 0)
    ensures x.id.Version() > committed
  {
  }

  lemma RootSettled(u: Setup, m: Memory, pr: Progress, e: nat, t: nat)
    requires PipeInv(u, m, pr, e) && t <= e
    ensures Complete(pr, u.At(t).tree.id)
  {
    hide AfterOps, Legal, HeapOk, SideOk, CtxsOk, RootsOk;
    TreePlaced(u, t);
    NewFromTickets(u, t);
    RootVersion(u, t);
  }

  lemma RootVersion(u: Setup, t: nat)
    requires u.Ok() && t <= |u.ops|
    ensures u.At(t).tree.id.Version() <= t && u.At(t).tree.id in Ids(u.At(t).tree)
  {
    hide AfterOps, Legal, Wf;
    TreesGood(u, t);
  }

  /** Behind the gate every node has its children: the walk ends at the leaf the
      finished tree routes the key to. */
  lemma {:induction false} WalkRoutes(u: Setup, heap: Heap, pr: Progress, committed: nat, x: Tree, side: Side,
                                      lo: nat, hi: nat, h: nat, key: Key, fuel: nat)
    requires CommittedBy(u, pr, committed) && Wf(x, side, lo, hi, h) && lo <= key < hi && h <= fuel
    requires AllNodes(x, PlacedQ(u)) && AllNodes(x, SettledQ(u, heap, pr))
    requires forall id :: id in Ids(x) ==> (id.New? ==> id.ticket > 0) && id.Version() <= committed
    requires KidSettled(heap, pr, x.id, x.id.Version())
    ensures Walk(heap, x.id, key, fuel) == Found.At(Route(x, key).id)
    decreases fuel
  {
    hide AllNodes, Complete, CommittedBy, KidSettled, Ids;
    assert x.id in Ids(x) by { OwnId(x); }
    NodeMet(u, heap, pr, committed, x);
    EarlyIsFinished(u, heap, pr, committed, x);
    if x.Node? {
      var i := FindCh(x.kids.keys, key);
      var kid := x.kids.chs[i];
      assert heap[x.id].chs[i] == kid.id;
      KidIdsIn(x, i);
      assert KidSettled(heap, pr, kid.id, x.id.Version());
      KidOwnVersion(heap, pr, kid.id, x.id.Version());
      WalkRoutes(u, heap, pr, committed, kid, side, LoAt(x.kids.keys, lo, i), HiAt(x.kids.keys, hi, i), h - 1, key, fuel - 1);
    }
  }

  lemma EarlyIsFinished(u: Setup, heap: Heap, pr: Progress, committed: nat, x: Tree)
    requires CommittedBy(u, pr, committed) && AllNodes(x, PlacedQ(u)) && (x.id.New? ==> x.id.ticket > 0) && x.id.Version() <= committed
    ensures Complete(pr, x.id)
  {
    hide Complete, CommittedBy, AllNodes;
    AllHere(x, PlacedQ(u));
    assert Placed(u, x) by { assert PlacedQ(u)(x); }
    if !Complete(pr, x.id) {
      UnfinishedIsLate(u, pr, committed, x);
    }
  }

  /** The tree before a ticket has no node later than the last path copy. */
  lemma {:induction false} NoneSinceCopy(u: Setup, m: Memory, e: nat, t: nat)
    requires u.Ok() && RootsOk(u, m, e) && t <= e <= |u.ops|
    ensures forall id :: id in Ids(u.At(t).tree) ==> id.Version() <= LastCopy(m.ctxs, t)
    decreases t
  {
    hide AfterOps, Legal, Ids;
    if t == 0 || m.ctxs[t].root != m.ctxs[t-1].root {
      VersionsUpTo(u, t);
    } else {
      NoneSinceCopy(u, m, e, t - 1);
      SameRootAppends(u, t);
    }
  }

  lemma VersionsUpTo(u: Setup, t: nat)
    requires u.Ok() && t <= |u.ops|
    ensures forall id :: id in Ids(u.At(t).tree) ==> id.Version() <= t
  {
    hide AfterOps, Legal, Wf;
    TreesGood(u, t);
  }

  /** A path copy has a root of its own. */
  lemma SameRootAppends(u: Setup, t: nat)
    requires u.Ok() && 1 <= t <= |u.ops| && u.At(t).tree.id == u.At(t - 1).tree.id
    ensures u.At(t).tree == u.At(t - 1).tree
  {
    hide AfterOps, Legal, Wf, Cow, CowHeight;
    TreeStep(u, t);
    if !u.Appending(t) {
      NewRoot(u, t);
    }
  }

  lemma NewRoot(u: Setup, t: nat)
    requires u.Ok() && 1 <= t <= |u.ops| && !u.Appending(t)
    ensures u.At(t).tree.id != u.At(t - 1).tree.id
  {
    hide Wf, Cow, CowHeight, Get;
    AfterGood(u.w, u.ops, u.capacity, u.limit, t - 1);
    GoodBelow(u.At(t - 1), t - 1, u.limit);
    CowShares(u.At(t - 1).tree, u.At(t - 1).h, u.At(t - 1).side, t, u.ops[t-1].key, u.ops[t-1].val, u.limit);
    RootOnPath(u.At(t - 1).tree, u.ops[t-1].key);
    OwnId(u.At(t).tree);
  }

  lemma RootOnPath(t: Tree, key: Key)
    ensures t.id in BTreeCow.Path(t, key)
  {
  }

  /** No lost append: a slot the entry takes, after its own probe or behind the
      gate, is on the leaf that the previous ticket's finished tree routes the key
      to. */
  lemma ProbeFindsRoute(u: Setup, m: Memory, pr: Progress, e: nat, committed: nat)
    requires PipeInv(u, m, pr, e) && e < |u.ops| && e < |m.ctxs| && CommittedBy(u, pr, committed)
    ensures var r := Sought(u, m, e + 1, committed); r == Blocked || r == Found.At(Route(u.At(e).tree, u.ops[e].key).id)
  {
    hide AfterOps, Probe, Walk, Route, HeapOk, SideOk, CtxsOk, Settled, Placed;
    var p := u.At(e);
    RootSettled(u, m, pr, e, e);
    TreeSettled(u, m, pr, e, e);
    TreePlaced(u, e);
    TreesGood(u, e);
    NewFromTickets(u, e);
    if u.local || u.worker {
      ProbeRoutes(u, m.heap, pr, committed, p.tree, p.side, 0, u.limit, p.h, u.ops[e].key, p.h);
    } else if committed >= LastCopy(m.ctxs, e) {
      NoneSinceCopy(u, m, e, e);
      WalkRoutes(u, m.heap, pr, committed, p.tree, p.side, 0, u.limit, p.h, u.ops[e].key, p.h);
    }
  }

  // ---- appending ------------------------------------------------------------

  lemma SideAppends(u: Setup, side: HSide, pr: Progress, e: nat, s: HSlot, leaf: Id)
    requires u.Ok() && e < |u.ops| && Entered(u, pr, e) && SideOk(u, side, pr, e) && u.Appending(e + 1)
    requires leaf == Route(u.At(e).tree, u.ops[e].key).id
    requires s.version == e + 1 && s.key == u.ops[e].key && s.value == (if u.worker then None else Some(u.ops[e].val))
    ensures SideOk(u, AppendSlot(side, leaf, s), AfterStage(pr, e + 1, 1), e + 1)
  {
    hide AfterOps, Legal, Route;
    TreeStep(u, e + 1);
    var side' := AppendSlot(side, leaf, s);
    forall id
      ensures SlotsMatch(HSlotsAt(side', id), SlotsAt(u.At(e + 1).side, id))
    {
      assert SlotsMatch(HSlotsAt(side, id), SlotsAt(u.At(e).side, id));
    }
    forall id, i | 0 <= i < |HSlotsAt(side', id)| && Filled(u, AfterStage(pr, e + 1, 1), HSlotsAt(side', id)[i].version)
      ensures HSlotsAt(side', id)[i].value.Some?
    {
      assert !pr.Done(e + 1);
      if id != leaf {
        assert HSlotsAt(side', id) == HSlotsAt(side, id);
      }
    }
  }

  lemma HeapSame(u: Setup, m: Memory, pr: Progress, e: nat)
    requires PipeInv(u, m, pr, e) && e < |u.ops| && u.Appending(e + 1)
    ensures HeapOk(u, m.heap, AfterStage(pr, e + 1, 1), e + 1)
  {
    hide AfterOps, Legal, Own, AllNodes, SideOk, CtxsOk, RootsOk;
    var t := e + 1;
    assert OnlyOwn(m.heap, m.heap, t, 0);
    BaseStays(u, m.heap, m.heap, pr, t, 0);
    forall v: nat | 1 <= v <= t && !u.Appending(v)
      ensures Own(u, v, SettledQ(u, m.heap, AfterStage(pr, t, 1)))
    {
      OthersStay(u, m.heap, m.heap, pr, t, 0, v);
    }
    forall id | IsReady(m.heap, id)
      ensures Complete(AfterStage(pr, t, 1), id)
    {
      CompleteAfter(pr, t, 0, id);
    }
  }

  lemma CtxsStay(u: Setup, m: Memory, pr: Progress, e: nat, heap': Heap, t: nat, j: nat)
    requires PipeInv(u, m, pr, e) && OnlyOwn(m.heap, heap', t, j)
    ensures |m.ctxs| == e + 1 <= |u.ops| + 1
    ensures forall v: nat :: 1 <= v <= e && v != t ==> CtxOk(u, heap', AfterStage(pr, t, j + 1), m.ctxs[v], v)
  {
    hide AfterOps, Legal, HeapOk, SideOk, CtxOk, OnlyOwn;
    forall v: nat | 1 <= v <= e && v != t
      ensures CtxOk(u, heap', AfterStage(pr, t, j + 1), m.ctxs[v], v)
    {
      CtxStays(u, m.heap, heap', pr, m.ctxs[v], v, t, j);
    }
  }

  /** What the entry does when it appends. */
  lemma EnterAppends(u: Setup, m: Memory, pr: Progress, e: nat, committed: nat)
    requires PipeInv(u, m, pr, e) && e < |u.ops| && e + 1 <= |m.ctxs| && CommittedBy(u, pr, committed)
    requires Coherent(u, m, e + 1, committed) && u.Appending(e + 1)
    ensures var leaf := Route(u.At(e).tree, u.ops[e].key).id;
            var slots := HSlotsAt(m.side, leaf);
            var prev := m.ctxs[e].root;
            && |slots| == |SlotsAt(u.At(e).side, leaf)|
            && Enter(u, m, e + 1, committed)
               == Memory(m.heap, AppendSlot(m.side, leaf, HSlot(e + 1, u.ops[e].key, if u.worker then None else Some(u.ops[e].val))),
                         m.ctxs + [Context(prev, leaf, prev, if u.worker then FatAppend else Done, |slots|, false, [])])
  {
    hide AfterOps, Legal, Sought, Route, HandleInitCow, HeapOk, CtxsOk, RootsOk;
    ProbeFindsRoute(u, m, pr, e, committed);
    var leaf := Route(u.At(e).tree, u.ops[e].key).id;
    assert SlotsMatch(HSlotsAt(m.side, leaf), SlotsAt(u.At(e).side, leaf));
  }

  lemma AppendInv(u: Setup, m: Memory, pr: Progress, e: nat, committed: nat)
    requires PipeInv(u, m, pr, e) && e < |u.ops| && e + 1 <= |m.ctxs| && CommittedBy(u, pr, committed)
    requires Coherent(u, m, e + 1, committed) && u.Appending(e + 1) && MayRun(u, pr, e + 1, 0)
    ensures PipeInv(u, Enter(u, m, e + 1, committed), AfterStage(pr, e + 1, 1), e + 1)
  {
    hide AfterOps, Legal, Enter, HeapOk, SideOk, Route, Entered, OnlyOwn, CopyCtx, MayRun, Coherent, CommittedBy;
    var t := e + 1;
    EnterAppends(u, m, pr, e, committed);
    HeapSame(u, m, pr, e);
    EnteredStays(u, pr, e, t, 0);
    NotDone(u, pr, e);
    SideAppends(u, m.side, pr, e, HSlot(t, u.ops[e].key, if u.worker then None else Some(u.ops[e].val)), Route(u.At(e).tree, u.ops[e].key).id);
    TreeStep(u, t);
    assert OnlyOwn(m.heap, m.heap, t, 0) by { SameOwn(m.heap, t, 0); }
    CtxsStay(u, m, pr, e, m.heap, t, 0);
  }

  lemma SameOwn(heap: Heap, t: nat, j: nat)
    ensures OnlyOwn(heap, heap, t, j)
  {
  }

  lemma NotDone(u: Setup, pr: Progress, e: nat)
    requires Entered(u, pr, e)
    ensures !pr.Done(e + 1)
  {
  }

  // ---- the first stage of a path copy ---------------------------------------

  /** What the entry does when it copies the path. */
  lemma EnterCopies(u: Setup, m: Memory, pr: Progress, e: nat, committed: nat)
    requires PipeInv(u, m, pr, e) && e < |u.ops| && e + 1 <= |m.ctxs| && CommittedBy(u, pr, committed)
    requires Coherent(u, m, e + 1, committed) && !u.Appending(e + 1)
    ensures var (heap, x) := HandleInitCow(m.heap, m.side, u.At(e).tree.id, u.Req(e + 1));
            Enter(u, m, e + 1, committed) == Memory(heap, m.side, m.ctxs + [x])
  {
    hide AfterOps, Legal, Sought, Route, HandleInitCow, HeapOk, CtxsOk;
    ProbeFindsRoute(u, m, pr, e, committed);
    var leaf := Route(u.At(e).tree, u.ops[e].key).id;
    assert SlotsMatch(HSlotsAt(m.side, leaf), SlotsAt(u.At(e).side, leaf));
    assert m.ctxs[e].root == u.At(e).tree.id;
  }

  /** The first stage leaves what the sequential update has at the top. */
  ghost predicate FirstStage(u: Setup, heap: Heap, heap': Heap, x': Context, t: nat)
    requires u.Ok() && 1 <= t <= |u.ops|
  {
    && x'.root == u.At(t).tree.id && OnlyOwn(heap, heap', t, 0) && StageBuilt(u, heap', t, 0)
    && (forall id :: IsReady(heap', id) ==> OwnAt(id, t, 0) || IsReady(heap, id))
  }

  /** The facts about a root leaf's replacement. */
  ghost predicate LeafStage(u: Setup, heap: Heap, heap': Heap, x': Context, t: nat)
    requires u.Ok() && 1 <= t <= |u.ops|
  {
    var run := Run(u, t, 0);
    && x'.op == (if u.worker then Materialize else Done) && x'.retired == [u.Source(t, 0).id] && x'.past == u.Source(t, 0).id
    && x'.root == u.At(t).tree.id && x'.cur == u.At(t).tree.id && x'.idx == 0 && x'.pair == (|run.chs| == 2)
    && RunHolds(heap', run, !u.worker) && NodeHolds(heap', u.At(t).tree, !u.worker)
    && OnlyOwn(heap, heap', t, 0) && (forall id :: IsReady(heap', id) ==> OwnAt(id, t, 0) || IsReady(heap, id))
  }

  lemma InitLeafRuns(u: Setup, m: Memory, pr: Progress, e: nat, t: nat)
    requires u.Ok() && t == e + 1 && t <= |u.ops| && u.At(e).h == 0 && !u.Appending(t) && MayRun(u, pr, t, 0)
    requires PipeInv(u, m, pr, e)
    ensures var (heap', x') := HandleInitCow(m.heap, m.side, u.At(e).tree.id, u.Req(t));
            LeafStage(u, m.heap, heap', x', t)
  {
    hide AfterOps, Legal, ReplaceLeaf, HandleInitCow, HeapOk, SideOk, CtxsOk, RootsOk, SlotsMatch, MayRun, PathNode, RunHolds, NodeHolds, Run;
    LeafMayStart(u, m, pr, e, t);
    InitLeaf(m.heap, m.side, u.At(e).tree, u.At(e).side, u.Req(t));
    TopRunIsLeaf(u, t);
    SourceZero(u, t);
  }

  lemma LeafStageCtx(u: Setup, heap: Heap, pr: Progress, heap': Heap, x': Context, t: nat)
    requires u.Ok() && 1 <= t <= |u.ops| && u.At(t - 1).h == 0 && !u.Appending(t) && !pr.Done(t)
    requires LeafStage(u, heap, heap', x', t)
    ensures FirstStage(u, heap, heap', x', t) && CtxOk(u, heap', AfterStage(pr, t, 1), x', t)
  {
    hide AfterOps, Legal, Run, PathNode, RunHolds, OnlyOwn;
    LastRun(u, t);
    RootOwner(u, t);
    RootIs(u, t);
    var run := Run(u, t, 0);
    assert |run.chs| == 1 ==> KidIds(run) == [run.chs[0].id];
    assert heap'[x'.cur].HLeaf? <==> |run.chs| == 1 by { RunOwner(u, t, 0, 0); }
  }

  lemma InitLeafStage(u: Setup, m: Memory, pr: Progress, e: nat, t: nat)
    requires u.Ok() && t == e + 1 && t <= |u.ops| && u.At(e).h == 0 && !u.Appending(t) && MayRun(u, pr, t, 0)
    requires PipeInv(u, m, pr, e)
    ensures var (heap', x') := HandleInitCow(m.heap, m.side, u.At(e).tree.id, u.Req(t));
            FirstStage(u, m.heap, heap', x', t) && CtxOk(u, heap', AfterStage(pr, t, 1), x', t)
  {
    hide AfterOps, Legal, HandleInitCow, HeapOk, SideOk, CtxsOk, RootsOk, MayRun, LeafStage, FirstStage, CtxOk;
    InitLeafRuns(u, m, pr, e, t);
    NotDone(u, pr, e);
    var (heap', x') := HandleInitCow(m.heap, m.side, u.At(e).tree.id, u.Req(t));
    LeafStageCtx(u, m.heap, pr, heap', x', t);
  }

  lemma SourceZero(u: Setup, t: nat)
    requires 1 <= t <= |u.ops|
    ensures u.Source(t, 0) == u.At(t - 1).tree
  {
  }

  lemma TopRunIsLeaf(u: Setup, t: nat)
    requires u.Ok() && 1 <= t <= |u.ops| && !u.Appending(t) && u.At(t - 1).h == 0
    ensures var p := u.At(t - 1);
            && p.tree.Leaf? && |p.tree.keys| == |p.tree.vals|
            && Run(u, t, 0) == ReplaceLeaf(p.tree, p.side, t, 0, u.ops[t-1].key, u.ops[t-1].val)
            && u.At(t).tree == Wrap(Run(u, t, 0), t)
  {
    hide AfterOps, Legal, ReplaceLeaf, Wf, Cow;
    var p := u.At(t - 1);
    TreePath(u, t);
    TreeStep(u, t);
    CowIsTopRun(p.tree, p.h, p.side, t, u.ops[t-1].key, u.ops[t-1].val);
  }

  /** The stage of an internal root, copied or split. */
  ghost predicate NodeStage(u: Setup, heap: Heap, heap': Heap, x': Context, t: nat)
    requires 1 <= t <= |u.ops| && u.At(t - 1).h > 0
    requires Shaped(u.Source(t, 0), u.At(t - 1).h) && Shaped(Toward(u.Source(t, 0), u.ops[t-1].key), u.At(t - 1).h - 1)
  {
    var past := u.Source(t, 0);
    var root := New(t, 0, Root);
    var x := Context(past.id, past.id, past.id, Init, 0, false, [past.id]);
    && StageDone(heap, x, heap', x', past, u.At(t - 1).h - 1, u.At(t - 1).side, 0, u.Req(t))
    && (|past.kids.keys| < MAX_KEYS ==> x'.root == New(t, 0, WholeNode))
    && (|past.kids.keys| == MAX_KEYS ==>
          && x'.root == root && root in heap'
          && heap'[root] == HInner(t, [past.kids.keys[B-1]], [New(t, 0, LeftHalf), New(t, 0, RightHalf)], true))
  }

  lemma InitNodeRuns(u: Setup, m: Memory, t: nat)
    requires 1 <= t <= |u.ops| && u.At(t - 1).h > 0
    requires Shaped(u.Source(t, 0), u.At(t - 1).h) && Shaped(Toward(u.Source(t, 0), u.ops[t-1].key), u.At(t - 1).h - 1)
    requires StageReady(m.heap, m.side, u.Source(t, 0), u.At(t - 1).h - 1, u.At(t - 1).side, u.Req(t))
    ensures var (heap', x') := HandleInitCow(m.heap, m.side, u.At(t - 1).tree.id, u.Req(t));
            NodeStage(u, m.heap, heap', x', t)
  {
    hide AfterOps, HandleInitCow, StageDone, PathNode, StageReady;
    SourceZero(u, t);
    var past := u.Source(t, 0);
    ShapedSize(past, u.At(t - 1).h);
    if |past.kids.keys| == MAX_KEYS {
      InitSplit(m.heap, m.side, past, u.At(t - 1).h - 1, u.At(t - 1).side, u.Req(t));
    } else {
      InitCopy(m.heap, m.side, past, u.At(t - 1).h - 1, u.At(t - 1).side, u.Req(t));
    }
  }

  /** The root of the new tree, in terms of the first run. */
  lemma NodeRoot(u: Setup, t: nat)
    requires u.Ok() && 1 <= t <= |u.ops| && !u.Appending(t) && u.At(t - 1).h > 0 && Shaped(u.Source(t, 0), u.At(t - 1).h)
    ensures var run, past := Run(u, t, 0), u.Source(t, 0);
            && (|past.kids.keys| < MAX_KEYS ==> u.At(t).tree == run.chs[0] && u.At(t).tree.id == New(t, 0, WholeNode))
            && (|past.kids.keys| == MAX_KEYS ==>
                  && u.At(t).tree == Node(New(t, 0, Root), t, run)
                  && run.keys == [past.kids.keys[B-1]] && KidIds(run) == [New(t, 0, LeftHalf), New(t, 0, RightHalf)])
  {
    hide AfterOps, Legal, Grow;
    var p, op, past := u.At(t - 1), u.ops[t-1], u.Source(t, 0);
    TreePath(u, t);
    RootIs(u, t);
    if |past.kids.keys| == MAX_KEYS {
      HalvesIds(past.kids, p.h - 1, p.side, t, 0, op.key, op.val);
    }
  }

  lemma InitNodeStage(u: Setup, m: Memory, pr: Progress, e: nat, t: nat)
    requires u.Ok() && t == e + 1 && t <= |u.ops| && u.At(e).h > 0 && !u.Appending(t) && MayRun(u, pr, t, 0)
    requires PipeInv(u, m, pr, e)
    ensures var (heap', x') := HandleInitCow(m.heap, m.side, u.At(e).tree.id, u.Req(t));
            FirstStage(u, m.heap, heap', x', t) && CtxOk(u, heap', AfterStage(pr, t, 1), x', t)
  {
    hide AfterOps, Legal, HandleInitCow, HeapOk, SideOk, CtxsOk, RootsOk, StageDone, PathNode, CtxOk, Run, Cursor, LeafPlace, NextLevel;
    SourceFacts(u, t, 0);
    SourceFacts(u, t, 1);
    StageMayStart(u, m, pr, e, t, 0);
    InitNodeRuns(u, m, t);
    NodeRoot(u, t);
    NotDone(u, pr, e);
    ShapedSize(u.Source(t, 0), u.At(e).h);
    var (heap', x') := HandleInitCow(m.heap, m.side, u.At(e).tree.id, u.Req(t));
    var past := u.Source(t, 0);
    var x := Context(past.id, past.id, past.id, Init, 0, false, [past.id]);
    StageBuilds(u, m.heap, x, heap', x', t, 0);
    CtxAfter(u, m.heap, pr, x, heap', x', t, 0);
    RunHasTop(u, t);
    assert NodeHolds(heap', u.At(t).tree, !u.worker);
  }

  lemma RunHasTop(u: Setup, t: nat)
    requires u.Ok() && 1 <= t <= |u.ops| && !u.Appending(t)
    ensures |Run(u, t, 0).chs| >= 1
  {
    hide AfterOps, Legal, Run;
    RootIs(u, t);
  }

  lemma CopyInv(u: Setup, m: Memory, pr: Progress, e: nat, committed: nat)
    requires PipeInv(u, m, pr, e) && e < |u.ops| && e + 1 <= |m.ctxs| && CommittedBy(u, pr, committed)
    requires Coherent(u, m, e + 1, committed) && !u.Appending(e + 1) && MayRun(u, pr, e + 1, 0)
    ensures PipeInv(u, Enter(u, m, e + 1, committed), AfterStage(pr, e + 1, 1), e + 1)
  {
    hide AfterOps, Legal, Enter, HeapOk, SideOk, Entered, OnlyOwn, CtxOk, MayRun, Coherent, CommittedBy, HandleInitCow, StageBuilt, IsReady;
    var t := e + 1;
    EnterCopies(u, m, pr, e, committed);
    if u.At(e).h == 0 {
      InitLeafStage(u, m, pr, e, t);
    } else {
      InitNodeStage(u, m, pr, e, t);
    }
    var (heap', x') := HandleInitCow(m.heap, m.side, u.At(e).tree.id, u.Req(t));
    HeapAfter(u, m, pr, e, t, 0, heap', t);
    EnteredStays(u, pr, e, t, 0);
    SideStep(u, t);
    SideStays(u, m.side, pr, e, t, t, 1);
    CtxsStay(u, m, pr, e, heap', t, 0);
  }

  /** The entry keeps the invariant, whichever way it goes. */
  lemma EnterInv(u: Setup, m: Memory, pr: Progress, e: nat, committed: nat)
    requires PipeInv(u, m, pr, e) && e < |u.ops| && e + 1 <= |m.ctxs| && CommittedBy(u, pr, committed)
    requires Coherent(u, m, e + 1, committed) && MayRun(u, pr, e + 1, 0)
    ensures PipeInv(u, Enter(u, m, e + 1, committed), AfterStage(pr, e + 1, 1), e + 1)
  {
    hide PipeInv, MayRun, Coherent, CommittedBy, Enter, AfterOps;
    if u.Appending(e + 1) {
      AppendInv(u, m, pr, e, committed);
    } else {
      CopyInv(u, m, pr, e, committed);
    }
  }
}
