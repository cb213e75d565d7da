/** What a reader of the concurrent heap sees: each committed version is exactly
    the map of its tickets, for as long as the reader looks. */
module Snapshots {
  import opened Options
  import opened Records
  import opened Nodes
  import opened BTree
  import opened BTreeCow
  import opened BTreeHistory
  import opened BTreeLevels
  import opened StagedCow
  import opened StagedCowOk
  import opened Pipeline
  import opened PipelineState
  import opened PipelineSteps
  import opened PipelineEntry
  import opened PipelineTasks
  import opened PipelineRun
  import C = Cyclic
  import Safety = CyclicSafety
  import Work = CyclicWork
  import Reclaimer

  // ---- lookups in the heap --------------------------------------------------

  /** The versioned lookup, on the nodes as they lie in memory. */
  function Find(heap: Heap, side: HSide, id: Id, version: nat, key: Key, fuel: nat): Option<Val>
    decreases fuel
  {
    if id !in heap then None else
    match heap[id]
    case HLeaf(_, keys, vals) =>
      if vals.Some? && |keys| == |vals.value| then Lookup(Overlay(Base(keys, vals.value), Visible(HSlotsAt(side, id)), version), key)
      else None
    case HInner(_, keys, chs, _) =>
      var i := FindCh(keys, key);
      if fuel == 0 || i >= |chs| then None else Find(heap, side, chs[i], version, key, fuel - 1)
  }

  /** Pending slots belong to later versions. */
  lemma {:induction false} VisibleOverlay(m: map<Key, Val>, hs: seq<HSlot>, ss: seq<Slot>, version: nat)
    requires SlotsMatch(hs, ss)
    requires forall i :: 0 <= i < |hs| && hs[i].version <= version ==> hs[i].value.Some?
    ensures Overlay(m, Visible(hs), version) == Overlay(m, ss, version)
  {
    if hs != [] {
      var n := |hs| - 1;
      VisibleOverlay(m, hs[..n], ss[..n], version);
      assert Plain(hs[n]).version == ss[n].version && Plain(hs[n]).key == ss[n].key;
      if hs[n].value.Some? {
        assert Plain(hs[n]) == ss[n];
        assert Visible(hs) == Visible(hs[..n]) + [ss[n]];
        assert Visible(hs)[..|Visible(hs)| - 1] == Visible(hs[..n]);
      }
    }
  }

  /** All tickets of a version are completely done. */
  ghost predicate AllDone(u: Setup, pr: Progress, v: nat) {
    forall t: nat :: 0 < t <= v ==> pr.Passed(t) >= u.Stages(t) && Filled(u, pr, t)
  }

  ghost predicate SeenQ(u: Setup, side: HSide, e: nat, v: nat)
    requires e <= |u.ops|
  {
    forall id :: SlotsMatch(HSlotsAt(side, id), SlotsAt(u.At(e).side, id))
                 && forall i :: 0 <= i < |HSlotsAt(side, id)| && HSlotsAt(side, id)[i].version <= v ==> HSlotsAt(side, id)[i].value.Some?
  }

  /** On a finished tree, a lookup in memory is the lookup in the tree. */
  lemma {:induction false} FindIs(u: Setup, m: Memory, t: Tree, e: nat, v: nat, lo: nat, hi: nat, h: nat, key: Key, fuel: nat)
    requires e <= |u.ops| && AllNodes(t, HoldsQ(m.heap)) && Wf(t, u.At(if v <= e then v else e).side, lo, hi, h) && lo <= key < hi && h <= fuel
    requires SeenQ(u, m.side, e, v)
    ensures Find(m.heap, m.side, t.id, v, key, fuel) == Get(t, u.At(e).side, v, key)
    decreases fuel
  {
    AllHere(t, HoldsQ(m.heap));
    assert NodeHolds(m.heap, t, true) by { assert HoldsQ(m.heap)(t); }
    if t.Leaf? {
      VisibleOverlay(Base(t.keys, t.vals), HSlotsAt(m.side, t.id), SlotsAt(u.At(e).side, t.id), v);
    } else {
      var i := FindCh(t.kids.keys, key);
      var kid := t.kids.chs[i];
      assert m.heap[t.id].chs[i] == kid.id;
      FindIs(u, m, kid, e, v, LoAt(t.kids.keys, lo, i), HiAt(t.kids.keys, hi, i), h - 1, key, fuel - 1);
    }
  }

  // ---- committed trees are in memory ----------------------------------------

  lemma {:induction false} AllHold(u: Setup, heap: Heap, pr: Progress, t: Tree, v: nat)
    requires AllNodes(t, PlacedQ(u)) && AllNodes(t, SettledQ(u, heap, pr)) && AllDone(u, pr, v)
    requires forall id :: id in Ids(t) ==> id.Version() <= v && (id.New? ==> id.ticket > 0)
    ensures AllNodes(t, HoldsQ(heap))
    decreases t
  {
    AllHere(t, PlacedQ(u));
    AllHere(t, SettledQ(u, heap, pr));
    assert Placed(u, t) by { assert PlacedQ(u)(t); }
    assert Settled(u, heap, pr, t) by { assert SettledQ(u, heap, pr)(t); }
    assert t.id in Ids(t);
    assert Complete(pr, t.id) && Filled(u, pr, t.id.Version());
    assert HoldsQ(heap)(t);
    if t.Node? {
      forall i | 0 <= i < |t.kids.chs| ensures AllNodes(t.kids.chs[i], HoldsQ(heap)) {
        ChildIds(t.kids, i);
        AllHold(u, heap, pr, t.kids.chs[i], v);
      }
    }
  }

  lemma TreeInMemory(u: Setup, m: Memory, pr: Progress, e: nat, v: nat)
    requires PipeInv(u, m, pr, e) && v <= e && AllDone(u, pr, v)
    ensures AllNodes(u.At(v).tree, HoldsQ(m.heap))
  {
    hide AfterOps, Legal, AllNodes, CtxsOk, SideOk, RootsOk, AllDone;
    TreePlaced(u, v);
    TreeSettled(u, m, pr, e, v);
    TreesGood(u, v);
    NewFromTickets(u, v);
    VersionsBelow(u, v);
    AllHold(u, m.heap, pr, u.At(v).tree, v);
  }

  lemma VersionsBelow(u: Setup, v: nat)
    requires u.Ok() && v <= |u.ops|
    ensures forall id :: id in Ids(u.At(v).tree) ==> id.Version() <= v
  {
    hide AfterOps, Legal, Wf, Distinct;
    TreesGood(u, v);
  }

  lemma SlotsSeen(u: Setup, m: Memory, pr: Progress, e: nat, v: nat)
    requires PipeInv(u, m, pr, e) && v <= e && AllDone(u, pr, v) && e <= |u.ops|
    ensures SeenQ(u, m.side, e, v)
  {
    hide AfterOps, Legal, HeapOk, CtxsOk, RootsOk;
    forall id, i | 0 <= i < |HSlotsAt(m.side, id)| && HSlotsAt(m.side, id)[i].version <= v
      ensures HSlotsAt(m.side, id)[i].value.Some?
    {
      assert SlotsMatch(HSlotsAt(m.side, id), SlotsAt(u.At(e).side, id));
      SlotOrigin(u, e, id, i);
      assert Filled(u, pr, HSlotsAt(m.side, id)[i].version);
    }
  }

  lemma FindsModel(u: Setup, m: Memory, pr: Progress, e: nat, v: nat, key: Key)
    requires PipeInv(u, m, pr, e) && v <= e && e <= |u.ops| && v < |m.ctxs| && AllDone(u, pr, v) && key < u.limit
    ensures Find(m.heap, m.side, m.ctxs[v].root, v, key, u.At(v).h) == Model(u.w, u.ops, v, key)
  {
    hide AfterOps, Wf, Distinct, AllNodes, HeapOk, CtxsOk, SideOk, Find, Get, Model, SeenQ, AllDone;
    TreeInMemory(u, m, pr, e, v);
    SlotsSeen(u, m, pr, e, v);
    TreesGood(u, v);
    FindIs(u, m, u.At(v).tree, e, v, 0, u.limit, u.At(v).h, key, u.At(v).h);
    SnapshotStable(u.w, u.ops, u.capacity, u.limit, v, e, key);
  }

  // ---- whole runs -----------------------------------------------------------

  /** Published tickets are finished, also those the monitor is about to commit. */
  lemma PublishedFinished(c: C.Size, g: C.Program, s: C.State)
    requires Safety.Inv(c, g, s)
    ensures C.Published(s) <= s.inited < |s.tickets| && forall t: nat :: 0 < t <= C.Published(s) ==> Work.Finished(s.tickets[t])
  {
    hide C.StageAt, C.PipeFor, Work.CarryInv, Work.PoolInv, Work.ExitsOk;
  }

  /** A published ticket has done everything. */
  lemma CommittedDone(u: Setup, c: C.Size, s: C.State, v: nat)
    requires Safety.Inv(c, ProgramOf(u), s) && v <= C.Published(s) && v <= |u.ops|
    ensures AllDone(u, ProgressOf(s), v)
  {
    hide C.StageAt, C.PipeFor, AfterOps, Work.CarryInv, Work.PoolInv, Work.ExitsOk, Safety.MonitorOk, C.Published;
    PublishedFinished(c, ProgramOf(u), s);
    forall t: nat | 0 < t <= v
      ensures ProgressOf(s).Passed(t) >= u.Stages(t) && Filled(u, ProgressOf(s), t)
    {
      assert Work.TicketOk(c.P, ProgramOf(u), s.tickets[t], t, s.committed);
      assert Work.Finished(s.tickets[t]);
    }
  }

  lemma EnteredBefore(u: Setup, pr: Progress, e: nat, v: nat)
    requires Entered(u, pr, e) && AllDone(u, pr, v)
    ensures v <= e
  {
    hide AfterOps, Setup.Appending;
    if v > 0 {
      assert pr.Passed(v) >= u.Stages(v);
    }
  }

  /** Snapshot linearizability. In every state of every run, whatever later
      tickets are appending, reserving, publishing or copying, a reader that
      holds the root of a published version v finds under every key exactly
      what tickets 1..v, applied in order, leave there. */
  lemma SnapshotLinearizable(u: Setup, x: Joint, n: nat, v: nat, key: Key)
    requires Joined(u, x) && n <= |x.actions| && v <= C.Published(x.states[n]) && v <= |u.ops| && key < u.limit
    ensures var m := MemAfter(u, x, n);
            && v < |m.ctxs| && m.ctxs[v].root == u.At(v).tree.id
            && Find(m.heap, m.side, m.ctxs[v].root, v, key, u.At(v).h) == Model(u.w, u.ops, v, key)
  {
    hide AfterOps, PipeInv, Safety.Inv, MemAfter, AllDone, Find, Model, Entered, C.Execution, StartsFrom, EntersWell;
    var m, s := MemAfter(u, x, n), x.states[n];
    MemoryInvariant(u, x, n);
    CommittedDone(u, x.c, s, v);
    SetupOk(u, m, ProgressOf(s), |m.ctxs| - 1);
    EnteredBefore(u, ProgressOf(s), |m.ctxs| - 1, v);
    CtxCount(u, m, ProgressOf(s), |m.ctxs| - 1);
    FindsModel(u, m, ProgressOf(s), |m.ctxs| - 1, v, key);
    RootHere(u, m, ProgressOf(s), |m.ctxs| - 1, v);
  }

  lemma RootHere(u: Setup, m: Memory, pr: Progress, e: nat, v: nat)
    requires PipeInv(u, m, pr, e) && v <= e
    ensures v < |m.ctxs| && m.ctxs[v].root == u.At(v).tree.id
  {
    hide AfterOps, HeapOk, CtxsOk, SideOk, Legal;
  }

  /** Each published ticket's tree is, node by node, the one sequential path
      copying gives, and no later step disturbs it. */
  lemma CommittedTreesAreSequential(u: Setup, x: Joint, n: nat, v: nat)
    requires Joined(u, x) && n <= |x.actions| && v <= C.Published(x.states[n]) && v <= |u.ops|
    ensures AllNodes(u.At(v).tree, HoldsQ(MemAfter(u, x, n).heap))
  {
    hide AfterOps, PipeInv, Safety.Inv, MemAfter, AllDone, AllNodes, Entered, C.Execution, StartsFrom, EntersWell;
    var m, s := MemAfter(u, x, n), x.states[n];
    MemoryInvariant(u, x, n);
    CommittedDone(u, x.c, s, v);
    SetupOk(u, m, ProgressOf(s), |m.ctxs| - 1);
    EnteredBefore(u, ProgressOf(s), |m.ctxs| - 1, v);
    TreeInMemory(u, m, ProgressOf(s), |m.ctxs| - 1, v);
  }

  /** No handler ever meets a missing node, an unbuilt child array or a pending
      value. */
  lemma NoBrokenHandler(u: Setup, x: Joint, n: nat, t: nat)
    requires Joined(u, x) && n <= |x.actions| && 1 <= t < |MemAfter(u, x, n).ctxs|
    ensures MemAfter(u, x, n).ctxs[t].op != Broken
  {
    hide AfterOps, Safety.Inv, MemAfter, PipeInv, C.Execution, StartsFrom, EntersWell;
    var m := MemAfter(u, x, n);
    MemoryInvariant(u, x, n);
    CtxHere(u, m, ProgressOf(x.states[n]), |m.ctxs| - 1, t);
    SetupOk(u, m, ProgressOf(x.states[n]), |m.ctxs| - 1);
    hide RetiredSoFar, ToFill;
  }

  /** A committed ticket retires exactly the nodes of the search path it has
      replaced, root first; an appending ticket retires nothing. */
  lemma RetiresThePath(u: Setup, x: Joint, n: nat, t: nat)
    requires Joined(u, x) && n <= |x.actions| && 1 <= t <= C.Published(x.states[n]) && t <= |u.ops|
    ensures var m := MemAfter(u, x, n);
            && t < |m.ctxs|
            && m.ctxs[t].retired == (if u.Appending(t) then [] else Path(u.At(t - 1).tree, u.ops[t-1].key))
            && Elements(m.ctxs[t].retired) == Retired(u.w, u.ops, u.capacity, t)
  {
    hide AfterOps, Safety.Inv, MemAfter, PipeInv, C.Execution, StartsFrom, EntersWell, Path, PathOk, PathNode, Legal, Entered;
    var m, s := MemAfter(u, x, n), x.states[n];
    MemoryInvariant(u, x, n);
    CommittedDone(u, x.c, s, t);
    SetupOk(u, m, ProgressOf(s), |m.ctxs| - 1);
    EnteredBefore(u, ProgressOf(s), |m.ctxs| - 1, t);
    CtxHere(u, m, ProgressOf(s), |m.ctxs| - 1, t);
    if !u.Appending(t) {
      RetiredAll(u, m.ctxs[t], t);
    }
  }

  lemma RetiredAll(u: Setup, x: Context, t: nat)
    requires u.Ok() && 1 <= t <= |u.ops| && RetiredSoFar(u, x, t, u.At(t - 1).h + 1)
    ensures x.retired == Path(u.At(t - 1).tree, u.ops[t-1].key)
  {
    hide AfterOps, Path, PathOk, PathNode, Legal;
    var p, key := u.At(t - 1), u.ops[t-1].key;
    TreePath(u, t);
    OnPath(p.tree, p.h, key, 0);
    forall k | 0 <= k < |x.retired| ensures x.retired[k] == Path(p.tree, key)[k] {
      OnPath(p.tree, p.h, key, k);
    }
  }

  /** The slot an entry takes is on the leaf the finished tree of the ticket
      before it routes its key to. */
  lemma NoLostAppend(u: Setup, x: Joint, n: nat)
    requires Joined(u, x) && n < |x.actions| && |MemAfter(u, x, n).ctxs| <= |u.ops|
    ensures var m := MemAfter(u, x, n);
            && |m.ctxs| > 0
            && var t := |m.ctxs|;
               var found := Sought(u, m, t, x.loads[n]);
               found == Blocked || found == Found.At(Route(u.At(t - 1).tree, u.ops[t-1].key).id)
  {
    hide AfterOps, Safety.Inv, MemAfter, PipeInv, Route, Sought;
    var m, s := MemAfter(u, x, n), x.states[n];
    MemoryInvariant(u, x, n);
    CommittedAhead(u, x.c, s, x.loads[n]);
    ProbeFindsRoute(u, m, ProgressOf(s), |m.ctxs| - 1, x.loads[n]);
  }

  /** Reclamation, end to end: while a reader has a validated pin of version v
      of this run's trees, no node of that tree is freed. */
  lemma PinnedTreeIsNotFreed(u: Setup, readers: nat, collectors: nat, states: seq<Reclaimer.State>, actions: seq<Reclaimer.Action>,
                             i: nat, r: nat, k: nat)
    requires u.Ok() && Reclaimer.Run(ForestOf(u.w, u.ops, u.capacity), readers, collectors, states, actions)
    requires i < |states| && r < |states[i].readers| && states[i].readers[r].pc.Pinned? && k < |states[i].freed|
    ensures var v := states[i].readers[r].pc.version;
            states[i].readers[r].pc.root == v && states[i].freed[k].nodes !! Ids(u.At(v).tree)
  {
    hide AfterOps, Legal;
    HistoryRetiresSoundly(u.w, u.ops, u.capacity, u.limit);
    Reclaimer.PinnedNodesStayAllocated(ForestOf(u.w, u.ops, u.capacity), readers, collectors, states, actions, i, r, k);
  }
}
