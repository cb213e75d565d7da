/** The workers' tasks: publishing a reserved slot, and filling in the values of
    a replaced leaf once its sources are published. */
module PipelineTasks {
  import opened Records
  import opened Nodes
  import opened BTree
  import opened BTreeCow
  import opened BTreeLevels
  import opened BTreeHistory
  import opened StagedCow
  import opened StagedCowOk
  import opened Pipeline
  import opened PipelineState
  import opened PipelineSteps

  // ---- where slots come from ------------------------------------------------

  function LeafOf(u: Setup, t: nat): Id
    requires 1 <= t <= |u.ops|
  {
    Route(u.At(t - 1).tree, u.ops[t-1].key).id
  }

  function SlotOf(u: Setup, t: nat): Slot
    requires 1 <= t <= |u.ops|
  {
    Slot(t, u.ops[t-1].key, u.ops[t-1].val)
  }

  lemma SlotStep(u: Setup, e: nat, id: Id)
    requires 1 <= e <= |u.ops|
    ensures SlotsAt(u.At(e).side, id)
            == SlotsAt(u.At(e - 1).side, id) + (if u.Appending(e) && id == LeafOf(u, e) then [SlotOf(u, e)] else [])
  {
    hide AfterOps, Route;
    TreeStep(u, e);
  }

  lemma {:induction false} SlotsPrefix(u: Setup, t: nat, e: nat, id: Id)
    requires t <= e <= |u.ops|
    ensures SlotsAt(u.At(t).side, id) <= SlotsAt(u.At(e).side, id)
    decreases e
  {
    hide AfterOps;
    if t < e {
      SlotsPrefix(u, t, e - 1, id);
      SlotStep(u, e, id);
    }
  }

  /** Every slot was taken by one ticket, at one place. */
  lemma {:induction false} SlotOrigin(u: Setup, e: nat, id: Id, i: nat)
    requires u.Ok() && e <= |u.ops| && i < |SlotsAt(u.At(e).side, id)|
    ensures var v := SlotsAt(u.At(e).side, id)[i].version;
            && 1 <= v <= e && u.Appending(v) && id == LeafOf(u, v) && i == |SlotsAt(u.At(v - 1).side, id)|
            && SlotsAt(u.At(e).side, id)[i] == SlotOf(u, v)
    decreases e
  {
    hide AfterOps, Legal, Setup.Appending, Route;
    if e == 0 {
      NoSlotsYet(u, id);
    } else {
      SlotStep(u, e, id);
      if i < |SlotsAt(u.At(e - 1).side, id)| {
        SlotOrigin(u, e - 1, id, i);
      }
    }
  }

  lemma NoSlotsYet(u: Setup, id: Id)
    requires u.Ok()
    ensures SlotsAt(u.At(0).side, id) == []
  {
    hide Wf, Distinct;
    AtZero(u);
  }

  /** The tickets whose values a ticket's task waits for. */
  function Needs(u: Setup, t: nat): set<nat>
    requires 1 <= t <= |u.ops|
  {
    if u.Appending(t) then {} else
    var leaf := u.Source(t, u.At(t - 1).h).id;
    var slots := SlotsAt(u.At(t - 1).side, leaf);
    (set i | 0 <= i < |slots| :: slots[i].version) + (if leaf.Version() > 0 then {leaf.Version()} else {})
  }

  lemma NeedsEarlier(u: Setup, t: nat)
    requires u.Ok() && 1 <= t <= |u.ops|
    ensures forall d :: d in Needs(u, t) ==> 0 < d < t
  {
    hide AfterOps, Legal, PathNode;
    if !u.Appending(t) {
      var leaf := u.Source(t, u.At(t - 1).h).id;
      SourceFacts(u, t, u.At(t - 1).h);
      var slots := SlotsAt(u.At(t - 1).side, leaf);
      forall i | 0 <= i < |slots|
        ensures 0 < slots[i].version < t
      {
        SlotOrigin(u, t - 1, leaf, i);
      }
    }
  }

  ghost predicate NeedsMet(u: Setup, pr: Progress, t: nat)
    requires 1 <= t <= |u.ops|
  {
    forall d :: d in Needs(u, t) ==> pr.Done(d)
  }

  // ---- frames ---------------------------------------------------------------

  ghost predicate Unchanged(a: Heap, b: Heap, ids: seq<Id>) {
    forall id :: id !in ids ==> (id in b <==> id in a) && (id in a ==> b[id] == a[id])
  }

  /** A task changes nothing the settled facts of other nodes depend on. */
  lemma SettledKept(u: Setup, heap: Heap, heap': Heap, pr: Progress, t: nat, ids: seq<Id>, x: Tree)
    requires Settled(u, heap, pr, x) && Unchanged(heap, heap', ids) && x.id !in ids
    requires forall id :: id in ids ==> Complete(pr, id)
    requires x.Leaf? ==> x.id.Version() != t
    ensures Settled(u, heap', AfterTask(pr, t), x)
  {
    assert Complete(AfterTask(pr, t), x.id) == Complete(pr, x.id);
    if Complete(pr, x.id) && x.Node? {
      forall i | 0 <= i < |x.kids.chs|
        ensures KidSettled(heap', AfterTask(pr, t), x.kids.chs[i].id, x.id.Version())
      {
        assert KidSettled(heap, pr, x.kids.chs[i].id, x.id.Version());
      }
    }
  }

  lemma BaseKept(u: Setup, heap: Heap, heap': Heap, pr: Progress, t: nat, ids: seq<Id>)
    requires u.Ok() && t >= 1 && Unchanged(heap, heap', ids) && AllNodes(u.w.tree, SettledQ(u, heap, pr))
    requires forall id :: id in ids ==> Complete(pr, id) && OwnedBy(id, t)
    ensures AllNodes(u.w.tree, SettledQ(u, heap', AfterTask(pr, t)))
  {
    hide Settled, Unchanged, AllNodes, Wf, Distinct;
    forall x: Tree | x.id in Ids(u.w.tree) && SettledQ(u, heap, pr)(x) && SettledQ(u, heap, pr)(x)
      ensures SettledQ(u, heap', AfterTask(pr, t))(x)
    {
      SettledKept(u, heap, heap', pr, t, ids, x);
    }
    AllImplies(u.w.tree, SettledQ(u, heap, pr), SettledQ(u, heap, pr), SettledQ(u, heap', AfterTask(pr, t)));
  }

  lemma OthersKept(u: Setup, heap: Heap, heap': Heap, pr: Progress, t: nat, ids: seq<Id>, v: nat)
    requires u.Ok() && 1 <= v <= |u.ops| && v != t && !u.Appending(v)
    requires Unchanged(heap, heap', ids) && Own(u, v, SettledQ(u, heap, pr))
    requires forall id :: id in ids ==> Complete(pr, id) && OwnedBy(id, t)
    ensures Own(u, v, SettledQ(u, heap', AfterTask(pr, t)))
  {
    hide Settled, Unchanged, Run, AfterOps, Legal;
    var q, q' := SettledQ(u, heap, pr), SettledQ(u, heap', AfterTask(pr, t));
    forall k: nat | k <= u.At(v - 1).h
      ensures Tops(Run(u, v, k), q')
    {
      assert Tops(Run(u, v, k), q);
      forall y | 0 <= y < |Run(u, v, k).chs| ensures q'(Run(u, v, k).chs[y]) {
        RunOwner(u, v, k, y);
        assert q(Run(u, v, k).chs[y]);
        SettledKept(u, heap, heap', pr, t, ids, Run(u, v, k).chs[y]);
      }
    }
    RootOwner(u, v);
    SettledKept(u, heap, heap', pr, t, ids, u.At(v).tree);
  }

  lemma CursorKept(heap: Heap, heap': Heap, x: Context, v: nat, k: nat, past: Tree, ids: seq<Id>, t: nat)
    requires Cursor(heap, x, v, k, past) && Unchanged(heap, heap', ids) && v != t
    requires forall id :: id in ids ==> OwnedBy(id, t)
    ensures Cursor(heap', x, v, k, past)
  {
  }

  lemma CtxKept(u: Setup, heap: Heap, heap': Heap, pr: Progress, x: Context, v: nat, t: nat, ids: seq<Id>)
    requires u.Ok() && 1 <= v <= |u.ops| && v != t && CtxOk(u, heap, pr, x, v) && Unchanged(heap, heap', ids)
    requires forall id :: id in ids ==> OwnedBy(id, t)
    ensures CtxOk(u, heap', AfterTask(pr, t), x, v)
  {
    hide Run, Unchanged, Cursor, ToFill, AfterOps, Legal, PathNode;
    if !u.Appending(v) {
      if pr.Passed(v) < u.Stages(v) {
        CursorKept(heap, heap', x, v, pr.Passed(v), u.Source(v, pr.Passed(v)), ids, t);
      } else if u.worker && !pr.Done(v) {
        FillKept(u, heap, heap', x, v, t, ids);
      }
    }
  }

  lemma FillKept(u: Setup, heap: Heap, heap': Heap, x: Context, v: nat, t: nat, ids: seq<Id>)
    requires u.Ok() && 1 <= v <= |u.ops| && v != t && ToFill(heap, x, u, v) && OwnedBy(x.cur, v) && Unchanged(heap, heap', ids)
    requires forall id :: id in ids ==> OwnedBy(id, t)
    ensures ToFill(heap', x, u, v)
  {
    hide Run;
  }

  lemma CtxsKept(u: Setup, m: Memory, pr: Progress, e: nat, heap': Heap, t: nat, ids: seq<Id>)
    requires PipeInv(u, m, pr, e) && Unchanged(m.heap, heap', ids) && forall id :: id in ids ==> OwnedBy(id, t)
    ensures |m.ctxs| == e + 1 <= |u.ops| + 1
    ensures forall v: nat :: 1 <= v <= e && v != t ==> CtxOk(u, heap', AfterTask(pr, t), m.ctxs[v], v)
  {
    hide AfterOps, Legal, HeapOk, SideOk, CtxOk, Unchanged;
    forall v: nat | 1 <= v <= e && v != t
      ensures CtxOk(u, heap', AfterTask(pr, t), m.ctxs[v], v)
    {
      CtxKept(u, m.heap, heap', pr, m.ctxs[v], v, t, ids);
    }
  }

  // ---- publishing a slot ----------------------------------------------------

  lemma PublishOk(u: Setup, side: HSide, pr: Progress, e: nat, t: nat)
    requires u.Ok() && 1 <= t <= e <= |u.ops| && SideOk(u, side, pr, e) && u.Appending(t)
    ensures SideOk(u, PublishSlot(side, LeafOf(u, t), |SlotsAt(u.At(t - 1).side, LeafOf(u, t))|, u.ops[t-1].val), AfterTask(pr, t), e)
  {
    hide AfterOps, Legal, Setup.Appending, Route;
    var leaf := LeafOf(u, t);
    var i := |SlotsAt(u.At(t - 1).side, leaf)|;
    var side' := PublishSlot(side, leaf, i, u.ops[t-1].val);
    SlotStep(u, t, leaf);
    SlotsPrefix(u, t, e, leaf);
    assert SlotsAt(u.At(e).side, leaf)[i] == SlotOf(u, t);
    assert SlotsMatch(HSlotsAt(side, leaf), SlotsAt(u.At(e).side, leaf));
    forall id
      ensures SlotsMatch(HSlotsAt(side', id), SlotsAt(u.At(e).side, id))
    {
      assert SlotsMatch(HSlotsAt(side, id), SlotsAt(u.At(e).side, id));
    }
    forall id, k | 0 <= k < |HSlotsAt(side', id)| && Filled(u, AfterTask(pr, t), HSlotsAt(side', id)[k].version)
      ensures HSlotsAt(side', id)[k].value.Some?
    {
      assert SlotsMatch(HSlotsAt(side, id), SlotsAt(u.At(e).side, id));
      SlotOrigin(u, e, id, k);
      assert HSlotsAt(side', id)[k].version == HSlotsAt(side, id)[k].version;
    }
  }

  /** A path-copying ticket has no slot. */
  lemma SideKept(u: Setup, side: HSide, pr: Progress, e: nat, t: nat)
    requires u.Ok() && 1 <= t <= e <= |u.ops| && SideOk(u, side, pr, e) && !u.Appending(t)
    ensures SideOk(u, side, AfterTask(pr, t), e)
  {
    hide AfterOps, Legal, Setup.Appending, Route;
    forall id, k | 0 <= k < |HSlotsAt(side, id)| && Filled(u, AfterTask(pr, t), HSlotsAt(side, id)[k].version)
      ensures HSlotsAt(side, id)[k].value.Some?
    {
      assert SlotsMatch(HSlotsAt(side, id), SlotsAt(u.At(e).side, id));
      SlotOrigin(u, e, id, k);
    }
  }

  lemma EnteredKept(u: Setup, pr: Progress, e: nat, t: nat)
    requires Entered(u, pr, e) && 1 <= t <= e && pr.Passed(t) >= u.Stages(t)
    ensures Entered(u, AfterTask(pr, t), e)
  {
    hide AfterOps;
    var pr' := AfterTask(pr, t);
    forall v: nat | v >= 1 ensures pr'.Passed(v) >= 1 <==> v <= e {
      assert pr.Passed(v) >= 1 <==> v <= e;
    }
    forall v: nat | v >= 1 && pr'.Done(v) ensures pr'.Passed(v) >= u.Stages(v) {
      assert v == t || pr.Done(v);
    }
  }

  lemma HeapKept(u: Setup, m: Memory, pr: Progress, e: nat, heap': Heap, t: nat, ids: seq<Id>)
    requires PipeInv(u, m, pr, e) && 1 <= t <= e && Unchanged(m.heap, heap', ids) && NoneReadied(m.heap, heap')
    requires forall id :: id in ids ==> Complete(pr, id) && OwnedBy(id, t)
    requires !u.Appending(t) ==> Own(u, t, SettledQ(u, heap', AfterTask(pr, t)))
    ensures HeapOk(u, heap', AfterTask(pr, t), e)
  {
    hide AfterOps, Legal, Own, Unchanged, Settled, AllNodes, CtxsOk, SideOk, RootsOk;
    BaseKept(u, m.heap, heap', pr, t, ids);
    forall v: nat | 1 <= v <= e && !u.Appending(v)
      ensures Own(u, v, SettledQ(u, heap', AfterTask(pr, t)))
    {
      if v != t {
        OthersKept(u, m.heap, heap', pr, t, ids, v);
      }
    }
    forall id | IsReady(heap', id)
      ensures Complete(AfterTask(pr, t), id)
    {
      assert Complete(pr, id);
    }
  }

  lemma PublishInv(u: Setup, m: Memory, pr: Progress, e: nat, t: nat)
    requires PipeInv(u, m, pr, e) && u.worker && 1 <= t <= e && t < |m.ctxs| && !pr.Done(t) && pr.Passed(t) >= u.Stages(t) && u.Appending(t)
    ensures PipeInv(u, RunTask(u, m, t), AfterTask(pr, t), e)
  {
    hide AfterOps, Legal, HeapOk, SideOk, Entered, CopyCtx, PublishSlot, Route, Unchanged, HandleMaterialize;
    SetupOk(u, m, pr, e);
    CtxHere(u, m, pr, e, t);
    EnteredKept(u, pr, e, t);
    PublishOk(u, m.side, pr, e, t);
    assert Unchanged(m.heap, m.heap, []) by { Untouched(m.heap); }
    HeapKept(u, m, pr, e, m.heap, t, []);
    CtxsKept(u, m, pr, e, m.heap, t, []);
  }

  lemma Untouched(heap: Heap)
    ensures Unchanged(heap, heap, []) && NoneReadied(heap, heap)
  {
  }

  // ---- filling in values ----------------------------------------------------

  lemma {:induction false} FillAllUnchanged(heap: Heap, ids: seq<Id>, m: map<Key, Val>)
    ensures Unchanged(heap, FillAll(heap, ids, m), ids)
    decreases |ids|
  {
    if ids != [] {
      FillAllUnchanged(Fill(heap, ids[0], m), ids[1..], m);
    }
  }

  /** The leaf a path-copying ticket replaces, and what by. */
  lemma LastLevel(u: Setup, t: nat)
    requires u.Ok() && 1 <= t <= |u.ops| && !u.Appending(t)
    ensures var h := u.At(t - 1).h;
            var leaf := u.Source(t, h);
            && leaf.Leaf? && |leaf.keys| == |leaf.vals|
            && Run(u, t, h) == LeafRun(ViewOf(leaf, SlotsAt(u.At(t - 1).side, leaf.id), u.Req(t)), t, h)
  {
    hide AfterOps, Legal, PathNode, LeafRun;
    TreePath(u, t);
    SourceFacts(u, t, u.At(t - 1).h);
  }

  lemma LeafSettled(u: Setup, m: Memory, pr: Progress, e: nat, t: nat)
    requires PipeInv(u, m, pr, e) && 1 <= t <= e && !u.Appending(t) && pr.Passed(t) >= u.Stages(t) && NeedsMet(u, pr, t) && u.worker
    ensures var h := u.At(t - 1).h;
            && NodeHolds(m.heap, u.Source(t, h), true)
            && SlotsMatch(HSlotsAt(m.side, u.Source(t, h).id), SlotsAt(u.At(t - 1).side, u.Source(t, h).id))
            && Published(HSlotsAt(m.side, u.Source(t, h).id))
  {
    hide AfterOps, Legal, PathNode, CtxsOk, RootsOk, Own, AllNodes, SlotsMatch;
    var h := u.At(t - 1).h;
    var leaf := u.Source(t, h);
    SourceFacts(u, t, h);
    SettledAt(u, m, pr, e, t, h);
    SlotsFrozen(u, t, e, h);
    assert SlotsMatch(HSlotsAt(m.side, leaf.id), SlotsAt(u.At(e).side, leaf.id));
    LeafDone(u, pr, e, t);
    var hs := HSlotsAt(m.side, leaf.id);
    SlotsDone(u, pr, t, hs);
  }

  /** The source leaf's own ticket has filled it. */
  lemma LeafDone(u: Setup, pr: Progress, e: nat, t: nat)
    requires u.Ok() && Entered(u, pr, e) && 1 <= t <= |u.ops| && !u.Appending(t) && NeedsMet(u, pr, t)
    ensures var leaf := u.Source(t, u.At(t - 1).h);
            Complete(pr, leaf.id) && Filled(u, pr, leaf.id.Version())
  {
    hide AfterOps, Legal, PathNode, Setup.Appending;
    var leaf := u.Source(t, u.At(t - 1).h);
    SourceFacts(u, t, u.At(t - 1).h);
    if leaf.id.Version() > 0 {
      assert leaf.id.Version() in Needs(u, t);
    }
  }

  lemma SlotsDone(u: Setup, pr: Progress, t: nat, hs: seq<HSlot>)
    requires 1 <= t <= |u.ops| && !u.Appending(t) && NeedsMet(u, pr, t)
    requires SlotsMatch(hs, SlotsAt(u.At(t - 1).side, u.Source(t, u.At(t - 1).h).id))
    ensures forall i :: 0 <= i < |hs| ==> Filled(u, pr, hs[i].version)
  {
    hide AfterOps, PathNode, Setup.Appending;
    var slots := SlotsAt(u.At(t - 1).side, u.Source(t, u.At(t - 1).h).id);
    forall i | 0 <= i < |hs| ensures Filled(u, pr, hs[i].version) {
      assert slots[i].version in Needs(u, t);
    }
  }

  ghost predicate OwnLeaves(pr: Progress, ids: seq<Id>, t: nat, h: nat) {
    forall id :: id in ids ==> Complete(pr, id) && OwnAt(id, t, h) && LeafRole(id)
  }

  lemma LeavesThere(u: Setup, m: Memory, pr: Progress, e: nat, t: nat)
    requires PipeInv(u, m, pr, e) && 1 <= t <= e && !u.Appending(t) && pr.Passed(t) >= u.Stages(t)
    ensures RunHolds(m.heap, Run(u, t, u.At(t - 1).h), false)
    ensures OwnLeaves(pr, KidIds(Run(u, t, u.At(t - 1).h)), t, u.At(t - 1).h)
  {
    hide AfterOps, Legal, PathNode, CtxsOk, RootsOk, SideOk, AllNodes, Run;
    var h := u.At(t - 1).h;
    var run := Run(u, t, h);
    assert Own(u, t, SettledQ(u, m.heap, pr));
    assert Tops(run, SettledQ(u, m.heap, pr));
    forall y | 0 <= y < |run.chs|
      ensures NodeHolds(m.heap, run.chs[y], false) && Complete(pr, run.chs[y].id) && OwnAt(run.chs[y].id, t, h) && LeafRole(run.chs[y].id)
    {
      RunOwner(u, t, h, y);
      assert SettledQ(u, m.heap, pr)(run.chs[y]);
    }
  }

  /** What the worker does when its sources are there. */
  lemma MaterializeRuns(heap: Heap, hside: HSide, x: Context, leaf: Tree, side: Side, run: Seg, r: Request)
    requires leaf.Leaf? && |leaf.keys| == |leaf.vals| && x.past == leaf.id && NodeHolds(heap, leaf, true)
    requires SlotsMatch(HSlotsAt(hside, leaf.id), SlotsAt(side, leaf.id)) && Published(HSlotsAt(hside, leaf.id))
    requires x.cur in heap && x.pair == (|run.chs| == 2) && 1 <= |run.chs| <= 2
    requires if heap[x.cur].HLeaf? then [x.cur] == KidIds(run)
             else x.idx + |run.chs| <= |heap[x.cur].chs| && heap[x.cur].chs[x.idx..x.idx + |run.chs|] == KidIds(run)
    ensures HandleMaterialize(heap, hside, x, r)
            == (FillAll(heap, KidIds(run), ViewOf(leaf, SlotsAt(side, leaf.id), r)), x.(op := Done))
  {
    hide SourceView, LeafView;
    SourceViewOk(heap, leaf, HSlotsAt(hside, leaf.id), SlotsAt(side, leaf.id), r);
    var m := ViewOf(leaf, SlotsAt(side, leaf.id), r);
    assert FillAll(Fill(heap, x.cur, m), [], m) == Fill(heap, x.cur, m);
    assert heap[x.cur].HLeaf? ==> FillAll(heap, [x.cur], m) == Fill(heap, x.cur, m);
  }

  lemma OwnFilled(u: Setup, m: Memory, pr: Progress, e: nat, t: nat, heap': Heap)
    requires PipeInv(u, m, pr, e) && 1 <= t <= e && !u.Appending(t) && pr.Passed(t) >= u.Stages(t)
    requires Unchanged(m.heap, heap', KidIds(Run(u, t, u.At(t - 1).h))) && RunHolds(heap', Run(u, t, u.At(t - 1).h), true)
    ensures Own(u, t, SettledQ(u, heap', AfterTask(pr, t)))
  {
    hide AfterOps, Legal, PathNode, CtxsOk, RootsOk, SideOk, AllNodes, Run, Settled, Unchanged, NodeHolds;
    var h := u.At(t - 1).h;
    var ids := KidIds(Run(u, t, h));
    var q, q' := SettledQ(u, m.heap, pr), SettledQ(u, heap', AfterTask(pr, t));
    LeavesThere(u, m, pr, e, t);
    assert Own(u, t, q);
    forall k: nat | k <= h
      ensures Tops(Run(u, t, k), q')
    {
      assert Tops(Run(u, t, k), q);
      forall y | 0 <= y < |Run(u, t, k).chs| ensures q'(Run(u, t, k).chs[y]) {
        var z := Run(u, t, k).chs[y];
        assert q(z);
        RunOwner(u, t, k, y);
        if k == h {
          LeafNowFull(u, heap', AfterTask(pr, t), z);
        } else {
          SettledKept(u, m.heap, heap', pr, t, ids, z);
        }
      }
    }
    RootIs(u, t);
    if |Run(u, t, 0).chs| == 2 {
      assert !LeafRole(u.At(t).tree.id);
      SettledKept(u, m.heap, heap', pr, t, ids, u.At(t).tree);
    }
  }

  lemma LeafNowFull(u: Setup, heap: Heap, pr: Progress, x: Tree)
    requires x.Leaf? && NodeHolds(heap, x, true)
    ensures Settled(u, heap, pr, x)
  {
  }

  /** The memory after the leaves are filled. */
  ghost predicate FilledIn(u: Setup, m: Memory, m': Memory, t: nat)
    requires u.Ok() && 1 <= t <= |u.ops| && t < |m.ctxs|
  {
    var run := Run(u, t, u.At(t - 1).h);
    && m'.side == m.side && m'.ctxs == m.ctxs[t := m.ctxs[t].(op := Done)]
    && Unchanged(m.heap, m'.heap, KidIds(run)) && NoneReadied(m.heap, m'.heap) && RunHolds(m'.heap, run, true)
  }

  lemma FillStep(u: Setup, m: Memory, t: nat)
    requires u.Ok() && 1 <= t <= |u.ops| && t < |m.ctxs| && !u.Appending(t) && m.ctxs[t].op == Materialize
    requires var h := u.At(t - 1).h;
             var leaf := u.Source(t, h);
             && NodeHolds(m.heap, leaf, true) && m.ctxs[t].past == leaf.id && ToFill(m.heap, m.ctxs[t], u, t)
             && SlotsMatch(HSlotsAt(m.side, leaf.id), SlotsAt(u.At(t - 1).side, leaf.id)) && Published(HSlotsAt(m.side, leaf.id))
             && RunHolds(m.heap, Run(u, t, h), false)
    ensures FilledIn(u, m, RunTask(u, m, t), t)
  {
    hide AfterOps, Legal, Unchanged, HandleMaterialize, Run, PathNode, RunHolds, FillAll, LeafView, LeafRun, SlotsMatch, NodeHolds;
    var h := u.At(t - 1).h;
    var run := Run(u, t, h);
    var leaf := u.Source(t, h);
    LastLevel(u, t);
    MaterializeRuns(m.heap, m.side, m.ctxs[t], leaf, u.At(t - 1).side, run, u.Req(t));
    var view := ViewOf(leaf, SlotsAt(u.At(t - 1).side, leaf.id), u.Req(t));
    FillAllOk(m.heap, view, t, h);
    FillAllUnchanged(m.heap, KidIds(run), view);
  }

  lemma CopyHere(u: Setup, m: Memory, pr: Progress, e: nat, t: nat)
    requires PipeInv(u, m, pr, e) && u.worker && 1 <= t <= e && !pr.Done(t) && pr.Passed(t) >= u.Stages(t) && !u.Appending(t)
    ensures t < |m.ctxs|
    ensures var x := m.ctxs[t]; x.op == Materialize && x.past == u.Source(t, u.At(t - 1).h).id && ToFill(m.heap, x, u, t)
    ensures u.Ok() && Entered(u, pr, e) && SideOk(u, m.side, pr, e)
    ensures CtxOk(u, m.heap, pr, m.ctxs[t], t) && RootsOk(u, m, e)
  {
    hide AfterOps, Legal, HeapOk, SideOk, Entered, ToFill, PathNode;
    CtxHere(u, m, pr, e, t);
  }

  lemma DoneCtx(u: Setup, heap: Heap, pr: Progress, x: Context, heap': Heap, t: nat)
    requires u.Ok() && 1 <= t <= |u.ops| && !u.Appending(t) && pr.Passed(t) >= u.Stages(t) && CtxOk(u, heap, pr, x, t)
    ensures CtxOk(u, heap', AfterTask(pr, t), x.(op := Done), t)
  {
    hide AfterOps, Legal, ToFill, PathNode, Cursor;
  }

  lemma FillInv(u: Setup, m: Memory, pr: Progress, e: nat, t: nat)
    requires u.Ok() && t <= |u.ops| && t < |m.ctxs|
    requires PipeInv(u, m, pr, e) && u.worker && 1 <= t <= e && !pr.Done(t) && pr.Passed(t) >= u.Stages(t) && !u.Appending(t)
    requires NeedsMet(u, pr, t)
    ensures PipeInv(u, RunTask(u, m, t), AfterTask(pr, t), e)
  {
    hide AfterOps, Legal, HeapOk, SideOk, Entered, Unchanged, RunTask, Run, PathNode, RunHolds, NeedsMet, SlotsMatch, NodeHolds, CtxOk, ToFill,
         Published, NoneReadied;
    var ids := KidIds(Run(u, t, u.At(t - 1).h));
    CopyHere(u, m, pr, e, t);
    LeafSettled(u, m, pr, e, t);
    LeavesThere(u, m, pr, e, t);
    FillStep(u, m, t);
    var m' := RunTask(u, m, t);
    EnteredKept(u, pr, e, t);
    OwnFilled(u, m, pr, e, t, m'.heap);
    HeapKept(u, m, pr, e, m'.heap, t, ids);
    CtxsKept(u, m, pr, e, m'.heap, t, ids);
    SideKept(u, m.side, pr, e, t);
    DoneCtx(u, m.heap, pr, m.ctxs[t], m'.heap, t);
  }

  /** A worker's task keeps the invariant, once the tasks it waits for are
      done; it never looks at a pending value. */
  lemma TaskInv(u: Setup, m: Memory, pr: Progress, e: nat, t: nat)
    requires u.Ok() && t <= |u.ops|
    requires PipeInv(u, m, pr, e) && u.worker && 1 <= t <= e && t < |m.ctxs| && !pr.Done(t) && pr.Passed(t) >= u.Stages(t)
    requires NeedsMet(u, pr, t)
    ensures PipeInv(u, RunTask(u, m, t), AfterTask(pr, t), e)
  {
    hide AfterOps, PipeInv, NeedsMet, RunTask, Setup.Appending;
    if u.Appending(t) {
      PublishInv(u, m, pr, e, t);
    } else {
      FillInv(u, m, pr, e, t);
    }
  }

  // ---- idle stages ----------------------------------------------------------

  lemma SettledIdle(u: Setup, heap: Heap, pr: Progress, t: nat, n: nat, x: Tree)
    requires Settled(u, heap, pr, x) && Placed(u, x) && pr.Passed(t) >= u.Stages(t) && pr.Passed(t) <= n
    ensures Settled(u, heap, AfterStage(pr, t, n), x)
  {
    assert Complete(AfterStage(pr, t, n), x.id) == Complete(pr, x.id);
    if Complete(pr, x.id) && x.Node? {
      forall i | 0 <= i < |x.kids.chs|
        ensures KidSettled(heap, AfterStage(pr, t, n), x.kids.chs[i].id, x.id.Version())
      {
        assert KidSettled(heap, pr, x.kids.chs[i].id, x.id.Version());
      }
    }
  }

  lemma HeapIdle(u: Setup, heap: Heap, pr: Progress, e: nat, t: nat, n: nat)
    requires u.Ok() && e <= |u.ops| && HeapOk(u, heap, pr, e) && pr.Passed(t) >= u.Stages(t) && pr.Passed(t) <= n
    ensures HeapOk(u, heap, AfterStage(pr, t, n), e)
  {
    hide AfterOps, Legal, AllNodes, Settled, Placed, Run, Wf, Distinct;
    var q, q' := SettledQ(u, heap, pr), SettledQ(u, heap, AfterStage(pr, t, n));
    TreePlaced(u, 0);
    AtZero(u);
    forall x: Tree | x.id in Ids(u.w.tree) && PlacedQ(u)(x) && q(x) ensures q'(x) {
      SettledIdle(u, heap, pr, t, n, x);
    }
    AllImplies(u.w.tree, PlacedQ(u), q, q');
    forall v: nat | 1 <= v <= e && !u.Appending(v) ensures Own(u, v, q') {
      assert Own(u, v, q);
      OwnIdle(u, heap, pr, t, n, v);
    }
  }

  lemma OwnIdle(u: Setup, heap: Heap, pr: Progress, t: nat, n: nat, v: nat)
    requires u.Ok() && 1 <= v <= |u.ops| && !u.Appending(v) && pr.Passed(t) >= u.Stages(t) && pr.Passed(t) <= n
    requires Own(u, v, SettledQ(u, heap, pr))
    ensures Own(u, v, SettledQ(u, heap, AfterStage(pr, t, n)))
  {
    hide AfterOps, Legal, Settled, Placed, Run;
    var q, q' := SettledQ(u, heap, pr), SettledQ(u, heap, AfterStage(pr, t, n));
    forall k: nat | k <= u.At(v - 1).h ensures Tops(Run(u, v, k), q') {
      assert Tops(Run(u, v, k), q);
      forall y | 0 <= y < |Run(u, v, k).chs| ensures q'(Run(u, v, k).chs[y]) {
        assert q(Run(u, v, k).chs[y]);
        RunIsPlaced(u, v, k, y);
        SettledIdle(u, heap, pr, t, n, Run(u, v, k).chs[y]);
      }
    }
    RootIsPlaced(u, v);
    SettledIdle(u, heap, pr, t, n, u.At(v).tree);
  }

  lemma CtxIdle(u: Setup, heap: Heap, pr: Progress, x: Context, v: nat, t: nat, n: nat)
    requires u.Ok() && 1 <= v <= |u.ops| && CtxOk(u, heap, pr, x, v) && pr.Passed(t) >= u.Stages(t) && pr.Passed(t) <= n
    ensures CtxOk(u, heap, AfterStage(pr, t, n), x, v)
  {
    hide AfterOps, Legal, Cursor, ToFill, PathNode;
  }

  /** Passing a stage without a handler keeps the invariant. */
  lemma IdleInv(u: Setup, m: Memory, pr: Progress, e: nat, t: nat, n: nat)
    requires PipeInv(u, m, pr, e) && 1 <= t <= e && u.Stages(t) <= pr.Passed(t) <= n
    ensures PipeInv(u, m, AfterStage(pr, t, n), e)
  {
    hide AfterOps, Legal, HeapOk, CtxOk, SlotsMatch;
    HeapIdle(u, m.heap, pr, e, t, n);
    var pr' := AfterStage(pr, t, n);
    forall v: nat | 1 <= v <= e ensures CtxOk(u, m.heap, pr', m.ctxs[v], v) {
      CtxIdle(u, m.heap, pr, m.ctxs[v], v, t, n);
    }
    forall v: nat | v >= 1 ensures pr'.Passed(v) >= 1 <==> v <= e {
      assert pr.Passed(v) >= 1 <==> v <= e;
    }
    forall v: nat | v >= 1 && pr'.Done(v) ensures pr'.Passed(v) >= u.Stages(v) {
      assert pr.Done(v);
    }
  }

  /** Past its structural stages a ticket's context calls no tree handler. */
  lemma IdleDescend(u: Setup, m: Memory, pr: Progress, e: nat, t: nat, j: nat)
    requires PipeInv(u, m, pr, e) && 1 <= t <= e && t < |m.ctxs| && e <= |u.ops| && u.Stages(t) <= pr.Passed(t)
    ensures Descend(u, m, t, j) == m
  {
    hide AfterOps, Legal, HeapOk, SideOk, Cursor, ToFill, PathNode, HandleSearchDown, HandleSearchSplit;
    CtxHere(u, m, pr, e, t);
  }
}
