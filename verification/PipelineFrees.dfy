/** The pipeline on a memory that loses freed nodes: handlers and readers never
    look at one. */
module PipelineFrees {
  import opened Options
  import opened Records
  import opened Nodes
  import opened BTree
  import opened BTreeLevels
  import opened BTreeHistory
  import opened StagedCow
  import opened StagedCowOk
  import opened Pipeline
  import opened PipelineState
  import opened PipelineEntry
  import opened PipelineRun
  import C = Cyclic
  import Safety = CyclicSafety
  import Reclaimer
  import Snap = Snapshots

  /** Freed nodes are gone, and their slots with them. */
  function Lose(m: Memory, gone: set<Id>): Memory {
    Memory(m.heap - gone, m.side - gone, m.ctxs)
  }

  // ---- heaps ----------------------------------------------------------------

  predicate NoneOfTicket(gone: set<Id>, ticket: nat) {
    forall x :: x in gone ==> !(x.New? && x.ticket == ticket)
  }

  lemma PutLose(heap: Heap, gone: set<Id>, id: Id, n: HNode)
    requires id !in gone
    ensures (heap - gone)[id := n] == heap[id := n] - gone
  {
  }

  lemma SlotsLose(side: HSide, gone: set<Id>, id: Id)
    requires id !in gone
    ensures HSlotsAt(side - gone, id) == HSlotsAt(side, id)
  {
  }

  lemma PutLeavesLose(heap: Heap, gone: set<Id>, keys: seq<Key>, ticket: nat, stage: nat)
    requires NoneOfTicket(gone, ticket)
    ensures PutLeaves(heap - gone, keys, ticket, stage) == PutLeaves(heap, keys, ticket, stage) - gone
  {
  }

  lemma FillLose(heap: Heap, gone: set<Id>, id: Id, m: map<Key, Val>)
    ensures Fill(heap - gone, id, m) == Fill(heap, id, m) - gone
  {
  }

  lemma {:induction false} FillAllLose(heap: Heap, gone: set<Id>, ids: seq<Id>, m: map<Key, Val>)
    ensures FillAll(heap - gone, ids, m) == FillAll(heap, ids, m) - gone
    decreases |ids|
  {
    hide Fill;
    if ids != [] {
      FillLose(heap, gone, ids[0], m);
      FillAllLose(Fill(heap, ids[0], m), gone, ids[1..], m);
    }
  }

  lemma MakeLose(heap: Heap, gone: set<Id>, source: HNode, slots: seq<HSlot>, r: Request, stage: nat)
    requires source.HLeaf? && NoneOfTicket(gone, r.ticket)
    ensures MakeLeaves(heap, source, slots, r, stage).None? ==> MakeLeaves(heap - gone, source, slots, r, stage).None?
    ensures MakeLeaves(heap, source, slots, r, stage).Some? ==>
              MakeLeaves(heap - gone, source, slots, r, stage) == Some(MakeLeaves(heap, source, slots, r, stage).value - gone)
  {
    hide PutLeaves, FillAll, NewKeys, SourceView;
    var keys := NewKeys(source.keys, slots, r);
    PutLeavesLose(heap, gone, keys, r.ticket, stage);
    var o := SourceView(source, slots, r);
    if o.Some? {
      FillAllLose(PutLeaves(heap, keys, r.ticket, stage), gone, LeafIds(keys, r.ticket, stage), o.value);
    }
  }

  /** The child the tail of a handler replaces is the last it retires. */
  ghost predicate KeepsLast(y: Context, gone: set<Id>) {
    y.op != Broken && y.retired != [] && y.retired[|y.retired| - 1] !in gone
  }

  lemma UpdateLose(heap: Heap, side: HSide, gone: set<Id>, x: Context, j: nat, r: Request)
    requires x.cur !in gone && NoneOfTicket(gone, r.ticket) && KeepsLast(UpdateCow(heap, side, x, j, r).1, gone)
    ensures UpdateCow(heap - gone, side - gone, x, j, r) == (UpdateCow(heap, side, x, j, r).0 - gone, UpdateCow(heap, side, x, j, r).1)
  {
    hide MakeLeaves, NewKeys, LeafIds, LeafSeps;
    var c := heap[x.cur];
    var i := FindCh(c.keys, r.key);
    var past := c.chs[i];
    if heap[past].HLeaf? {
      SlotsLose(side, gone, past);
      var ks := NewKeys(heap[past].keys, HSlotsAt(side, past), r);
      MakeLose(heap, gone, heap[past], HSlotsAt(side, past), r, j + 1);
      var o := MakeLeaves(heap, heap[past], HSlotsAt(side, past), r, j + 1);
      PutLose(o.value, gone, x.cur, Replaced(c, i, LeafSeps(ks), LeafIds(ks, r.ticket, j + 1)));
    } else {
      InnerLose(heap, gone, x, j, r, c, i, heap[past].keys);
    }
  }

  lemma InnerLose(heap: Heap, gone: set<Id>, x: Context, j: nat, r: Request, c: HNode, i: nat, keys: seq<Key>)
    requires x.cur !in gone && NoneOfTicket(gone, r.ticket) && c.HInner? && i <= |c.keys| && i < |c.chs|
    ensures |keys| == MAX_KEYS ==>
              var a, b := New(r.ticket, j + 1, LeftHalf), New(r.ticket, j + 1, RightHalf);
              (heap - gone)[a := HInner(r.ticket, keys[..B-1], [], false)][b := HInner(r.ticket, keys[B..], [], false)][x.cur := Replaced(c, i, [keys[B-1]], [a, b])]
              == heap[a := HInner(r.ticket, keys[..B-1], [], false)][b := HInner(r.ticket, keys[B..], [], false)][x.cur := Replaced(c, i, [keys[B-1]], [a, b])] - gone
    ensures var n := New(r.ticket, j + 1, WholeNode);
            (heap - gone)[n := HInner(r.ticket, keys, [], false)][x.cur := Replaced(c, i, [], [n])]
            == heap[n := HInner(r.ticket, keys, [], false)][x.cur := Replaced(c, i, [], [n])] - gone
  {
    hide Replaced;
  }

  lemma DownLose(heap: Heap, side: HSide, gone: set<Id>, x: Context, j: nat, r: Request)
    requires x.cur !in gone && x.past !in gone && NoneOfTicket(gone, r.ticket) && KeepsLast(HandleSearchDown(heap, side, x, j, r).1, gone)
    ensures HandleSearchDown(heap - gone, side - gone, x, j, r)
            == (HandleSearchDown(heap, side, x, j, r).0 - gone, HandleSearchDown(heap, side, x, j, r).1)
  {
    hide UpdateCow;
    var n := heap[x.cur].(chs := heap[x.past].chs);
    PutLose(heap, gone, x.cur, n);
    UpdateLose(heap[x.cur := n], side, gone, x, j, r);
  }

  lemma ReadyLose(heap: Heap, gone: set<Id>, id: Id)
    requires id !in gone
    ensures SetReady(heap - gone, id) == SetReady(heap, id) - gone
  {
  }

  /** The two halves are the ticket's own. */
  lemma SplitLose(heap: Heap, side: HSide, gone: set<Id>, x: Context, j: nat, r: Request, a: Id, b: Id)
    requires x.cur !in gone && x.past !in gone && NoneOfTicket(gone, r.ticket) && a !in gone && b !in gone
    requires x.cur in heap && heap[x.cur].HInner? && x.idx + 1 < |heap[x.cur].chs| && heap[x.cur].chs[x.idx] == a && heap[x.cur].chs[x.idx + 1] == b
    requires KeepsLast(HandleSearchSplit(heap, side, x, j, r).1, gone)
    ensures HandleSearchSplit(heap - gone, side - gone, x, j, r)
            == (HandleSearchSplit(heap, side, x, j, r).0 - gone, HandleSearchSplit(heap, side, x, j, r).1)
  {
    hide UpdateCow, SetReady;
    var c, p := heap[x.cur], heap[x.past];
    var na, nb := heap[a].(chs := p.chs[..B]), heap[b].(chs := p.chs[B..]);
    PutLose(heap, gone, a, na);
    PutLose(heap[a := na], gone, b, nb);
    var h := heap[a := na][b := nb];
    assert (heap - gone)[a := na][b := nb] == h - gone;
    var right := c.keys[x.idx] <= r.key;
    var own, next := if right then a else b, if right then b else a;
    ReadyLose(h, gone, own);
    UpdateLose(SetReady(h, own), side, gone, x.(cur := next), j, r);
  }

  lemma InitLose(heap: Heap, side: HSide, gone: set<Id>, prev: Id, r: Request)
    requires prev !in gone && NoneOfTicket(gone, r.ticket) && KeepsLast(HandleInitCow(heap, side, prev, r).1, gone)
    ensures HandleInitCow(heap - gone, side - gone, prev, r) == (HandleInitCow(heap, side, prev, r).0 - gone, HandleInitCow(heap, side, prev, r).1)
  {
    hide UpdateCow, MakeLeaves, NewKeys, LeafIds, LeafSeps;
    var t := r.ticket;
    var x := Context(prev, prev, prev, Init, 0, false, [prev]);
    match heap[prev] {
      case HLeaf(_, keys, _) =>
        SlotsLose(side, gone, prev);
        MakeLose(heap, gone, heap[prev], HSlotsAt(side, prev), r, 0);
        var ks := NewKeys(keys, HSlotsAt(side, prev), r);
        var o := MakeLeaves(heap, heap[prev], HSlotsAt(side, prev), r, 0);
        PutLose(o.value, gone, New(t, 0, Root), HInner(t, LeafSeps(ks), LeafIds(ks, t, 0), r.worker));
      case HInner(_, keys, chs, _) =>
        if |keys| < MAX_KEYS {
          var n := New(t, 0, WholeNode);
          PutLose(heap, gone, n, HInner(t, keys, chs, false));
          UpdateLose(heap[n := HInner(t, keys, chs, false)], side, gone, x.(root := n, cur := n), 0, r);
        } else {
          InitSplitLose(heap, side, gone, prev, r);
        }
    }
  }

  lemma InitSplitLose(heap: Heap, side: HSide, gone: set<Id>, prev: Id, r: Request)
    requires prev !in gone && NoneOfTicket(gone, r.ticket) && KeepsLast(HandleInitCow(heap, side, prev, r).1, gone)
    requires prev in heap && heap[prev].HInner? && |heap[prev].keys| >= MAX_KEYS
    ensures HandleInitCow(heap - gone, side - gone, prev, r) == (HandleInitCow(heap, side, prev, r).0 - gone, HandleInitCow(heap, side, prev, r).1)
  {
    hide UpdateCow, MakeLeaves, NewKeys, LeafIds, LeafSeps;
    var t := r.ticket;
    var x := Context(prev, prev, prev, Init, 0, false, [prev]);
    var keys, chs := heap[prev].keys, heap[prev].chs;
    var root, a, b := New(t, 0, Root), New(t, 0, LeftHalf), New(t, 0, RightHalf);
    var right := keys[B-1] <= r.key;
    var na, nb, nr := HInner(t, keys[..B-1], chs[..B], right), HInner(t, keys[B..], chs[B..], !right), HInner(t, [keys[B-1]], [a, b], true);
    PutLose(heap, gone, a, na);
    PutLose(heap[a := na], gone, b, nb);
    PutLose(heap[a := na][b := nb], gone, root, nr);
    UpdateLose(heap[a := na][b := nb][root := nr], side, gone, x.(root := root, cur := if right then b else a), 0, r);
  }

  lemma MaterializeLose(heap: Heap, side: HSide, gone: set<Id>, x: Context, r: Request)
    requires x.past !in gone && x.cur !in gone
    ensures HandleMaterialize(heap - gone, side - gone, x, r) == (HandleMaterialize(heap, side, x, r).0 - gone, HandleMaterialize(heap, side, x, r).1)
  {
    hide Fill, FillAll, SourceView;
    SlotsLose(side, gone, x.past);
    if x.past in heap && x.cur in heap {
      var o := SourceView(heap[x.past], HSlotsAt(side, x.past), r);
      if o.Some? {
        FillLose(heap, gone, x.cur, o.value);
        if heap[x.cur].HInner? {
          var chs, n := heap[x.cur].chs, if x.pair then 2 else 1;
          if x.idx + n <= |chs| { FillAllLose(heap, gone, chs[x.idx..x.idx + n], o.value); }
        }
      }
    }
  }

  // ---- what may be gone -----------------------------------------------------

  /** The nodes that tickets 1..n replaced. */
  function Retirable(u: Setup, n: nat): set<Id> {
    set v: nat, x | 1 <= v <= n && x in Retired(u.w, u.ops, u.capacity, v) :: x
  }

  /** None of them is in a later tree, or of a later ticket. */
  lemma GoneFacts(u: Setup, n: nat, gone: set<Id>, t: nat)
    requires u.Ok() && gone <= Retirable(u, n) && n < t <= |u.ops|
    ensures Ids(u.At(t - 1).tree) !! gone && NoneOfTicket(gone, t)
  {
    hide AfterOps, Legal, Ids, Retired;
    forall x | x in gone ensures x !in Ids(u.At(t - 1).tree) && x.Version() < t {
      var v: nat :| 1 <= v <= n && x in Retired(u.w, u.ops, u.capacity, v);
      RetiredGone(u.w, u.ops, u.capacity, u.limit, v, x);
      GoneForever(u.w, u.ops, u.capacity, u.limit, v, t - 1, x);
    }
  }

  // ---- the entry ------------------------------------------------------------

  lemma {:induction false} ProbeLose(u: Setup, heap: Heap, gone: set<Id>, pr: Progress, committed: nat, x: Tree, side: Side,
                                     lo: nat, hi: nat, h: nat, key: Key, fuel: nat)
    requires CommittedBy(u, pr, committed) && Wf(x, side, lo, hi, h) && lo <= key < hi && h <= fuel && Ids(x) !! gone
    requires AllNodes(x, PlacedQ(u)) && AllNodes(x, SettledQ(u, heap, pr))
    requires forall id :: id in Ids(x) && id.New? ==> id.ticket > 0
    requires KidSettled(heap, pr, x.id, x.id.Version())
    ensures Probe(heap - gone, committed, x.id, key, fuel) == Probe(heap, committed, x.id, key, fuel)
    ensures (forall id :: id in Ids(x) ==> id.Version() <= committed) ==> Walk(heap - gone, x.id, key, fuel) == Walk(heap, x.id, key, fuel)
    decreases fuel
  {
    hide AllNodes, Complete, CommittedBy, KidSettled, Ids;
    assert x.id in Ids(x) by { OwnId(x); }
    NodeMet(u, heap, pr, committed, x);
    if x.id.Version() <= committed { EarlyIsFinished(u, heap, pr, committed, x); }
    if Complete(pr, x.id) && x.Node? {
      var i := FindCh(x.kids.keys, key);
      var kid := x.kids.chs[i];
      assert heap[x.id].chs[i] == kid.id;
      KidIdsIn(x, i);
      assert KidSettled(heap, pr, kid.id, x.id.Version());
      KidOwnVersion(heap, pr, kid.id, x.id.Version());
      ProbeLose(u, heap, gone, pr, committed, kid, side, LoAt(x.kids.keys, lo, i), HiAt(x.kids.keys, hi, i), h - 1, key, fuel - 1);
    }
  }

  lemma SoughtLose(u: Setup, m: Memory, pr: Progress, e: nat, committed: nat, gone: set<Id>)
    requires PipeInv(u, m, pr, e) && e < |u.ops| && e < |m.ctxs| && CommittedBy(u, pr, committed) && Ids(u.At(e).tree) !! gone
    ensures Sought(u, Lose(m, gone), e + 1, committed) == Sought(u, m, e + 1, committed)
    ensures Sought(u, m, e + 1, committed).At? ==> Sought(u, m, e + 1, committed).leaf !in gone
  {
    hide AfterOps, Probe, Walk, Route, HeapOk, SideOk, CtxsOk, Settled, Placed, Ids;
    var p := u.At(e);
    RootSettled(u, m, pr, e, e);
    TreeSettled(u, m, pr, e, e);
    TreePlaced(u, e);
    TreesGood(u, e);
    NewFromTickets(u, e);
    NoneSinceCopy(u, m, e, e);
    ProbeFindsRoute(u, m, pr, e, committed);
    RouteIn(p.tree, u.ops[e].key);
    ProbeLose(u, m.heap, gone, pr, committed, p.tree, p.side, 0, u.limit, p.h, u.ops[e].key, p.h);
  }

  lemma InitRetires(heap: Heap, side: HSide, prev: Id, r: Request)
    ensures HandleInitCow(heap, side, prev, r).1.retired != []
  {
    hide MakeLeaves, NewKeys, LeafIds, LeafSeps, Replaced;
  }

  /** A copying ticket's context names nodes of the tree before it. */
  lemma CopyKeeps(u: Setup, heap: Heap, pr: Progress, x: Context, t: nat, gone: set<Id>)
    requires u.Ok() && 1 <= t <= |u.ops| && CtxOk(u, heap, pr, x, t) && x.retired != [] && Ids(u.At(t - 1).tree) !! gone
    ensures KeepsLast(x, gone)
  {
    hide AfterOps, Legal, Ids, ToFill;
    var n := |x.retired|;
    SourceFacts(u, t, n - 1);
  }

  lemma AppendLose(side: HSide, gone: set<Id>, id: Id, s: HSlot)
    requires id !in gone
    ensures AppendSlot(side - gone, id, s) == AppendSlot(side, id, s) - gone
  {
  }

  lemma EnterLose(u: Setup, m: Memory, pr: Progress, e: nat, committed: nat, gone: set<Id>, pr': Progress)
    requires PipeInv(u, m, pr, e) && e < |u.ops| && e < |m.ctxs| && CommittedBy(u, pr, committed)
    requires Ids(u.At(e).tree) !! gone && NoneOfTicket(gone, e + 1)
    requires PipeInv(u, Enter(u, m, e + 1, committed), pr', e + 1)
    ensures Enter(u, Lose(m, gone), e + 1, committed) == Lose(Enter(u, m, e + 1, committed), gone)
  {
    hide AfterOps, Legal, Ids, Sought, HandleInitCow, HeapOk, SideOk, CtxOk, PipeInv;
    SoughtLose(u, m, pr, e, committed, gone);
    var t := e + 1;
    var m' := Enter(u, m, t, committed);
    var found, prev := Sought(u, m, t, committed), m.ctxs[e].root;
    if found.At? {
      SlotsLose(m.side, gone, found.leaf);
      AppendLose(m.side, gone, found.leaf, HSlot(t, u.ops[e].key, if u.worker then None else Some(u.ops[e].val)));
    }
    if !(u.capacity > 0 && found.At? && |HSlotsAt(m.side, found.leaf)| < u.capacity) {
      var x := HandleInitCow(m.heap, m.side, prev, u.Req(t)).1;
      assert m'.ctxs[t] == x by { PipeCtxs(u, m, pr, e); }
      PipeCtx(u, m', pr', e + 1, t);
      InitRetires(m.heap, m.side, prev, u.Req(t));
      CopyKeeps(u, m'.heap, pr', x, t, gone);
      RootOld(u, m, pr, e, gone);
      InitLose(m.heap, m.side, gone, prev, u.Req(t));
    }
  }

  lemma PipeCtxs(u: Setup, m: Memory, pr: Progress, e: nat)
    requires PipeInv(u, m, pr, e)
    ensures |m.ctxs| == e + 1
  {
    hide AfterOps, Legal, HeapOk, SideOk, CtxsOk;
  }

  lemma PipeCtx(u: Setup, m: Memory, pr: Progress, e: nat, t: nat)
    requires PipeInv(u, m, pr, e) && 1 <= t <= e
    ensures u.Ok() && t < |m.ctxs| && e <= |u.ops| && CtxOk(u, m.heap, pr, m.ctxs[t], t)
  {
    hide AfterOps, Legal, HeapOk, SideOk, CtxOk;
  }

  lemma RootOld(u: Setup, m: Memory, pr: Progress, e: nat, gone: set<Id>)
    requires PipeInv(u, m, pr, e) && e < |m.ctxs| && e <= |u.ops| && Ids(u.At(e).tree) !! gone
    ensures m.ctxs[e].root !in gone
  {
    hide AfterOps, Legal, HeapOk, SideOk, CtxsOk, Ids;
    OwnId(u.At(e).tree);
  }

  // ---- later stages and tasks -----------------------------------------------

  /** What the context of a running ticket points to. */
  lemma CursorOld(u: Setup, heap: Heap, pr: Progress, x: Context, t: nat, gone: set<Id>)
    requires u.Ok() && 1 <= t <= |u.ops| && CtxOk(u, heap, pr, x, t) && Ids(u.At(t - 1).tree) !! gone && NoneOfTicket(gone, t)
    ensures x.op == SearchDown || x.op == SearchSplit ==> x.cur !in gone && x.past !in gone
    ensures x.op == SearchSplit ==>
              && x.cur in heap && heap[x.cur].HInner? && x.idx + 1 < |heap[x.cur].chs|
              && heap[x.cur].chs[x.idx] !in gone && heap[x.cur].chs[x.idx + 1] !in gone
    ensures x.op == Materialize ==> x.cur !in gone && x.past !in gone
    ensures x.op == FatAppend ==> x.cur !in gone
  {
    hide AfterOps, Legal, Ids, Shaped, ToFill, RetiredSoFar, Route;
    if u.Appending(t) {
      RouteIn(u.At(t - 1).tree, u.ops[t-1].key);
    } else {
      var n := pr.Passed(t);
      if n < u.Stages(t) { SourceFacts(u, t, n); } else { SourceFacts(u, t, u.At(t - 1).h); }
    }
  }

  lemma RetiresSome(u: Setup, heap: Heap, pr: Progress, x: Context, t: nat)
    requires u.Ok() && 1 <= t <= |u.ops| && CtxOk(u, heap, pr, x, t) && !u.Appending(t)
    ensures x.retired != []
  {
    hide AfterOps, Legal, ToFill;
  }

  lemma Structural(u: Setup, heap: Heap, pr: Progress, x: Context, t: nat)
    requires u.Ok() && 1 <= t <= |u.ops| && CtxOk(u, heap, pr, x, t) && (x.op == SearchDown || x.op == SearchSplit)
    ensures !u.Appending(t)
  {
    hide AfterOps, Legal, ToFill, CopyCtx;
  }

  lemma DescendLose(u: Setup, m: Memory, pr: Progress, e: nat, t: nat, j: nat, gone: set<Id>, pr': Progress)
    requires PipeInv(u, m, pr, e) && 1 <= t <= e && t < |m.ctxs| && e <= |u.ops|
    requires Ids(u.At(t - 1).tree) !! gone && NoneOfTicket(gone, t) && PipeInv(u, Descend(u, m, t, j), pr', e)
    ensures Descend(u, Lose(m, gone), t, j) == Lose(Descend(u, m, t, j), gone)
  {
    hide AfterOps, Legal, Ids, HandleSearchDown, HandleSearchSplit, CtxOk, PipeInv;
    PipeCtx(u, m, pr, e, t);
    var x, m' := m.ctxs[t], Descend(u, m, t, j);
    PipeCtx(u, m', pr', e, t);
    CursorOld(u, m.heap, pr, x, t, gone);
    if x.op == SearchDown || x.op == SearchSplit {
      Structural(u, m.heap, pr, x, t);
      RetiresSome(u, m'.heap, pr', m'.ctxs[t], t);
      CopyKeeps(u, m'.heap, pr', m'.ctxs[t], t, gone);
      if x.op == SearchDown {
        DownLose(m.heap, m.side, gone, x, j, u.Req(t));
      } else {
        SplitLose(m.heap, m.side, gone, x, j, u.Req(t), m.heap[x.cur].chs[x.idx], m.heap[x.cur].chs[x.idx + 1]);
      }
    }
  }

  lemma PublishLose(side: HSide, gone: set<Id>, id: Id, i: nat, v: Val)
    requires id !in gone
    ensures PublishSlot(side - gone, id, i, v) == PublishSlot(side, id, i, v) - gone
  {
  }

  lemma TaskLose(u: Setup, m: Memory, pr: Progress, e: nat, t: nat, gone: set<Id>)
    requires PipeInv(u, m, pr, e) && 1 <= t <= e && t < |m.ctxs| && e <= |u.ops| && Ids(u.At(t - 1).tree) !! gone && NoneOfTicket(gone, t)
    ensures RunTask(u, Lose(m, gone), t) == Lose(RunTask(u, m, t), gone)
  {
    hide AfterOps, Legal, Ids, HandleMaterialize, CtxOk, PipeInv, PublishSlot;
    PipeCtx(u, m, pr, e, t);
    var x := m.ctxs[t];
    CursorOld(u, m.heap, pr, x, t, gone);
    if x.op == FatAppend {
      PublishLose(m.side, gone, x.cur, x.idx, u.Req(t).val);
    } else if x.op == Materialize {
      MaterializeLose(m.heap, m.side, gone, x, u.Req(t));
    }
  }

  // ---- runs -----------------------------------------------------------------

  lemma StageLose(u: Setup, m: Memory, pr: Progress, e: nat, committed: nat, t: nat, j: nat, gone: set<Id>, pr': Progress)
    requires PipeInv(u, m, pr, e) && gone <= Retirable(u, committed) && committed < t
    requires PipeInv(u, Stage(u, m, t, j), pr', e)
    ensures Stage(u, Lose(m, gone), t, j) == Lose(Stage(u, m, t, j), gone)
  {
    hide AfterOps, Legal, Ids, Descend, PipeInv, Retirable;
    PipeParts(u, m, pr, e);
    if 1 <= t <= |u.ops| && t < |m.ctxs| {
      GoneFacts(u, committed, gone, t);
      DescendLose(u, m, pr, e, t, j, gone, pr');
    }
  }

  lemma PipeParts(u: Setup, m: Memory, pr: Progress, e: nat)
    requires PipeInv(u, m, pr, e)
    ensures u.Ok() && |m.ctxs| == e + 1 <= |u.ops| + 1
  {
    hide AfterOps, Legal, HeapOk, SideOk, CtxsOk;
  }

  /** A step on a memory that has lost nodes replaced by committed tickets does
      what it does on the whole one. */
  lemma StepLose(u: Setup, x: Joint, n: nat, gone: set<Id>)
    requires Joined(u, x) && n < |x.actions| && gone <= Retirable(u, x.states[n].committed)
    ensures MemStep(u, x.c, x.states[n], x.actions[n], x.loads[n], Lose(MemAfter(u, x, n), gone)) == Lose(MemAfter(u, x, n + 1), gone)
  {
    hide AfterOps, Legal, Safety.Inv, PipeInv, C.StageAt, Enter, Stage, RunTask, Retirable, EntersWell, C.Execution, StartsFrom, Safety.AllReached;
    var s, s', a, load := x.states[n], x.states[n+1], x.actions[n], x.loads[n];
    var m, m' := MemAfter(u, x, n), MemAfter(u, x, n + 1);
    MemoryInvariant(u, x, n);
    MemoryInvariant(u, x, n + 1);
    Stepped(u, x, n);
    SizedInv(u, x.c, s, m);
    var e := |m.ctxs| - 1;
    PipeParts(u, m, ProgressOf(s), e);
    PipeParts(u, m', ProgressOf(s'), |m'.ctxs| - 1);
    match a {
      case OfPipe(p, Run) =>
        Safety.PipeRunsInOrder(x.c, ProgramOf(u), s, p);
        var t := s.pipes[p].ticket;
        if C.StageAt(x.c.P, p, t) == 0 {
          EntryIsNext(u, x.c, s, m, t);
          CommittedAhead(u, x.c, s, load);
          GoneFacts(u, s.committed, gone, t);
          EnteredOne(u, m, t, load);
          EnterLose(u, m, ProgressOf(s), e, load, gone, ProgressOf(s'));
        } else {
          StageCtxs(u, m, t, C.StageAt(x.c.P, p, t));
          StageLose(u, m, ProgressOf(s), e, s.committed, t, C.StageAt(x.c.P, p, t), gone, ProgressOf(s'));
        }
      case OfPipe(p, RunExit) =>
        Safety.PipeExitsInOrder(x.c, ProgramOf(u), s, p);
        StageCtxs(u, m, s.pipes[p].ticket, x.c.P);
        StageLose(u, m, ProgressOf(s), e, s.committed, s.pipes[p].ticket, x.c.P, gone, ProgressOf(s'));
      case OfWorker(w, WRun) =>
        Safety.WorkerRunsInOrder(x.c, ProgramOf(u), s, w);
        StageCtxs(u, m, s.workers[w].ticket, x.c.P + s.workers[w].local);
        StageLose(u, m, ProgressOf(s), e, s.committed, s.workers[w].ticket, x.c.P + s.workers[w].local, gone, ProgressOf(s'));
      case OfWorker(w, RunTask) =>
        Safety.JobHeld(x.c, ProgramOf(u), s, w);
        var t := s.workers[w].ticket;
        if 1 <= t <= |u.ops| && t < |m.ctxs| {
          GoneFacts(u, s.committed, gone, t);
          TaskLose(u, m, ProgressOf(s), e, t, gone);
        }
      case _ =>
    }
  }

  lemma Stepped(u: Setup, x: Joint, n: nat)
    requires Joined(u, x) && n < |x.actions|
    ensures C.Wellsized(x.c, x.states[n]) && C.Enabled(x.c, ProgramOf(u), x.states[n], x.actions[n])
    ensures MemAfter(u, x, n + 1) == MemStep(u, x.c, x.states[n], x.actions[n], x.loads[n], MemAfter(u, x, n))
    ensures |x.states[n].tickets| <= |u.ops| + 1 && x.loads[n] <= x.states[n].committed
  {
    hide AfterOps, C.Enabled, MemStep, StartsFrom, EntersWell;
  }

  lemma EnteredOne(u: Setup, m: Memory, t: nat, committed: nat)
    requires 1 <= t <= |u.ops| && t == |m.ctxs|
    ensures |Enter(u, m, t, committed).ctxs| == t + 1
  {
    hide Sought, HandleInitCow;
  }

  lemma StageCtxs(u: Setup, m: Memory, t: nat, j: nat)
    ensures |Stage(u, m, t, j).ctxs| == |m.ctxs|
  {
    hide HandleSearchDown, HandleSearchSplit;
  }

  /** The memory after n steps when nodes are freed on the way: `freed[i]` is all
      that is gone by then. */
  function LosingAfter(u: Setup, x: Joint, freed: seq<set<Id>>, n: nat): Memory
    requires n <= |x.actions| == |x.loads| && |x.states| == |freed| == |x.actions| + 1
    requires forall i :: 0 <= i < |x.states| ==> C.Wellsized(x.c, x.states[i])
  {
    if n == 0 then Lose(x.first, freed[0])
    else Lose(MemStep(u, x.c, x.states[n-1], x.actions[n-1], x.loads[n-1], LosingAfter(u, x, freed, n - 1)), freed[n])
  }

  /** What is freed was replaced by a committed ticket, and stays freed. */
  ghost predicate FreesRetired(u: Setup, x: Joint, freed: seq<set<Id>>) {
    && |x.states| == |freed|
    && (forall i :: 0 <= i < |freed| ==> freed[i] <= Retirable(u, x.states[i].committed))
    && (forall i :: 0 < i < |freed| ==> freed[i-1] <= freed[i])
  }

  lemma LoseTwice(m: Memory, a: set<Id>, b: set<Id>)
    requires a <= b
    ensures Lose(Lose(m, a), b) == Lose(m, b)
  {
  }

  /** No use after free: with nodes freed along the run, every step takes the
      memory where it goes without, but for the nodes that are gone. */
  lemma {:induction false} FreeingIsInvisible(u: Setup, x: Joint, freed: seq<set<Id>>, n: nat)
    requires Joined(u, x) && FreesRetired(u, x, freed) && n <= |x.actions|
    ensures LosingAfter(u, x, freed, n) == Lose(MemAfter(u, x, n), freed[n])
  {
    hide AfterOps, C.Execution, MemStep, StartsFrom, EntersWell, Retirable, Lose;
    if n > 0 {
      FreeingIsInvisible(u, x, freed, n - 1);
      StepLose(u, x, n - 1, freed[n-1]);
      LoseTwice(MemAfter(u, x, n), freed[n-1], freed[n]);
    }
  }

  // ---- readers --------------------------------------------------------------

  lemma {:induction false} FindLose(heap: Heap, side: HSide, gone: set<Id>, t: Tree, lo: nat, hi: nat, h: nat, wf: Side, v: nat, key: Key, fuel: nat)
    requires AllNodes(t, HoldsQ(heap)) && Wf(t, wf, lo, hi, h) && Ids(t) !! gone
    ensures Snap.Find(heap - gone, side - gone, t.id, v, key, fuel) == Snap.Find(heap, side, t.id, v, key, fuel)
    decreases fuel
  {
    AllHere(t, HoldsQ(heap));
    assert NodeHolds(heap, t, true) by { assert HoldsQ(heap)(t); }
    OwnId(t);
    SlotsLose(side, gone, t.id);
    if t.Node? && fuel > 0 {
      var i := FindCh(t.kids.keys, key);
      if i < |t.kids.chs| {
        var kid := t.kids.chs[i];
        assert heap[t.id].chs[i] == kid.id;
        KidIdsIn(t, i);
        FindLose(heap, side, gone, kid, LoAt(t.kids.keys, lo, i), HiAt(t.kids.keys, hi, i), h - 1, wf, v, key, fuel - 1);
      }
    }
  }

  lemma FreedKept(u: Setup, v: nat, freed: set<Id>, readers: nat, collectors: nat, states: seq<Reclaimer.State>, actions: seq<Reclaimer.Action>, i: nat, r: nat)
    requires u.Ok() && Reclaimer.Run(ForestOf(u.w, u.ops, u.capacity), readers, collectors, states, actions)
    requires i < |states| && r < |states[i].readers| && states[i].readers[r].pc.Pinned? && states[i].readers[r].pc.version == v
    requires freed <= FreedNodes(states[i])
    ensures Ids(u.At(v).tree) !! freed
  {
    hide AfterOps, Legal, Ids, Reclaimer.Run;
    forall x | x in freed ensures x !in Ids(u.At(v).tree) {
      var k :| 0 <= k < |states[i].freed| && x in states[i].freed[k].nodes;
      Snap.PinnedTreeIsNotFreed(u, readers, collectors, states, actions, i, r, k);
    }
  }

  /** All a reclaimer has freed. */
  function FreedNodes(s: Reclaimer.State): set<Id> {
    set k, x | 0 <= k < |s.freed| && x in s.freed[k].nodes :: x
  }

  lemma FreedWereRetired(u: Setup, readers: nat, collectors: nat, states: seq<Reclaimer.State>, actions: seq<Reclaimer.Action>, i: nat, n: nat)
    requires u.Ok() && Reclaimer.Run(ForestOf(u.w, u.ops, u.capacity), readers, collectors, states, actions) && i < |states|
    requires states[i].committed <= n
    ensures FreedNodes(states[i]) <= Retirable(u, n)
  {
    hide AfterOps, Legal, Ids, Retired, Reclaimer.Run;
    var w := ForestOf(u.w, u.ops, u.capacity);
    Reclaimer.Invariant(w, readers, collectors, states, actions, i);
    forall x | x in FreedNodes(states[i]) ensures x in Retirable(u, n) {
      var k :| 0 <= k < |states[i].freed| && x in states[i].freed[k].nodes;
      var b := states[i].freed[k];
      FreedBatch(w, states[i], k);
      assert x in Retired(u.w, u.ops, u.capacity, b.version);
      NotRetiredAtZero(u, x);
      assert 1 <= b.version <= n;
    }
  }

  lemma NotRetiredAtZero(u: Setup, x: Id)
    ensures x !in Retired(u.w, u.ops, u.capacity, 0)
  {
  }

  lemma FreedBatch(w: Reclaimer.Forest, s: Reclaimer.State, k: nat)
    requires Reclaimer.Inv(w, s) && k < |s.freed|
    ensures s.freed[k].nodes == w.ret(s.freed[k].version) && s.freed[k].version <= s.committed
  {
    assert Reclaimer.Pending(s)[k] == s.freed[k];
  }

  // ---- the pipeline and the reclaimer together ------------------------------

  /** A run of the pipeline and a run of the reclaimer over its trees; `when[n]` is
      where the reclaimer stands at the pipeline's state n. It knows only of
      versions the monitor has published, and commits none the monitor has not. */
  ghost predicate Together(u: Setup, x: Joint, readers: nat, collectors: nat, states: seq<Reclaimer.State>, actions: seq<Reclaimer.Action>, when: seq<nat>) {
    && Joined(u, x) && Reclaimer.Run(ForestOf(u.w, u.ops, u.capacity), readers, collectors, states, actions)
    && |when| == |x.states| && (forall n :: 0 <= n < |when| ==> when[n] < |states|)
    && (forall n :: 0 < n < |when| ==> when[n-1] <= when[n])
    && (forall n :: 0 <= n < |when| ==> states[when[n]].committed <= x.states[n].committed && states[when[n]].pubVersion <= C.Published(x.states[n]))
  }

  /** All that is freed by each state of the pipeline. */
  function FreedBy(states: seq<Reclaimer.State>, when: seq<nat>): seq<set<Id>>
    requires forall n :: 0 <= n < |when| ==> when[n] < |states|
  {
    seq(|when|, n requires 0 <= n < |when| => FreedNodes(states[when[n]]))
  }

  lemma {:induction false} FreedGrow(w: Reclaimer.Forest, readers: nat, collectors: nat, states: seq<Reclaimer.State>, actions: seq<Reclaimer.Action>, i: nat, j: nat)
    requires Reclaimer.Run(w, readers, collectors, states, actions) && i <= j < |states|
    ensures FreedNodes(states[i]) <= FreedNodes(states[j])
    decreases j
  {
    hide FreedNodes, Reclaimer.Apply, Reclaimer.Enabled;
    if i < j {
      FreedGrow(w, readers, collectors, states, actions, i, j - 1);
      FreedStep(w, states[j-1], actions[j-1]);
    }
  }

  lemma FreedStep(w: Reclaimer.Forest, s: Reclaimer.State, a: Reclaimer.Action)
    requires Reclaimer.Enabled(s, a)
    ensures FreedNodes(s) <= FreedNodes(Reclaimer.Apply(w, s, a))
  {
    var t := Reclaimer.Apply(w, s, a);
    assert s.freed <= t.freed;
    forall k: nat | k < |s.freed| ensures t.freed[k] == s.freed[k] {
    }
  }

  lemma TogetherFrees(u: Setup, x: Joint, readers: nat, collectors: nat, states: seq<Reclaimer.State>, actions: seq<Reclaimer.Action>, when: seq<nat>)
    requires Together(u, x, readers, collectors, states, actions, when)
    ensures FreesRetired(u, x, FreedBy(states, when))
  {
    hide C.Execution, StartsFrom, EntersWell, MemAfter, AfterOps, Legal, FreedNodes, Retirable, Reclaimer.Run, C.Published;
    var f := FreedBy(states, when);
    forall i | 0 <= i < |f| ensures f[i] <= Retirable(u, x.states[i].committed) {
      FreedWereRetired(u, readers, collectors, states, actions, when[i], x.states[i].committed);
    }
    forall i | 0 < i < |f| ensures f[i-1] <= f[i] {
      FreedGrow(ForestOf(u.w, u.ops, u.capacity), readers, collectors, states, actions, when[i-1], when[i]);
    }
  }

  /** Reclamation and the pipeline end to end: while the reclaimer frees nodes under
      the run, the pipeline goes on as if it did not, and a reader with a validated
      pin of version v finds under every key, on the memory that is left, what
      tickets 1..v leave there. */
  lemma PinnedReadsSurvive(u: Setup, x: Joint, readers: nat, collectors: nat, states: seq<Reclaimer.State>, actions: seq<Reclaimer.Action>, when: seq<nat>,
                           n: nat, r: nat, key: Key)
    requires Together(u, x, readers, collectors, states, actions, when) && n <= |x.actions| && key < u.limit
    requires r < |states[when[n]].readers| && states[when[n]].readers[r].pc.Pinned?
    ensures var v, m := states[when[n]].readers[r].pc.version, LosingAfter(u, x, FreedBy(states, when), n);
            && states[when[n]].readers[r].pc.root == v <= |u.ops| && v < |m.ctxs|
            && m == Lose(MemAfter(u, x, n), FreedNodes(states[when[n]]))
            && Snap.Find(m.heap, m.side, m.ctxs[v].root, v, key, u.At(v).h) == Model(u.w, u.ops, v, key)
  {
    hide C.Execution, StartsFrom, EntersWell, MemAfter, AfterOps, Legal, FreedNodes, Retirable, Reclaimer.Run, C.Published, FreesRetired, LosingAfter, Snap.Find, Ids, Wf, AllNodes, Model, Distinct;
    TogetherFrees(u, x, readers, collectors, states, actions, when);
    FreeingIsInvisible(u, x, FreedBy(states, when), n);
    var s, m := states[when[n]], MemAfter(u, x, n);
    var v := s.readers[r].pc.version;
    PinnedVersion(ForestOf(u.w, u.ops, u.capacity), readers, collectors, states, actions, when[n], r);
    PublishedCount(u, x, n);
    FreedKept(u, v, FreedNodes(s), readers, collectors, states, actions, when[n], r);
    Snap.SnapshotLinearizable(u, x, n, v, key);
    Snap.CommittedTreesAreSequential(u, x, n, v);
    TreesGood(u, v);
    FindLose(m.heap, m.side, FreedNodes(s), u.At(v).tree, 0, u.limit, u.At(v).h, u.At(v).side, v, key, u.At(v).h);
  }

  lemma PinnedVersion(w: Reclaimer.Forest, readers: nat, collectors: nat, states: seq<Reclaimer.State>, actions: seq<Reclaimer.Action>, i: nat, r: nat)
    requires Reclaimer.Run(w, readers, collectors, states, actions) && i < |states| && r < |states[i].readers| && states[i].readers[r].pc.Pinned?
    ensures states[i].readers[r].pc.root == states[i].readers[r].pc.version <= states[i].pubVersion
  {
    hide Reclaimer.Run;
    Reclaimer.Invariant(w, readers, collectors, states, actions, i);
    PinnedBelow(w, states[i], r);
  }

  lemma PinnedBelow(w: Reclaimer.Forest, s: Reclaimer.State, r: nat)
    requires Reclaimer.Inv(w, s) && r < |s.readers| && s.readers[r].pc.Pinned?
    ensures s.readers[r].pc.root == s.readers[r].pc.version <= s.pubVersion
  {
    assert Reclaimer.ReaderInv(s, r);
  }

  lemma PublishedCount(u: Setup, x: Joint, n: nat)
    requires Joined(u, x) && n <= |x.actions|
    ensures C.Published(x.states[n]) <= |u.ops|
  {
    hide C.Execution, StartsFrom, EntersWell, MemAfter, AfterOps, Legal, Safety.Inv, PipeInv, C.Published;
    MemoryInvariant(u, x, n);
    Snap.PublishedFinished(x.c, ProgramOf(u), x.states[n]);
  }
}
