/** The controller and the heap together: every run of the cyclic controller,
    with every handler acting on the shared memory, is the sequential history. */
module PipelineRun {
  import opened Nodes
  import opened BTree
  import opened BTreeHistory
  import opened StagedCow
  import opened StagedCowOk
  import opened Pipeline
  import opened PipelineState
  import opened PipelineSteps
  import opened PipelineEntry
  import opened PipelineTasks
  import opened BTreeLevels
  import C = Cyclic
  import Safety = CyclicSafety
  import Work = CyclicWork
  import Ring = CyclicRing

  // ---- the program of a run -------------------------------------------------

  function DepOf(u: Setup, t: nat, j: nat): nat {
    if 1 <= t <= |u.ops| && !u.Appending(t) && j <= u.At(t - 1).h then u.Source(t, j).ver else 0
  }

  function NeedsOf(u: Setup, t: nat): set<nat> {
    if 1 <= t <= |u.ops| then Needs(u, t) else {}
  }

  /** What the tickets do, as far as the controller is concerned. */
  function ProgramOf(u: Setup): C.Program {
    C.Program((t: nat) => u.Stages(t), (t: nat) => u.worker && 1 <= t <= |u.ops|,
              (t: nat, j: nat) => DepOf(u, t, j), (t: nat) => NeedsOf(u, t))
  }

  lemma DepEarlier(u: Setup, t: nat, j: nat)
    requires u.Ok() && t > 0
    ensures DepOf(u, t, j) < t
  {
    hide AfterOps, Legal, PathNode;
    if 1 <= t <= |u.ops| && !u.Appending(t) && j <= u.At(t - 1).h {
      SourceFacts(u, t, j);
    }
  }

  lemma ProgramOk(u: Setup)
    requires u.Ok()
    ensures ProgramOf(u).Ok()
  {
    hide AfterOps, Legal, Needs, DepOf;
    forall t: nat, j: nat | t > 0 ensures ProgramOf(u).dep(t, j) < t {
      DepEarlier(u, t, j);
    }
    forall t: nat, d: nat | d in ProgramOf(u).needs(t) ensures 0 < d < t {
      NeedsEarlier(u, t);
    }
  }

  // ---- the memory along a run -----------------------------------------------

  function ProgressOf(s: C.State): Progress {
    Progress(map t: nat | 0 < t < |s.tickets| && s.tickets[t].passed > 0 :: s.tickets[t].passed,
             set t: nat | 0 < t < |s.tickets| && s.tickets[t].taskDone)
  }

  /** The handler a step calls; `load` is the commit number an entry has read. */
  function MemStep(u: Setup, c: C.Size, s: C.State, a: C.Action, load: nat, m: Memory): Memory
    requires C.Wellsized(c, s)
  {
    match a
    case OfPipe(p, Run) =>
      if p > c.P then m else
      var t := s.pipes[p].ticket;
      var j := C.StageAt(c.P, p, t);
      if j == 0 then (if 1 <= t <= |u.ops| && t <= |m.ctxs| then Enter(u, m, t, load) else m)
      else Stage(u, m, t, j)
    case OfPipe(p, RunExit) => if p > c.P then m else Stage(u, m, s.pipes[p].ticket, c.P)
    case OfWorker(w, WRun) => if w >= c.workers then m else Stage(u, m, s.workers[w].ticket, c.P + s.workers[w].local)
    case OfWorker(w, RunTask) =>
      if w >= c.workers then m else
      var t := s.workers[w].ticket;
      if 1 <= t <= |u.ops| && t < |m.ctxs| then RunTask(u, m, t) else m
    case _ => m
  }

  function Stage(u: Setup, m: Memory, t: nat, j: nat): Memory {
    if 1 <= t <= |u.ops| && t < |m.ctxs| then Descend(u, m, t, j) else m
  }

  /** A run of the controller over a memory. */
  datatype Joint = Joint(c: C.Size, states: seq<C.State>, actions: seq<C.Action>, loads: seq<nat>, first: Memory)

  function MemAfter(u: Setup, x: Joint, n: nat): Memory
    requires n <= |x.actions| == |x.loads| && |x.states| == |x.actions| + 1
    requires forall i :: 0 <= i < |x.states| ==> C.Wellsized(x.c, x.states[i])
  {
    if n == 0 then x.first
    else MemStep(u, x.c, x.states[n-1], x.actions[n-1], x.loads[n-1], MemAfter(u, x, n - 1))
  }

  /** The first tree lies in the heap, and nothing else has happened. */
  ghost predicate StartsFrom(u: Setup, m: Memory) {
    && AllNodes(u.w.tree, HoldsQ(m.heap)) && (forall id :: id in m.heap ==> id.Built?)
    && m.side == map[] && |m.ctxs| == 1 && m.ctxs[0].root == u.w.tree.id
  }

  ghost function HoldsQ(heap: Heap): Tree -> bool {
    (x: Tree) => NodeHolds(heap, x, true)
  }

  /** An entry step, and the ticket it is for. */
  predicate EntersAt(c: C.Size, s: C.State, a: C.Action, t: nat)
    requires C.Wellsized(c, s)
  {
    a.OfPipe? && a.a.Run? && a.p <= c.P && s.pipes[a.p].ticket == t && C.StageAt(c.P, a.p, t) == 0
  }

  /** The run is one of this program: commit numbers are read before they are
      used, no more tickets than the history names are submitted, and the
      history records what each probe found. */
  ghost predicate Joined(u: Setup, x: Joint) {
    && u.Ok() && C.Execution(x.c, ProgramOf(u), x.states, x.actions) && StartsFrom(u, x.first)
    && |x.states| == |x.actions| + 1 && |x.loads| == |x.actions|
    && (forall i :: 0 <= i < |x.states| ==> C.Wellsized(x.c, x.states[i]) && |x.states[i].tickets| <= |u.ops| + 1)
    && (forall i :: 0 <= i < |x.loads| ==> x.loads[i] <= x.states[i].committed)
    && (forall i: nat, t: nat :: i < |x.actions| && 1 <= t <= |u.ops| && EntersAt(x.c, x.states[i], x.actions[i], t) ==>
          EntersWell(u, MemAfter(u, x, i), t, x.loads[i]))
  }

  predicate EntersWell(u: Setup, m: Memory, t: nat, load: nat)
    requires 1 <= t <= |u.ops|
  {
    t <= |m.ctxs| ==> Coherent(u, m, t, load)
  }

  // ---- progress -------------------------------------------------------------

  lemma ReachedAhead(u: Setup, c: C.Size, s: C.State, v: nat, n: nat)
    requires Safety.Inv(c, ProgramOf(u), s) && Work.Reached(s.tickets, v, n)
    ensures Ahead(u, ProgressOf(s), v, n)
  {
    hide C.StageAt, C.PipeFor, AfterOps, Ring.RingInv, Work.CarryInv, Work.PoolInv, Work.ExitsOk, Safety.MonitorOk;
    if v > 0 {
      assert Work.TicketOk(c.P, ProgramOf(u), s.tickets[v], v, s.committed);
    }
  }

  lemma CommittedAhead(u: Setup, c: C.Size, s: C.State, load: nat)
    requires Safety.Inv(c, ProgramOf(u), s) && load <= s.committed
    ensures CommittedBy(u, ProgressOf(s), load)
  {
    hide C.StageAt, C.PipeFor, AfterOps, Work.CarryInv, Work.PoolInv, Work.ExitsOk, Safety.MonitorOk;
    forall v: nat | 0 < v <= load ensures ProgressOf(s).Passed(v) >= u.Stages(v) {
      assert Work.TicketOk(c.P, ProgramOf(u), s.tickets[v], v, s.committed);
      assert Work.Finished(s.tickets[v]);
    }
  }

  lemma ProgressStage(s: C.State, s': C.State, t: nat, j: nat)
    requires 0 < t < |s.tickets| && t < |s'.tickets| && s.tickets[t].passed == j
    requires s'.tickets == s.tickets[t := s.tickets[t].(passed := j + 1, cno := s'.tickets[t].cno)]
    ensures ProgressOf(s') == AfterStage(ProgressOf(s), t, j + 1)
    ensures ProgressOf(s).Passed(t) == j
  {
  }

  lemma ProgressTask(s: C.State, s': C.State, t: nat, j: nat)
    requires 0 < t < |s.tickets| && s.tickets[t].passed == j && s'.tickets == s.tickets[t := s.tickets[t].(passed := j + 1, taskDone := true)]
    ensures ProgressOf(s') == AfterStage(AfterTask(ProgressOf(s), t), t, j + 1)
    ensures ProgressOf(s).Passed(t) == j && ProgressOf(s).Done(t) == s.tickets[t].taskDone
  {
  }

  lemma ProgressSame(s: C.State, s': C.State)
    requires |s.tickets| <= |s'.tickets|
    requires forall t :: 0 <= t < |s.tickets| ==> s'.tickets[t].passed == s.tickets[t].passed && s'.tickets[t].taskDone == s.tickets[t].taskDone
    requires forall t :: |s.tickets| <= t < |s'.tickets| ==> s'.tickets[t].passed == 0 && !s'.tickets[t].taskDone
    ensures ProgressOf(s') == ProgressOf(s)
  {
  }

  // ---- one step -------------------------------------------------------------

  /** The joint invariant. */
  ghost predicate JointInv(u: Setup, c: C.Size, s: C.State, m: Memory) {
    Safety.Inv(c, ProgramOf(u), s) && |m.ctxs| > 0 && PipeInv(u, m, ProgressOf(s), |m.ctxs| - 1)
  }

  lemma EntryIsNext(u: Setup, c: C.Size, s: C.State, m: Memory, t: nat)
    requires JointInv(u, c, s, m) && 1 <= t <= |u.ops| && t < |s.tickets| && s.tickets[t].passed == 0
    requires Safety.AllReached(s.tickets, t, 2)
    ensures t == |m.ctxs| && MayRun(u, ProgressOf(s), t, 0)
  {
    hide AfterOps, Legal, HeapOk, SideOk, CtxsOk, RootsOk, Safety.Inv, PipeInv;
    SetupOk(u, m, ProgressOf(s), |m.ctxs| - 1);
    forall v: nat | 0 < v < t ensures Ahead(u, ProgressOf(s), v, 2) {
      assert Work.Reached(s.tickets, v, 2);
      ReachedAhead(u, c, s, v, 2);
    }
    assert ProgressOf(s).Passed(t) == 0;
    if t > 1 {
      assert Ahead(u, ProgressOf(s), t - 1, 2);
    }
  }

  lemma StageIsReady(u: Setup, c: C.Size, s: C.State, m: Memory, t: nat, j: nat)
    requires JointInv(u, c, s, m) && 1 <= t <= |u.ops| && t < |s.tickets| && s.tickets[t].passed == j > 0
    requires if j < c.P then Safety.AllReached(s.tickets, t, j + 2)
             else j < u.Stages(t) && Work.Reached(s.tickets, DepOf(u, t, j), j + 2)
    ensures t < |m.ctxs| && ProgressOf(s).Passed(t) == j
    ensures j < u.Stages(t) ==> MayRun(u, ProgressOf(s), t, j)
  {
    hide AfterOps, Legal, HeapOk, SideOk, CtxsOk, Safety.Inv, PathNode, PipeInv;
    var pr := ProgressOf(s);
    SetupOk(u, m, pr, |m.ctxs| - 1);
    assert pr.Passed(t) == j;
    if j < c.P {
      var n := j + 2;
      forall v: nat | 0 < v < t ensures Ahead(u, pr, v, n) {
        assert Work.Reached(s.tickets, v, n);
        ReachedAhead(u, c, s, v, n);
      }
    } else {
      ReachedAhead(u, c, s, DepOf(u, t, j), j + 2);
    }
  }

  lemma StageStep(u: Setup, c: C.Size, s: C.State, m: Memory, t: nat, j: nat, s': C.State)
    requires JointInv(u, c, s, m) && 1 <= t <= |u.ops| && t < |s.tickets| && s.tickets[t].passed == j > 0
    requires if j < c.P then Safety.AllReached(s.tickets, t, j + 2)
             else j < u.Stages(t) && Work.Reached(s.tickets, DepOf(u, t, j), j + 2)
    requires s'.tickets == s.tickets[t := s.tickets[t].(passed := j + 1)]
    ensures var m' := Stage(u, m, t, j);
            |m'.ctxs| == |m.ctxs| && PipeInv(u, m', ProgressOf(s'), |m.ctxs| - 1)
  {
    hide AfterOps, Legal, PipeInv, Safety.Inv, MayRun, Descend;
    var pr, e := ProgressOf(s), |m.ctxs| - 1;
    SetupOk(u, m, pr, e);
    StageIsReady(u, c, s, m, t, j);
    ProgressStage(s, s', t, j);
    if j < u.Stages(t) {
      DescendInv(u, m, pr, e, t, j);
      CtxCount(u, Descend(u, m, t, j), AfterStage(pr, t, j + 1), e);
    } else {
      IdleDescend(u, m, pr, e, t, j);
      IdleInv(u, m, pr, e, t, j + 1);
    }
  }

  lemma CtxCount(u: Setup, m: Memory, pr: Progress, e: nat)
    requires PipeInv(u, m, pr, e)
    ensures |m.ctxs| == e + 1 <= |u.ops| + 1
  {
  }

  lemma EntryStep(u: Setup, c: C.Size, s: C.State, m: Memory, t: nat, load: nat, s': C.State)
    requires JointInv(u, c, s, m) && 1 <= t <= |u.ops| && t < |s.tickets| && s.tickets[t].passed == 0
    requires Safety.AllReached(s.tickets, t, 2) && load <= s.committed && EntersWell(u, m, t, load)
    requires s'.tickets == s.tickets[t := s.tickets[t].(passed := 1)]
    ensures t == |m.ctxs| && PipeInv(u, Enter(u, m, t, load), ProgressOf(s'), t)
  {
    hide AfterOps, Legal, PipeInv, Safety.Inv, MayRun, Enter;
    EntryIsNext(u, c, s, m, t);
    ProgressStage(s, s', t, 0);
    CommittedAhead(u, c, s, load);
    CtxCount(u, m, ProgressOf(s), |m.ctxs| - 1);
    EnterInv(u, m, ProgressOf(s), t - 1, load);
  }

  lemma TaskStep(u: Setup, c: C.Size, s: C.State, m: Memory, t: nat, s': C.State)
    requires JointInv(u, c, s, m) && 1 <= t <= |u.ops| && t < |s.tickets| && C.Tasked(ProgramOf(u), s.tickets[t], t)
    requires C.NeedsDone(ProgramOf(u), s.tickets, t)
    requires s'.tickets == s.tickets[t := s.tickets[t].(passed := s.tickets[t].passed + 1, taskDone := true)]
    ensures t < |m.ctxs|
    ensures var m' := RunTask(u, m, t);
            |m'.ctxs| == |m.ctxs| && PipeInv(u, m', ProgressOf(s'), |m.ctxs| - 1)
  {
    hide AfterOps, Legal, PipeInv, Safety.Inv, RunTask, Needs;
    var pr, e, j := ProgressOf(s), |m.ctxs| - 1, s.tickets[t].passed;
    SetupOk(u, m, pr, e);
    ProgressTask(s, s', t, j);
    NeedsEarlier(u, t);
    assert NeedsMet(u, pr, t) by {
      forall d | d in Needs(u, t) ensures pr.Done(d) {
        assert d in ProgramOf(u).needs(t);
        assert C.Done(ProgramOf(u), s.tickets[d], d);
      }
    }
    assert t <= e;
    CtxCount(u, m, pr, e);
    TaskInv(u, m, pr, e, t);
    CtxCount(u, RunTask(u, m, t), AfterTask(pr, t), e);
    IdleInv(u, RunTask(u, m, t), AfterTask(pr, t), e, t, j + 1);
  }

  lemma RunJoint(u: Setup, c: C.Size, s: C.State, p: nat, load: nat, m: Memory, s': C.State)
    requires JointInv(u, c, s, m) && C.Wellsized(c, s) && C.PipeEnabled(c, s, p, C.Run) && |s.tickets| <= |u.ops| + 1
    requires load <= s.committed && s' == C.ApplyPipe(c, ProgramOf(u), s, p, C.Run)
    requires var t := s.pipes[p].ticket;
             1 <= t <= |u.ops| && C.StageAt(c.P, p, t) == 0 ==> EntersWell(u, m, t, load)
    ensures var m' := MemStep(u, c, s, C.OfPipe(p, C.Run), load, m);
            |m'.ctxs| > 0 && PipeInv(u, m', ProgressOf(s'), |m'.ctxs| - 1)
  {
    hide C.StageAt, AfterOps, PipeInv, Safety.Inv, Enter, Stage, Safety.AllReached;
    Safety.PipeRunsInOrder(c, ProgramOf(u), s, p);
    SizedInv(u, c, s, m);
    var t := s.pipes[p].ticket;
    var j := C.StageAt(c.P, p, t);
    if j == 0 {
      EntryStep(u, c, s, m, t, load, s');
      CtxCount(u, Enter(u, m, t, load), ProgressOf(s'), t);
    } else {
      StageStep(u, c, s, m, t, j, s');
    }
  }

  lemma SizedInv(u: Setup, c: C.Size, s: C.State, m: Memory)
    requires JointInv(u, c, s, m)
    ensures s.committed <= s.inited < |s.tickets|
  {
    hide AfterOps, PipeInv, Work.WorkInv, Safety.MonitorOk, C.StageAt, C.PipeFor;
  }

  lemma ExitJoint(u: Setup, c: C.Size, s: C.State, p: nat, load: nat, m: Memory, s': C.State)
    requires JointInv(u, c, s, m) && C.Wellsized(c, s) && C.PipeEnabled(c, s, p, C.RunExit) && |s.tickets| <= |u.ops| + 1
    requires s' == C.ApplyPipe(c, ProgramOf(u), s, p, C.RunExit)
    ensures var m' := MemStep(u, c, s, C.OfPipe(p, C.RunExit), load, m);
            |m'.ctxs| > 0 && PipeInv(u, m', ProgressOf(s'), |m'.ctxs| - 1)
  {
    hide C.StageAt, AfterOps, PipeInv, Safety.Inv, Stage, DepOf;
    Safety.PipeExitsInOrder(c, ProgramOf(u), s, p);
    SizedInv(u, c, s, m);
    StageStep(u, c, s, m, s.pipes[p].ticket, c.P, s');
  }

  lemma WorkerJoint(u: Setup, c: C.Size, s: C.State, w: nat, load: nat, m: Memory, s': C.State)
    requires JointInv(u, c, s, m) && C.Wellsized(c, s) && C.WorkerEnabled(c, ProgramOf(u), s, w, C.WRun) && |s.tickets| <= |u.ops| + 1
    requires s' == C.ApplyWorker(c, ProgramOf(u), s, w, C.WRun)
    ensures var m' := MemStep(u, c, s, C.OfWorker(w, C.WRun), load, m);
            |m'.ctxs| > 0 && PipeInv(u, m', ProgressOf(s'), |m'.ctxs| - 1)
  {
    hide C.StageAt, AfterOps, PipeInv, Safety.Inv, Stage, DepOf;
    Safety.WorkerRunsInOrder(c, ProgramOf(u), s, w);
    SizedInv(u, c, s, m);
    StageStep(u, c, s, m, s.workers[w].ticket, c.P + s.workers[w].local, s');
  }

  lemma TaskJoint(u: Setup, c: C.Size, s: C.State, w: nat, load: nat, m: Memory, s': C.State)
    requires JointInv(u, c, s, m) && C.Wellsized(c, s) && C.WorkerEnabled(c, ProgramOf(u), s, w, C.RunTask) && |s.tickets| <= |u.ops| + 1
    requires s' == C.ApplyWorker(c, ProgramOf(u), s, w, C.RunTask)
    ensures var m' := MemStep(u, c, s, C.OfWorker(w, C.RunTask), load, m);
            |m'.ctxs| > 0 && PipeInv(u, m', ProgressOf(s'), |m'.ctxs| - 1)
  {
    hide C.StageAt, AfterOps, PipeInv, RunTask, C.PipeFor, Ring.RingInv, Work.TicketsOk, Work.PoolInv, Work.ExitsOk, Safety.MonitorOk;
    Safety.JobHeld(c, ProgramOf(u), s, w);
    SizedInv(u, c, s, m);
    TaskStep(u, c, s, m, s.workers[w].ticket, s');
  }

  /** Passing the exit without a handler. */
  lemma SkipJoint(u: Setup, c: C.Size, s: C.State, p: nat, m: Memory, s': C.State)
    requires JointInv(u, c, s, m) && C.Wellsized(c, s) && C.PipeEnabled(c, s, p, C.BeginExit) && |s.tickets| <= |u.ops| + 1
    requires s' == C.ApplyPipe(c, ProgramOf(u), s, p, C.BeginExit)
    ensures PipeInv(u, m, ProgressOf(s'), |m.ctxs| - 1)
  {
    hide C.StageAt, AfterOps, PipeInv, Safety.Inv;
    Safety.PipeHeld(c, ProgramOf(u), s, p);
    SizedInv(u, c, s, m);
    var t := s.pipes[p].ticket;
    var k := s.tickets[t];
    SetupOk(u, m, ProgressOf(s), |m.ctxs| - 1);
    CtxCount(u, m, ProgressOf(s), |m.ctxs| - 1);
    if C.Structural(ProgramOf(u), k, t) {
      ProgressSame(s, s');
    } else {
      ProgressStage(s, s', t, c.P);
      assert ProgressOf(s).Passed(t) >= 1;
      IdleInv(u, m, ProgressOf(s), |m.ctxs| - 1, t, c.P + 1);
    }
  }

  /** A step that calls no handler leaves the counts alone. */
  predicate Quiet(a: C.Action) {
    match a
    case OfPipe(_, b) => !b.Run? && !b.RunExit? && !b.BeginExit?
    case OfWorker(_, b) => !b.WRun? && !b.RunTask?
    case _ => true
  }

  lemma QuietStep(u: Setup, c: C.Size, s: C.State, a: C.Action, load: nat, m: Memory)
    requires C.Wellsized(c, s) && C.Enabled(c, ProgramOf(u), s, a) && Quiet(a)
    ensures ProgressOf(C.Apply(c, ProgramOf(u), s, a)) == ProgressOf(s) && MemStep(u, c, s, a, load, m) == m
  {
    hide C.StageAt, C.Wellsized, C.Enabled, C.Apply, AfterOps, Needs, DepOf, ProgramOf, ProgressOf;
    QuietProgress(u, c, s, a);
    QuietMemory(u, c, s, a, load, m);
  }

  lemma QuietProgress(u: Setup, c: C.Size, s: C.State, a: C.Action)
    requires C.Wellsized(c, s) && C.Enabled(c, ProgramOf(u), s, a) && Quiet(a)
    ensures ProgressOf(C.Apply(c, ProgramOf(u), s, a)) == ProgressOf(s)
  {
    hide C.StageAt, AfterOps, Needs, DepOf;
    ProgressSame(s, C.Apply(c, ProgramOf(u), s, a));
  }

  lemma QuietMemory(u: Setup, c: C.Size, s: C.State, a: C.Action, load: nat, m: Memory)
    requires C.Wellsized(c, s) && Quiet(a)
    ensures MemStep(u, c, s, a, load, m) == m
  {
    hide C.StageAt, AfterOps;
  }

  lemma JointStep(u: Setup, c: C.Size, s: C.State, a: C.Action, load: nat, m: Memory)
    requires JointInv(u, c, s, m) && C.Wellsized(c, s) && C.Enabled(c, ProgramOf(u), s, a)
    requires |s.tickets| <= |u.ops| + 1 && load <= s.committed
    requires forall t: nat :: 1 <= t <= |u.ops| && EntersAt(c, s, a, t) ==> EntersWell(u, m, t, load)
    ensures JointInv(u, c, C.Apply(c, ProgramOf(u), s, a), MemStep(u, c, s, a, load, m))
  {
    hide Safety.Inv, PipeInv, C.StageAt, C.ApplyPipe, C.ApplyWorker, C.ApplyClient, C.ApplyMonitor, EntersWell, MemStep, AfterOps;
    Safety.StepInv(c, ProgramOf(u), s, a);
    var s' := C.Apply(c, ProgramOf(u), s, a);
    if Quiet(a) {
      QuietStep(u, c, s, a, load, m);
    } else {
      match a {
        case OfPipe(p, b) =>
          if b.Run? {
            assert C.StageAt(c.P, p, s.pipes[p].ticket) == 0 ==> EntersAt(c, s, a, s.pipes[p].ticket);
            RunJoint(u, c, s, p, load, m, s');
          } else if b.RunExit? {
            ExitJoint(u, c, s, p, load, m, s');
          } else {
            SkipJoint(u, c, s, p, m, s');
            NoHandler(u, c, s, p, load, m);
          }
        case OfWorker(w, b) =>
          if b.WRun? { WorkerJoint(u, c, s, w, load, m, s'); } else { TaskJoint(u, c, s, w, load, m, s'); }
      }
    }
  }

  lemma NoHandler(u: Setup, c: C.Size, s: C.State, p: nat, load: nat, m: Memory)
    requires C.Wellsized(c, s)
    ensures MemStep(u, c, s, C.OfPipe(p, C.BeginExit), load, m) == m
  {
  }

  lemma FreshInv(u: Setup, m: Memory, c: C.Size)
    requires u.Ok() && StartsFrom(u, m)
    ensures PipeInv(u, m, ProgressOf(C.Init(c)), 0)
  {
    hide AfterOps, Legal, AllNodes;
    AtZero(u);
    var pr := ProgressOf(C.Init(c));
    assert pr.counts == map[] && pr.tasks == {};
    forall id ensures SlotsMatch(HSlotsAt(m.side, id), SlotsAt(u.At(0).side, id)) {
      NoSlotsYet(u, id);
    }
    TreePlaced(u, 0);
    FirstSettled(u, m, pr);
  }

  lemma FirstSettled(u: Setup, m: Memory, pr: Progress)
    requires u.Ok() && AllNodes(u.w.tree, HoldsQ(m.heap))
    ensures AllNodes(u.w.tree, SettledQ(u, m.heap, pr))
  {
    hide AfterOps, AllNodes, NodeHolds, Wf, Distinct;
    BuiltSettled(u, u.w.tree, m.heap, pr);
  }

  lemma {:induction false} BuiltSettled(u: Setup, t: Tree, heap: Heap, pr: Progress)
    requires BuiltOnly(t) && AllNodes(t, HoldsQ(heap))
    ensures AllNodes(t, SettledQ(u, heap, pr))
    decreases t
  {
    hide AfterOps;
    assert t.id in Ids(t);
    if t.Node? {
      forall i | 0 <= i < |t.kids.chs|
        ensures AllNodes(t.kids.chs[i], SettledQ(u, heap, pr)) && Complete(pr, t.kids.chs[i].id)
      {
        ChildIds(t.kids, i);
        assert t.kids.chs[i].id in Ids(t.kids.chs[i]);
        BuiltSettled(u, t.kids.chs[i], heap, pr);
      }
    }
    assert HoldsQ(heap)(t);
    assert NodeHolds(heap, t, Filled(u, pr, t.id.Version()));
    assert Settled(u, heap, pr, t);
    assert SettledQ(u, heap, pr)(t);
  }

  /** In every state of every run, the shared memory is the sequential history
      as far as the tickets have come. */
  lemma {:induction false} MemoryInvariant(u: Setup, x: Joint, n: nat)
    requires Joined(u, x) && n <= |x.actions|
    ensures JointInv(u, x.c, x.states[n], MemAfter(u, x, n))
  {
    hide Safety.Inv, PipeInv, MemStep, C.Apply, C.Enabled, StartsFrom, AfterOps, EntersAt, EntersWell, Legal;
    ProgramOk(u);
    if n == 0 {
      Safety.InitInv(x.c, ProgramOf(u));
      FreshInv(u, x.first, x.c);
      FreshCount(u, x.first);
    } else {
      MemoryInvariant(u, x, n - 1);
      EntriesWell(u, x, n - 1);
      JointStep(u, x.c, x.states[n-1], x.actions[n-1], x.loads[n-1], MemAfter(u, x, n - 1));
    }
  }

  lemma FreshCount(u: Setup, m: Memory)
    requires StartsFrom(u, m)
    ensures |m.ctxs| == 1
  {
  }

  lemma EntriesWell(u: Setup, x: Joint, n: nat)
    requires Joined(u, x) && n < |x.actions|
    ensures forall t: nat :: 1 <= t <= |u.ops| && EntersAt(x.c, x.states[n], x.actions[n], t) ==>
              EntersWell(u, MemAfter(u, x, n), t, x.loads[n])
  {
    hide MemAfter, StartsFrom, AfterOps, EntersAt, EntersWell, C.Execution;
  }
}
