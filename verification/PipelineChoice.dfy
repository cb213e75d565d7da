/** The history behind a run is not foreknowledge: the outcome of a probe is
    settled when the entry runs, so every step the controller can take extends
    a run that follows a history to one that does. */
module PipelineChoice {
  import opened BTreeHistory
  import opened StagedCow
  import opened Pipeline
  import opened PipelineState
  import opened BTreeLevels
  import opened PipelineRun
  import C = Cyclic
  import Safety = CyclicSafety
  import Work = CyclicWork
  import Ring = CyclicRing
  import Order = CyclicOrder

  // ---- histories that agree so far ------------------------------------------

  /** The same tickets over the same tree, with the same outcomes of the first e
      probes. */
  ghost predicate Agrees(u: Setup, u': Setup, e: nat) {
    && u'.w == u.w && u'.capacity == u.capacity && u'.limit == u.limit && u'.worker == u.worker && u'.local == u.local && |u'.ops| == |u.ops|
    && (forall i :: 0 <= i < |u.ops| ==> u'.ops[i].key == u.ops[i].key && u'.ops[i].val == u.ops[i].val)
    && (forall i :: 0 <= i < |u.ops| && i < e ==> u'.ops[i] == u.ops[i])
  }

  lemma {:induction false} SameTrees(u: Setup, u': Setup, e: nat, t: nat)
    requires Agrees(u, u', e) && t <= e <= |u.ops|
    ensures u'.At(t) == u.At(t)
  {
    hide Step;
    if t > 0 {
      SameTrees(u, u', e, t - 1);
    }
  }

  lemma SameOk(u: Setup, u': Setup, e: nat)
    requires Agrees(u, u', e) && u.Ok()
    ensures u'.Ok()
  {
  }

  /** Programs that do not differ on tickets 0..e. */
  ghost predicate Alike(g: C.Program, g': C.Program, e: nat) {
    forall t: nat :: t <= e ==> AlikeAt(g, g', t)
  }

  ghost predicate AlikeAt(g: C.Program, g': C.Program, t: nat) {
    g.stages(t) == g'.stages(t) && g.task(t) == g'.task(t) && g.needs(t) == g'.needs(t) && forall j: nat :: g.dep(t, j) == g'.dep(t, j)
  }

  lemma SamePrograms(u: Setup, u': Setup, e: nat)
    requires Agrees(u, u', e) && e <= |u.ops|
    ensures Alike(ProgramOf(u), ProgramOf(u'), e)
  {
    hide AfterOps, PathNode;
    forall t: nat | t <= e ensures AlikeAt(ProgramOf(u), ProgramOf(u'), t) {
      if t > 0 {
        SameTrees(u, u', e, t - 1);
        assert u'.ops[t-1] == u.ops[t-1];
        SameTicket(u, u', t);
      }
    }
  }

  lemma SameTicket(u: Setup, u': Setup, t: nat)
    requires 1 <= t <= |u.ops| == |u'.ops| && u'.At(t - 1) == u.At(t - 1) && u'.ops[t-1] == u.ops[t-1]
    requires u'.capacity == u.capacity && u'.worker == u.worker
    ensures AlikeAt(ProgramOf(u), ProgramOf(u'), t)
  {
    hide AfterOps, PathNode;
    assert u'.Appending(t) == u.Appending(t);
    forall j: nat ensures DepOf(u, t, j) == DepOf(u', t, j) {
    }
  }

  // ---- steps ----------------------------------------------------------------

  /** Tickets past e have not passed a stage. */
  ghost predicate OnlyUpTo(s: C.State, e: nat) {
    forall t: nat :: t < |s.tickets| && t > e ==> s.tickets[t].passed == 0
  }

  lemma PipeAlike(c: C.Size, g: C.Program, g': C.Program, s: C.State, p: nat, a: C.PipeStep, e: nat)
    requires Safety.Inv(c, g, s) && C.Wellsized(c, s) && C.PipeEnabled(c, s, p, a) && Alike(g, g', e) && OnlyUpTo(s, e)
    ensures C.ApplyPipe(c, g, s, p, a) == C.ApplyPipe(c, g', s, p, a)
  {
    hide C.StageAt, Safety.Inv, C.ApplyAdvance;
    if a.BeginExit? || a.WaitLoad? {
      PipeInLine(c, g, s, p, a);
      var t := s.pipes[p].ticket;
      assert AlikeAt(g, g', t);
    }
  }

  lemma PipeInLine(c: C.Size, g: C.Program, s: C.State, p: nat, a: C.PipeStep)
    requires Safety.Inv(c, g, s) && C.Wellsized(c, s) && C.PipeEnabled(c, s, p, a) && (a.BeginExit? || a.WaitLoad?)
    ensures var t := s.pipes[p].ticket; C.Held(c, s, t) == t && 0 < t < |s.tickets| && s.tickets[t].passed > 0
  {
    hide C.StageAt, C.PipeFor, Work.CarryInv, Work.PoolInv, Safety.MonitorOk;
    Safety.PipeHeld(c, g, s, p);
    assert Work.ExitOk(c.P, g, s.tickets, s.pipes[p], s.committed);
  }

  lemma WorkerAlike(c: C.Size, g: C.Program, g': C.Program, s: C.State, w: nat, a: C.WorkerStep, e: nat)
    requires Safety.Inv(c, g, s) && C.Wellsized(c, s) && Alike(g, g', e) && OnlyUpTo(s, e) && C.WorkerEnabled(c, g, s, w, a)
    ensures C.WorkerEnabled(c, g', s, w, a)
    ensures C.ApplyWorker(c, g, s, w, a) == C.ApplyWorker(c, g', s, w, a)
  {
    hide Safety.Inv, Work.JobOk;
    if a.Examine? || a.WWaitLoad? || a.RunTask? {
      WorkerAt(c, g, s, w);
      var t := s.workers[w].ticket;
      assert AlikeAt(g, g', t);
      if a.RunTask? {
        NeedsAlike(g, g', s.tickets, t, e);
      }
    }
  }

  lemma WorkerAt(c: C.Size, g: C.Program, s: C.State, w: nat)
    requires Safety.Inv(c, g, s) && w < c.workers && C.Wellsized(c, s)
    requires s.workers[w].pc.Loop? || s.workers[w].pc.WAwait? || s.workers[w].pc.Task?
    ensures var t := s.workers[w].ticket; C.Held(c, s, t) == t && 0 < t < |s.tickets| && s.tickets[t].passed > 0
    ensures g.Ok()
  {
    hide C.StageAt, C.PipeFor, Work.WorkInv, Safety.MonitorOk;
    Safety.JobHeld(c, g, s, w);
  }

  lemma NeedsAlike(g: C.Program, g': C.Program, tickets: seq<C.Ticket>, t: nat, e: nat)
    requires g.Ok() && Alike(g, g', e) && t <= e && C.NeedsDone(g, tickets, t)
    ensures C.NeedsDone(g', tickets, t)
  {
    assert AlikeAt(g, g', t);
    forall d: nat | d in g'.needs(t) ensures d < |tickets| && C.Done(g', tickets[d], d) {
      assert d in g.needs(t) && 0 < d < t;
      assert AlikeAt(g, g', d);
    }
  }

  lemma StepAlike(c: C.Size, g: C.Program, g': C.Program, s: C.State, a: C.Action, e: nat)
    requires Safety.Inv(c, g, s) && C.Wellsized(c, s) && Alike(g, g', e) && OnlyUpTo(s, e) && C.Enabled(c, g, s, a)
    ensures C.Enabled(c, g', s, a) && C.Apply(c, g', s, a) == C.Apply(c, g, s, a)
  {
    hide Safety.Inv, Alike, OnlyUpTo, C.PipeEnabled, C.ApplyPipe, C.WorkerEnabled, C.ApplyWorker, C.ApplyClient, C.ApplyMonitor;
    match a {
      case OfPipe(p, b) => PipeAlike(c, g, g', s, p, b, e);
      case OfWorker(w, b) => WorkerAlike(c, g, g', s, w, b, e);
      case _ =>
    }
  }

  /** The handlers look at tickets' keys, and at trees already settled. */
  lemma MemAlike(u: Setup, u': Setup, c: C.Size, s: C.State, a: C.Action, load: nat, m: Memory, e: nat)
    requires C.Wellsized(c, s) && Agrees(u, u', e) && 1 <= |m.ctxs| <= e + 1 && e <= |u.ops|
    ensures MemStep(u', c, s, a, load, m) == MemStep(u, c, s, a, load, m)
  {
    hide C.StageAt, AfterOps, HandleInitCow, HandleSearchDown, HandleSearchSplit, HandleMaterialize, Probe, Walk;
    match a {
      case OfPipe(p, Run) =>
        if p <= c.P {
          var t := s.pipes[p].ticket;
          if 1 <= t <= |u.ops| && t <= |m.ctxs| {
            SameTrees(u, u', e, t - 1);
          }
        }
      case _ =>
    }
  }

  // ---- runs -----------------------------------------------------------------

  /** Contexts are only added. */
  lemma {:induction false} CtxsGrow(u: Setup, x: Joint, i: nat, n: nat)
    requires Joined(u, x) && i <= n <= |x.actions|
    ensures 1 <= |MemAfter(u, x, i).ctxs| <= |MemAfter(u, x, n).ctxs| <= |u.ops| + 1
    decreases n
  {
    hide PipeInv, Safety.Inv, AfterOps, C.Execution, StartsFrom, EntersWell, MemStep;
    MemoryInvariant(u, x, n);
    CtxCount(u, MemAfter(u, x, n), ProgressOf(x.states[n]), |MemAfter(u, x, n).ctxs| - 1);
    if i < n {
      CtxsGrow(u, x, i, n - 1);
      StepGrows(u, x.c, x.states[n-1], x.actions[n-1], x.loads[n-1], MemAfter(u, x, n - 1));
    }
  }

  lemma StepGrows(u: Setup, c: C.Size, s: C.State, a: C.Action, load: nat, m: Memory)
    requires C.Wellsized(c, s)
    ensures |m.ctxs| <= |MemStep(u, c, s, a, load, m).ctxs|
  {
    hide C.StageAt, AfterOps, HandleInitCow, HandleSearchDown, HandleSearchSplit, HandleMaterialize, Probe, Walk;
  }

  lemma PassedUpTo(u: Setup, x: Joint, i: nat, e: nat)
    requires Joined(u, x) && i <= |x.actions| && |MemAfter(u, x, i).ctxs| <= e + 1
    ensures OnlyUpTo(x.states[i], e)
  {
    hide Safety.Inv, AfterOps, C.Execution, StartsFrom, EntersWell, MemAfter, HeapOk, CtxsOk, SideOk, RootsOk;
    MemoryInvariant(u, x, i);
    var s := x.states[i];
    forall t: nat | t < |s.tickets| && t > e ensures s.tickets[t].passed == 0 {
      assert !(ProgressOf(s).Passed(t) >= 1);
    }
  }

  /** Another history that agrees on the entered tickets has the same run. */
  lemma {:induction false} SameMemory(u: Setup, u': Setup, x: Joint, n: nat, e: nat)
    requires Joined(u, x) && n <= |x.actions| && Agrees(u, u', e) && e <= |u.ops| && |MemAfter(u, x, n).ctxs| <= e + 1
    ensures MemAfter(u', x, n) == MemAfter(u, x, n)
    decreases n
  {
    hide MemStep, AfterOps, C.Execution, StartsFrom, EntersWell;
    if n > 0 {
      CtxsGrow(u, x, n - 1, n);
      SameMemory(u, u', x, n - 1, e);
      MemAlike(u, u', x.c, x.states[n-1], x.actions[n-1], x.loads[n-1], MemAfter(u, x, n - 1), e);
    }
  }

  lemma SameExecution(u: Setup, u': Setup, x: Joint, e: nat)
    requires Joined(u, x) && Agrees(u, u', e) && e <= |u.ops| && |MemAfter(u, x, |x.actions|).ctxs| <= e + 1
    ensures C.Execution(x.c, ProgramOf(u'), x.states, x.actions)
  {
    hide MemAfter, AfterOps, StartsFrom, EntersWell, Safety.Inv, PipeInv, C.Enabled, C.Apply, C.Init, ProgramOf;
    SameOk(u, u', e);
    ProgramOk(u');
    forall i | 0 <= i < |x.actions|
      ensures C.Wellsized(x.c, x.states[i]) && C.Enabled(x.c, ProgramOf(u'), x.states[i], x.actions[i])
              && x.states[i+1] == C.Apply(x.c, ProgramOf(u'), x.states[i], x.actions[i])
    {
      MemoryInvariant(u, x, i);
      CtxsGrow(u, x, i, |x.actions|);
      PassedUpTo(u, x, i, e);
      SamePrograms(u, u', e);
      StepAlike(x.c, ProgramOf(u), ProgramOf(u'), x.states[i], x.actions[i], e);
    }
  }

  /** An entry step belongs to the next ticket, and adds its context. */
  lemma EntryHere(u: Setup, x: Joint, i: nat, t: nat)
    requires Joined(u, x) && i < |x.actions| && 1 <= t <= |u.ops| && EntersAt(x.c, x.states[i], x.actions[i], t)
    ensures t == |MemAfter(u, x, i).ctxs| < |MemAfter(u, x, i + 1).ctxs|
  {
    hide AfterOps, StartsFrom, EntersWell, Safety.Inv, PipeInv, MemAfter, HandleInitCow, Sought, C.StageAt;
    MemoryInvariant(u, x, i);
    EntryNow(u, x.c, x.states[i], x.actions[i], t, MemAfter(u, x, i));
    MemNext(u, x, i);
  }

  lemma MemNext(u: Setup, x: Joint, i: nat)
    requires Joined(u, x) && i < |x.actions|
    ensures MemAfter(u, x, i + 1) == MemStep(u, x.c, x.states[i], x.actions[i], x.loads[i], MemAfter(u, x, i))
  {
    hide AfterOps, StartsFrom, EntersWell, C.Execution, MemStep;
  }

  lemma EntryNow(u: Setup, c: C.Size, s: C.State, a: C.Action, t: nat, m: Memory)
    requires JointInv(u, c, s, m) && C.Wellsized(c, s) && C.Enabled(c, ProgramOf(u), s, a) && 1 <= t <= |u.ops| && EntersAt(c, s, a, t)
    ensures t == |m.ctxs|
  {
    hide AfterOps, Safety.Inv, PipeInv, C.StageAt, Safety.AllReached;
    Safety.PipeRunsInOrder(c, ProgramOf(u), s, a.p);
    SizedInv(u, c, s, m);
    EntryIsNext(u, c, s, m, t);
  }

  lemma SameJoined(u: Setup, u': Setup, x: Joint, e: nat)
    requires Joined(u, x) && Agrees(u, u', e) && e <= |u.ops| && |MemAfter(u, x, |x.actions|).ctxs| <= e + 1
    ensures Joined(u', x)
  {
    hide MemAfter, AfterOps, Safety.Inv, C.Execution, ProgramOf, EntersWell, EntersAt;
    SameOk(u, u', e);
    SameExecution(u, u', x, e);
    forall i: nat, t: nat | i < |x.actions| && 1 <= t <= |u.ops| && EntersAt(x.c, x.states[i], x.actions[i], t)
      ensures EntersWell(u', MemAfter(u', x, i), t, x.loads[i])
    {
      CtxsGrow(u, x, i, |x.actions|);
      CtxsGrow(u, x, i + 1, |x.actions|);
      SameMemory(u, u', x, i, e);
      EntryHere(u, x, i, t);
      SameEntry(u, u', MemAfter(u, x, i), t, x.loads[i], e);
    }
  }

  lemma SameEntry(u: Setup, u': Setup, m: Memory, t: nat, load: nat, e: nat)
    requires Agrees(u, u', e) && 1 <= t <= e <= |u.ops| && EntersWell(u, m, t, load)
    ensures EntersWell(u', m, t, load)
  {
    hide AfterOps, Probe, Walk;
    SameTrees(u, u', e, t - 1);
    assert u'.ops[t-1] == u.ops[t-1];
  }

  // ---- one more step --------------------------------------------------------

  /** The run with one more step. */
  ghost function Extended(u: Setup, x: Joint, a: C.Action, load: nat): Joint
    requires Joined(u, x) && C.Enabled(x.c, ProgramOf(u), x.states[|x.actions|], a)
  {
    x.(states := x.states + [C.Apply(x.c, ProgramOf(u), x.states[|x.actions|], a)], actions := x.actions + [a], loads := x.loads + [load])
  }

  lemma {:induction false} ExtendedMemory(u: Setup, x: Joint, a: C.Action, load: nat, n: nat)
    requires Joined(u, x) && C.Enabled(x.c, ProgramOf(u), x.states[|x.actions|], a) && n <= |x.actions|
    requires C.Wellsized(x.c, C.Apply(x.c, ProgramOf(u), x.states[|x.actions|], a))
    ensures MemAfter(u, Extended(u, x, a, load), n) == MemAfter(u, x, n)
  {
    hide MemStep, AfterOps, C.Execution, StartsFrom, EntersWell, C.Apply, C.Enabled;
    if n > 0 {
      ExtendedMemory(u, x, a, load, n - 1);
    }
  }

  /** The history that records what a probe finds. */
  function Recorded(u: Setup, t: nat, open: bool): Setup
    requires 1 <= t <= |u.ops|
  {
    u.(ops := u.ops[t-1 := u.ops[t-1].(open := open)])
  }

  /** A step allowed by the history as it stands, with the right outcome for
      the probe if it is an entry. */
  lemma StepJoined(u: Setup, x: Joint, a: C.Action, load: nat)
    requires Joined(u, x) && C.Enabled(x.c, ProgramOf(u), x.states[|x.actions|], a) && load <= x.states[|x.actions|].committed
    requires a.Submit? ==> |x.states[|x.actions|].tickets| <= |u.ops|
    requires forall t: nat :: 1 <= t <= |u.ops| && EntersAt(x.c, x.states[|x.actions|], a, t) ==>
               EntersWell(u, MemAfter(u, x, |x.actions|), t, load)
    ensures Joined(u, Extended(u, x, a, load))
  {
    hide MemAfter, AfterOps, Safety.Inv, ProgramOf, EntersWell, EntersAt, C.Apply, C.Enabled, StartsFrom, C.Init, PipeInv;
    var y, n := Extended(u, x, a, load), |x.actions|;
    MemoryInvariant(u, x, n);
    AfterSized(x.c, ProgramOf(u), x.states[n], a);
    forall i: nat, t: nat | i < |y.actions| && 1 <= t <= |u.ops| && EntersAt(y.c, y.states[i], y.actions[i], t)
      ensures EntersWell(u, MemAfter(u, y, i), t, y.loads[i])
    {
      ExtendedMemory(u, x, a, load, i);
      if i < n {
        assert y.states[i] == x.states[i] && y.actions[i] == x.actions[i] && y.loads[i] == x.loads[i];
      }
    }
  }

  lemma AfterSized(c: C.Size, g: C.Program, s: C.State, a: C.Action)
    requires Safety.Inv(c, g, s) && C.Wellsized(c, s) && C.Enabled(c, g, s, a)
    ensures var s' := C.Apply(c, g, s, a);
            C.Wellsized(c, s') && |s'.tickets| == |s.tickets| + if a.Submit? then 1 else 0
  {
    hide C.StageAt, Ring.RingInv, Order.OrderInv, Work.WorkInv, Safety.MonitorOk;
    Safety.StepInv(c, g, s, a);
    SameTicketCount(c, g, s, a);
  }

  lemma SameTicketCount(c: C.Size, g: C.Program, s: C.State, a: C.Action)
    requires C.Wellsized(c, s) && C.Enabled(c, g, s, a)
    ensures |C.Apply(c, g, s, a).tickets| == |s.tickets| + if a.Submit? then 1 else 0
  {
    hide C.StageAt, C.WaitOver;
  }

  /** No run is excluded. Whatever step the controller can take, with whatever
      commit number its probe has loaded, some history that differs only in the
      outcomes of probes still to come has the longer run. */
  lemma EveryStepExtends(u: Setup, x: Joint, a: C.Action, load: nat) returns (u': Setup, x': Joint)
    requires Joined(u, x) && C.Enabled(x.c, ProgramOf(u), x.states[|x.actions|], a) && load <= x.states[|x.actions|].committed
    requires a.Submit? ==> |x.states[|x.actions|].tickets| <= |u.ops|
    ensures |MemAfter(u, x, |x.actions|).ctxs| > 0 && Agrees(u, u', |MemAfter(u, x, |x.actions|).ctxs| - 1)
    ensures Joined(u', x') && x'.c == x.c && x'.first == x.first && x'.actions == x.actions + [a] && x'.loads == x.loads + [load]
    ensures x'.states[..|x.states|] == x.states
    ensures forall i: nat :: i <= |x.actions| ==> MemAfter(u', x', i) == MemAfter(u, x, i)
  {
    hide MemAfter, AfterOps, Safety.Inv, ProgramOf, EntersWell, C.Apply, C.Enabled, StartsFrom, C.Execution, PipeInv, Sought;
    var n := |x.actions|;
    var s, m := x.states[n], MemAfter(u, x, n);
    var e := |m.ctxs| - 1;
    MemoryInvariant(u, x, n);
    CtxsGrow(u, x, n, n);
    u' := u;
    if a.OfPipe? && a.a.Run? && a.p <= x.c.P && C.StageAt(x.c.P, a.p, s.pipes[a.p].ticket) == 0 && 1 <= s.pipes[a.p].ticket <= |u.ops| {
      var t := s.pipes[a.p].ticket;
      EntryNow(u, x.c, s, a, t, m);
      u' := Recorded(u, t, Sought(u, m, t, load).At?);
      SameTrees(u, u', e, t - 1);
      ProbeRecorded(u, u', m, t, load);
    }
    SameJoined(u, u', x, e);
    SameMemory(u, u', x, n, e);
    PassedUpTo(u, x, n, e);
    SamePrograms(u, u', e);
    StepAlike(x.c, ProgramOf(u), ProgramOf(u'), s, a, e);
    StepJoined(u', x, a, load);
    x' := Extended(u', x, a, load);
    MemoryInvariant(u', x, n);
    AfterSized(x.c, ProgramOf(u'), s, a);
    forall i: nat | i <= n ensures MemAfter(u', x', i) == MemAfter(u, x, i) {
      ExtendedMemory(u', x, a, load, i);
      CtxsGrow(u, x, i, n);
      SameMemory(u, u', x, i, e);
    }
  }

  lemma ProbeRecorded(u: Setup, u': Setup, m: Memory, t: nat, load: nat)
    requires 1 <= t <= |u.ops| && t <= |m.ctxs| && u' == Recorded(u, t, Sought(u, m, t, load).At?) && u'.At(t - 1) == u.At(t - 1)
    ensures EntersWell(u', m, t, load)
  {
    hide Probe, Walk, AfterOps;
  }

  /** The run that has not started. */
  lemma StartsJoined(u: Setup, c: C.Size, first: Memory)
    requires u.Ok() && c.Ok() && StartsFrom(u, first)
    ensures Joined(u, Joint(c, [C.Init(c)], [], [], first))
  {
    hide StartsFrom, AfterOps, MemAfter;
    ProgramOk(u);
  }
}
