/** Progress of the cyclic controller: the lowest initialised ticket that is
    not committed is never blocked, and in every fair run it commits. */
module CyclicProgress {
  import opened Cyclic
  import opened CyclicRing
  import opened CyclicOrder
  import opened CyclicWork
  import opened CyclicSafety

  datatype Rank = Rank(open: nat, stages: nat, steps: nat)

  predicate Less(a: Rank, b: Rank) {
    a.open < b.open || (a.open == b.open && (a.stages < b.stages || (a.stages == b.stages && a.steps < b.steps)))
  }

  function Max(a: nat, b: nat): nat { if a < b then b else a }

  /** The pipe in charge of ticket m, while it is in the pipes. */
  function Seat(P: nat, k: Ticket, m: nat): (p: nat)
    ensures p <= P && StageAt(P, p, m) == if k.passed <= P then k.passed else P
  {
    PipeFor(P, if k.passed <= P then k.passed else P, m)
  }

  function StagesLeft(P: nat, g: Program, k: Ticket, m: nat): nat {
    var all := Max(g.stages(m), P + 1);
    (if k.passed < all then all - k.passed else 0) + (if g.task(m) && !k.taskDone then 1 else 0)
  }

  /** The commit number is still to be looked up. */
  predicate Unsure(g: Program, k: Ticket, m: nat) {
    k.cno < g.dep(m, k.passed)
  }

  /** How many more steps of its present agent the ticket needs, at most. */
  function StepsLeft(c: Size, g: Program, s: State, m: nat): nat
    requires Wellsized(c, s) && m < |s.tickets|
  {
    var k := s.tickets[m];
    var p := Seat(c.P, k, m);
    if k.passed <= c.P then
      if k.passed > 0 && s.pipes[PrevPipe(c.P, p)].ticket <= m then 40
      else PipeSteps(g, k, m, s.pipes[p])
    else if s.pipes[p].ticket <= m then
      if s.pipes[p].pc.Pop? then (if s.available == [] then 30 else 29) else 28
    else if k.carrier < c.workers then WorkerSteps(g, k, m, s.workers[k.carrier])
    else 0
  }

  function PipeSteps(g: Program, k: Ticket, m: nat, pipe: Pipe): nat {
    match pipe.pc
    case Await => if Unsure(g, k, m) then 35 else 33
    case Reload => 34
    case Go => 32
    case _ => if (if k.passed == 0 then pipe.tasks else pipe.pred) < m then 37 else 36
  }

  function WorkerSteps(g: Program, k: Ticket, m: nat, worker: Worker): nat {
    match worker.pc
    case Idle => 20
    case Store => 15
    case Loop => 10
    case WAwait => if Unsure(g, k, m) then 9 else 7
    case WReload => 8
    case WGo => 6
    case Task => 6
    case Finish => 5
    case Push => 0
  }

  function MonitorRank(s: State): Rank {
    match s.monitor.pc
    case LoadSubmitted => Rank(0, 5, 0)
    case ScanInited => Rank(0, 4, if s.monitor.next < s.monitor.sub then s.monitor.sub - s.monitor.next else 0)
    case StoreInited => Rank(0, 3, 0)
    case ScanCommitted => Rank(0, 2, if s.monitor.next < s.inited then s.inited - s.monitor.next else 0)
    case PublishRoot => Rank(0, 1, 0)
    case StoreCommitted => Rank(0, 0, 0)
  }

  function RankOf(c: Size, g: Program, s: State, m: nat): Rank
    requires Wellsized(c, s) && m < |s.tickets|
  {
    if Finished(s.tickets[m]) then MonitorRank(s)
    else Rank(1, StagesLeft(c.P, g, s.tickets[m], m), StepsLeft(c, g, s, m))
  }

  /** The step the ticket is waiting for. */
  function Next(c: Size, g: Program, s: State, m: nat): Action
    requires Wellsized(c, s) && m < |s.tickets|
  {
    var k := s.tickets[m];
    var p := Seat(c.P, k, m);
    if Finished(k) then OfMonitor(NextOfMonitor(s.monitor.pc))
    else if k.passed <= c.P then
      if k.passed > 0 && s.pipes[PrevPipe(c.P, p)].ticket <= m then OfPipe(PrevPipe(c.P, p), Advance)
      else OfPipe(p, NextOfPipe(c.P, k, m, s.pipes[p]))
    else if s.pipes[p].ticket <= m then
      if s.pipes[p].pc.Pop? && s.available == [] then OfWorker(0, PushSelf)
      else OfPipe(p, NextOfPipe(c.P, k, m, s.pipes[p]))
    else if k.carrier < c.workers then OfWorker(k.carrier, NextOfWorker(s.workers[k.carrier].pc))
    else Submit
  }

  function NextOfMonitor(pc: MonitorPc): MonitorStep {
    match pc
    case LoadSubmitted => Poll
    case ScanInited => ScanReady
    case StoreInited => RaiseInited
    case ScanCommitted => ScanDone
    case PublishRoot => PublishLast
    case StoreCommitted => RaiseCommitted
  }

  function NextOfPipe(P: nat, k: Ticket, m: nat, pipe: Pipe): PipeStep {
    match pipe.pc
    case Arrive =>
      if k.passed == 0 then (if pipe.tasks < m then LoadTasks else Run)
      else if pipe.pred < m then LoadPace
      else if k.passed < P then Run else BeginExit
    case Publish => Advance
    case Await => WaitLoad
    case Reload => LoadCommitted
    case Go => RunExit
    case Pop => PopWorker
    case Dispatch(w) => HandOver
    case StoreAll => SkipWorker
  }

  function NextOfWorker(pc: WorkerPc): WorkerStep {
    match pc
    case Idle => ReadTid
    case Loop => Examine
    case WAwait => WWaitLoad
    case WReload => WLoadCommitted
    case WGo => WRun
    case Task => RunTask
    case Store => StoreStage
    case Finish => StoreDone
    case Push => PushSelf
  }

  // ---- the next step is enabled ---------------------------------------------

  /** A pipe with a committed ticket has left it. */
  lemma PipesBeyond(c: Size, g: Program, s: State, p: nat)
    requires Inv(c, g, s) && p <= c.P
    ensures s.pipes[p].ticket > s.committed
  {
    hide StageAt, PipeFor, CarryInv, PoolInv, MonitorOk, ExitsOk;
    var t := s.pipes[p].ticket;
    PipeHere(c, s, p);
    if t <= s.committed {
      TicketHere(c.P, g, s.tickets, s.pipes, s.committed, t);
      assert Finished(s.tickets[t]);
      assert StageAt(c.P, p, t) < s.tickets[t].passed;
      assert Past(s.pipes[p], t);
      if s.pipes[p].pc.Publish? {
        var q := NextPipe(c.P, p);
        NextStage(c.P, p, t);
      } else {
        LeavingHeld(c, g, s, p);
      }
    }
  }

  ghost predicate Pending(c: Size, g: Program, s: State, m: nat) {
    Inv(c, g, s) && m == s.committed + 1 <= s.inited
  }

  /** Where the pipe in charge stands. */
  lemma SeatAt(c: Size, g: Program, s: State, m: nat)
    requires Pending(c, g, s, m) && s.tickets[m].passed <= c.P
    ensures var p := Seat(c.P, s.tickets[m], m);
            && s.pipes[p].ticket == m && !Past(s.pipes[p], m) && PipeOk(c.P, s.pipes, p, s.inited)
            && (s.tickets[m].passed > 0 ==>
                  var q := PrevPipe(c.P, p);
                  && StageAt(c.P, q, m) == s.tickets[m].passed - 1
                  && s.pipes[q].ticket >= m && (s.pipes[q].ticket == m ==> s.pipes[q].pc.Publish?)
                  && (s.pipes[q].ticket > m ==> s.pipes[p].pace >= m))
  {
    hide StageAt, PipeFor, WorkInv, MonitorOk, RingInv;
    var p := Seat(c.P, s.tickets[m], m);
    PipesBeyond(c, g, s, p);
    PipeHere(c, s, p);
    assert !(StageAt(c.P, p, m) < s.tickets[m].passed);
    if s.tickets[m].passed > 0 {
      var q := PrevPipe(c.P, p);
      NextStage(c.P, q, m);
      PipesBeyond(c, g, s, q);
      PipeHere(c, s, q);
      assert StageAt(c.P, q, m) < s.tickets[m].passed;
      assert Past(s.pipes[q], m);
    }
  }

  /** The exit pipe stands at the ticket, or a worker carries it. */
  lemma LeavingAt(c: Size, g: Program, s: State, m: nat)
    requires Pending(c, g, s, m) && s.tickets[m].passed > c.P && !Finished(s.tickets[m])
    ensures var p := Seat(c.P, s.tickets[m], m);
            && s.pipes[p].ticket >= m
            && (s.pipes[p].ticket == m ==> s.pipes[p].pc.Pop? || s.pipes[p].pc.Dispatch? || s.pipes[p].pc.StoreAll?)
            && (s.pipes[p].ticket > m ==> Carried(s.workers, s.tickets[m].carrier, m))
  {
    hide StageAt, PipeFor, TicketsOk, PoolInv, ExitsOk, MonitorOk, RingInv;
    var p := Seat(c.P, s.tickets[m], m);
    PipesBeyond(c, g, s, p);
    PipeHere(c, s, p);
    assert StageAt(c.P, p, m) < s.tickets[m].passed;
    assert Past(s.pipes[p], m);
  }

  /** While the exit pipe of the lowest open ticket waits for a worker, every
      worker is in the pool or about to return to it. */
  lemma PoolRefills(c: Size, g: Program, s: State, m: nat, p: nat)
    requires Pending(c, g, s, m) && p <= c.P && s.pipes[p].pc.Pop? && s.pipes[p].ticket == m && s.available == []
    ensures s.workers[0].pc.Push?
  {
    hide StageAt, PipeFor, TicketsOk, ExitsOk, MonitorOk, RingInv, OrderInv, CarryInv;
    LeavingHeld(c, g, s, p);
    if Working(s.workers[0]) {
      JobHeld(c, g, s, 0);
      var t := Job(s.workers[0]);
      LaterNotOut(c, s, p, t);
    } else if Resting(s.workers[0]) {
      assert Grabbed(s.pipes, 0);
      var q :| 0 <= q < |s.pipes| && s.pipes[q].pc == Dispatch(0);
      OneAtPool(c, g, s, p, q);
    }
  }

  lemma LaterNotOut(c: Size, s: State, p: nat, t: nat)
    requires OrderInv(c.P, s.tickets, s.pipes, s.inited) && p <= c.P && StageAt(c.P, p, s.pipes[p].ticket) == c.P
    requires s.pipes[p].ticket < t < |s.tickets|
    ensures !Dispatched(c.P, s.pipes, t)
  {
    hide StageAt, PipeFor;
    ExitBlocks(c.P, s.tickets, s.pipes, s.inited, p, t);
    DispatchedMeans(c.P, s.tickets, s.pipes, s.inited, t);
  }

  /** The lowest open ticket is never blocked: every stage word, commit
      number, slot or flag it may wait for belongs to a committed ticket. */
  lemma NextEnabled(c: Size, g: Program, s: State, m: nat)
    requires Pending(c, g, s, m) && Wellsized(c, s)
    ensures m < |s.tickets| && Enabled(c, g, s, Next(c, g, s, m))
  {
    hide StageAt, PipeFor, TicketsOk, CarryInv, PoolInv, ExitsOk, MonitorOk, RingInv, OrderInv;
    SomeBounds(c, g, s);
    var k := s.tickets[m];
    if Finished(k) {
    } else if k.passed <= c.P {
      SeatAt(c, g, s, m);
    } else {
      LeavingAt(c, g, s, m);
      var p := Seat(c.P, k, m);
      if s.pipes[p].ticket > m {
        CarrierEnabled(c, g, s, m);
      } else if s.pipes[p].pc.Pop? && s.available == [] {
        PoolRefills(c, g, s, m, p);
      } else if s.pipes[p].pc.Dispatch? {
        DispatchTarget(c, g, s, p);
      }
    }
  }

  /** That step is one of the controller's own threads'. */
  predicate Internal(a: Action) {
    a.OfPipe? || a.OfWorker? || a.OfMonitor?
  }

  lemma NextInternal(c: Size, g: Program, s: State, m: nat)
    requires Pending(c, g, s, m) && Wellsized(c, s)
    ensures m < |s.tickets| && Internal(Next(c, g, s, m))
  {
    hide StageAt, PipeFor, TicketsOk, CarryInv, PoolInv, ExitsOk, MonitorOk, RingInv, OrderInv;
    SomeBounds(c, g, s);
    var k := s.tickets[m];
    if !Finished(k) && k.passed > c.P {
      LeavingAt(c, g, s, m);
      if s.pipes[Seat(c.P, k, m)].ticket > m {
        CarrierEnabled(c, g, s, m);
      }
    }
  }

  lemma DispatchTarget(c: Size, g: Program, s: State, p: nat)
    requires Inv(c, g, s) && p <= c.P && s.pipes[p].pc.Dispatch?
    ensures s.pipes[p].pc.w < c.workers && Resting(s.workers[s.pipes[p].pc.w])
  {
    hide StageAt, PipeFor, TicketsOk, CarryInv, ExitsOk, MonitorOk, RingInv, OrderInv;
  }

  lemma SomeBounds(c: Size, g: Program, s: State)
    requires Inv(c, g, s)
    ensures s.committed <= s.inited < |s.tickets|
  {
    hide StageAt, PipeFor, TicketsOk, CarryInv, PoolInv, ExitsOk, MonitorOk, OrderInv;
  }

  lemma CarrierEnabled(c: Size, g: Program, s: State, m: nat)
    requires Pending(c, g, s, m) && Wellsized(c, s) && m < |s.tickets| && Carried(s.workers, s.tickets[m].carrier, m)
    ensures var w := s.tickets[m].carrier;
            WorkerEnabled(c, g, s, w, NextOfWorker(s.workers[w].pc))
  {
    hide StageAt, PipeFor, CarryInv, PoolInv, ExitsOk, MonitorOk, OrderInv;
    var w := s.tickets[m].carrier;
    JobHeld(c, g, s, w);
    forall d: nat | d in g.needs(m)
      ensures d < |s.tickets| && Done(g, s.tickets[d], d)
    {
      TicketHere(c.P, g, s.tickets, s.pipes, s.committed, d);
      assert Finished(s.tickets[d]);
    }
  }

  // ---- it brings the ticket closer to its commit ----------------------------

  ghost predicate Closer(c: Size, g: Program, s: State, s': State, m: nat)
    requires Wellsized(c, s) && Wellsized(c, s') && m < |s.tickets|
  {
    s'.committed >= m || (m < |s'.tickets| && Less(RankOf(c, g, s', m), RankOf(c, g, s, m)))
  }

  lemma MonitorCloser(c: Size, g: Program, s: State, m: nat, s': State)
    requires Wellsized(c, s) && m < |s.tickets| && Finished(s.tickets[m]) && MonitorEnabled(s, NextOfMonitor(s.monitor.pc))
    requires s' == ApplyMonitor(c, s, NextOfMonitor(s.monitor.pc))
    requires Pending(c, g, s, m)
    ensures Wellsized(c, s') && Closer(c, g, s, s', m)
  {
    hide StageAt, PipeFor, TicketsOk, CarryInv, PoolInv, ExitsOk, OrderInv;
    if s.monitor.pc.ScanCommitted? && s.monitor.next == s.committed {
      SlotTells(c, s.tickets, s.slots, s.inited, s.committed, m);
    }
    hide RingInv;
    MonitorBounds(c, s);
  }

  lemma PipeCloser(c: Size, g: Program, s: State, m: nat)
    requires Pending(c, g, s, m) && Wellsized(c, s) && m < |s.tickets| && s.tickets[m].passed <= c.P
    requires Next(c, g, s, m).OfPipe? && Next(c, g, s, m).p == Seat(c.P, s.tickets[m], m)
    requires PipeEnabled(c, s, Next(c, g, s, m).p, Next(c, g, s, m).a) && !Finished(s.tickets[m])
    ensures var s' := Apply(c, g, s, Next(c, g, s, m));
            Wellsized(c, s') && Closer(c, g, s, s', m)
  {
    hide StageAt, PipeFor, TicketsOk, CarryInv, PoolInv, ExitsOk, OrderInv, MonitorOk, RingInv;
    SomeBounds(c, g, s);
    SeatAt(c, g, s, m);
    var p := Seat(c.P, s.tickets[m], m);
    PipeHeld'(c, g, s, p);
    assert g.dep(m, s.tickets[m].passed) <= s.committed;
    var s' := Apply(c, g, s, Next(c, g, s, m));
    StepSized(c, g, s, Next(c, g, s, m));
    assert s'.tickets[m].passed <= c.P ==> Seat(c.P, s'.tickets[m], m) == p || s'.tickets[m].passed > s.tickets[m].passed;
  }

  lemma PipeHeld'(c: Size, g: Program, s: State, p: nat)
    requires Inv(c, g, s) && p <= c.P && Wellsized(c, s)
    ensures InLine(c, s, p) ==> Held(c, s, s.pipes[p].ticket) == s.pipes[p].ticket
  {
    hide Inv;
    if InLine(c, s, p) { PipeHeld(c, g, s, p); }
  }

  lemma StepSized(c: Size, g: Program, s: State, a: Action)
    requires Inv(c, g, s) && Wellsized(c, s) && Enabled(c, g, s, a)
    ensures Wellsized(c, Apply(c, g, s, a))
  {
    hide RingInv, OrderInv, WorkInv, MonitorOk, Apply;
    StepInv(c, g, s, a);
  }

  lemma AdvanceCloser(c: Size, g: Program, s: State, m: nat)
    requires Pending(c, g, s, m) && Wellsized(c, s) && m < |s.tickets| && 0 < s.tickets[m].passed <= c.P && !Finished(s.tickets[m])
    requires s.pipes[PrevPipe(c.P, Seat(c.P, s.tickets[m], m))].ticket <= m
    ensures var q := PrevPipe(c.P, Seat(c.P, s.tickets[m], m));
            && PipeEnabled(c, s, q, Advance)
            && Wellsized(c, ApplyAdvance(c, s, q)) && Closer(c, g, s, ApplyAdvance(c, s, q), m)
  {
    hide StageAt, PipeFor, TicketsOk, CarryInv, PoolInv, ExitsOk, OrderInv, MonitorOk, RingInv;
    SeatAt(c, g, s, m);
    var q := PrevPipe(c.P, Seat(c.P, s.tickets[m], m));
    StepSized(c, g, s, OfPipe(q, Advance));
  }

  lemma LeavingCloser(c: Size, g: Program, s: State, m: nat)
    requires Pending(c, g, s, m) && Wellsized(c, s) && m < |s.tickets| && s.tickets[m].passed > c.P && !Finished(s.tickets[m])
    requires s.pipes[Seat(c.P, s.tickets[m], m)].ticket <= m && Enabled(c, g, s, Next(c, g, s, m))
    ensures var s' := Apply(c, g, s, Next(c, g, s, m));
            Wellsized(c, s') && Closer(c, g, s, s', m)
  {
    hide StageAt, PipeFor, TicketsOk, CarryInv, PoolInv, ExitsOk, OrderInv, MonitorOk, RingInv;
    LeavingAt(c, g, s, m);
    var p := Seat(c.P, s.tickets[m], m);
    LeavingHeld(c, g, s, p);
    if s.pipes[p].pc.Dispatch? {
      DispatchTarget(c, g, s, p);
    }
    StepSized(c, g, s, Next(c, g, s, m));
  }

  lemma WorkerCloser(c: Size, g: Program, s: State, m: nat)
    requires Pending(c, g, s, m) && Wellsized(c, s) && m < |s.tickets| && s.tickets[m].passed > c.P && !Finished(s.tickets[m])
    requires s.pipes[Seat(c.P, s.tickets[m], m)].ticket > m && Enabled(c, g, s, Next(c, g, s, m))
    ensures var s' := Apply(c, g, s, Next(c, g, s, m));
            Wellsized(c, s') && Closer(c, g, s, s', m)
  {
    hide StageAt, PipeFor, TicketsOk, CarryInv, PoolInv, ExitsOk, OrderInv, MonitorOk, RingInv;
    LeavingAt(c, g, s, m);
    var w := s.tickets[m].carrier;
    JobHeld(c, g, s, w);
    assert g.dep(m, s.tickets[m].passed) <= s.committed;
    StepSized(c, g, s, Next(c, g, s, m));
  }

  lemma NextCloser(c: Size, g: Program, s: State, m: nat)
    requires Pending(c, g, s, m) && Wellsized(c, s) && m < |s.tickets|
    ensures Enabled(c, g, s, Next(c, g, s, m))
    ensures var s' := Apply(c, g, s, Next(c, g, s, m));
            Wellsized(c, s') && Closer(c, g, s, s', m)
  {
    hide StageAt, PipeFor, Inv, Closer, ApplyPipe, ApplyWorker, ApplyMonitor, RankOf;
    NextEnabled(c, g, s, m);
    var k := s.tickets[m];
    if Finished(k) {
      MonitorCloser(c, g, s, m, Apply(c, g, s, Next(c, g, s, m)));
    } else if k.passed > c.P {
      if s.pipes[Seat(c.P, k, m)].ticket <= m { LeavingCloser(c, g, s, m); } else { WorkerCloser(c, g, s, m); }
    } else if k.passed > 0 && s.pipes[PrevPipe(c.P, Seat(c.P, k, m))].ticket <= m {
      AdvanceCloser(c, g, s, m);
      AdvanceIs(c, g, s, PrevPipe(c.P, Seat(c.P, k, m)));
    } else {
      PipeCloser(c, g, s, m);
    }
  }

  lemma AdvanceIs(c: Size, g: Program, s: State, q: nat)
    requires Wellsized(c, s) && PipeEnabled(c, s, q, Advance)
    ensures ApplyPipe(c, g, s, q, Advance) == ApplyAdvance(c, s, q)
  {
  }

  // ---- nobody else sets it back ---------------------------------------------

  /** Either the ticket is closer to its commit, or it is as close as before
      and waits for the same step. */
  ghost predicate Harmless(c: Size, g: Program, s: State, s': State, m: nat)
    requires Wellsized(c, s) && Wellsized(c, s') && m < |s.tickets|
  {
    || Closer(c, g, s, s', m)
    || (m < |s'.tickets| && RankOf(c, g, s', m) == RankOf(c, g, s, m) && Next(c, g, s', m) == Next(c, g, s, m))
  }

  lemma ClientHarmless(c: Size, g: Program, s: State, t: nat, a: ClientStep, m: nat, s': State)
    requires Wellsized(c, s) && ClientEnabled(c, s, t, a) && s' == ApplyClient(c, s, t, a)
    requires Pending(c, g, s, m)
    ensures Wellsized(c, s') && m < |s.tickets| && Harmless(c, g, s, s', m)
  {
    hide StageAt, PipeFor, TicketsOk, CarryInv, PoolInv, ExitsOk, OrderInv, MonitorOk;
    StepSized(c, g, s, OfClient(t, a));
    assert t != m && m < |s.tickets| && s'.tickets[m] == s.tickets[m];
    hide RingInv;
  }

  lemma MonitorHarmless(c: Size, g: Program, s: State, a: MonitorStep, m: nat, s': State)
    requires Wellsized(c, s) && MonitorEnabled(s, a) && s' == ApplyMonitor(c, s, a)
    requires Pending(c, g, s, m)
    ensures Wellsized(c, s') && m < |s.tickets| && (Finished(s.tickets[m]) || Harmless(c, g, s, s', m))
  {
    hide StageAt, PipeFor, TicketsOk, CarryInv, PoolInv, ExitsOk, OrderInv, RingInv;
    SomeBounds(c, g, s);
    StepSized(c, g, s, OfMonitor(a));
  }

  /** A worker that does not carry ticket m leaves it alone. */
  lemma WorkerElsewhere(c: Size, g: Program, s: State, w: nat, b: WorkerStep, m: nat, s': State)
    requires Wellsized(c, s) && WorkerEnabled(c, g, s, w, b) && s' == ApplyWorker(c, g, s, w, b)
    requires m < |s.tickets| && !(Working(s.workers[w]) && Job(s.workers[w]) == m)
    requires Inv(c, g, s)
    ensures m < |s'.tickets| && s'.tickets[m] == s.tickets[m] && s'.pipes == s.pipes && s'.monitor == s.monitor && s'.inited == s.inited
    ensures |s'.workers| == |s.workers| && (forall v :: 0 <= v < |s.workers| && v != w ==> s'.workers[v] == s.workers[v])
    ensures s'.available == if b.PushSelf? then s.available + [w] else s.available
  {
    hide StageAt, PipeFor, TicketsOk, CarryInv, PoolInv, ExitsOk, OrderInv, RingInv, MonitorOk;
    if Working(s.workers[w]) {
      JobHeld(c, g, s, w);
    }
  }

  lemma WorkerHarmless(c: Size, g: Program, s: State, w: nat, b: WorkerStep, m: nat, s': State)
    requires Wellsized(c, s) && WorkerEnabled(c, g, s, w, b) && s' == ApplyWorker(c, g, s, w, b)
    requires Pending(c, g, s, m) && m < |s.tickets| && !Finished(s.tickets[m])
    requires OfWorker(w, b) != Next(c, g, s, m)
    ensures Wellsized(c, s') && Harmless(c, g, s, s', m)
  {
    hide StageAt, PipeFor, TicketsOk, CarryInv, PoolInv, ExitsOk, OrderInv, RingInv, MonitorOk, ApplyWorker;
    StepSized(c, g, s, OfWorker(w, b));
    if Working(s.workers[w]) && Job(s.workers[w]) == m {
      JobHeld(c, g, s, w);
      CarrierIsNext(c, g, s, w, b, m);
    } else {
      WorkerElsewhere(c, g, s, w, b, m, s');
      if s.tickets[m].passed > c.P {
        LeavingAt(c, g, s, m);
      }
    }
  }

  /** The carrier's only step is the one ticket m waits for. */
  lemma CarrierIsNext(c: Size, g: Program, s: State, w: nat, b: WorkerStep, m: nat)
    requires Wellsized(c, s) && WorkerEnabled(c, g, s, w, b) && m < |s.tickets| && !Finished(s.tickets[m])
    requires Working(s.workers[w]) && s.tickets[m].carrier == w && s.tickets[m].passed > c.P && Dispatched(c.P, s.pipes, m)
    ensures OfWorker(w, b) == Next(c, g, s, m)
  {
  }

  lemma PipeHarmless(c: Size, g: Program, s: State, p: nat, a: PipeStep, m: nat, s': State)
    requires Wellsized(c, s) && PipeEnabled(c, s, p, a) && s' == ApplyPipe(c, g, s, p, a)
    requires Pending(c, g, s, m) && m < |s.tickets| && !Finished(s.tickets[m])
    requires OfPipe(p, a) != Next(c, g, s, m)
    ensures Wellsized(c, s') && Harmless(c, g, s, s', m)
  {
    hide StageAt, PipeFor, Inv, ApplyPipe, Harmless;
    StepSized(c, g, s, OfPipe(p, a));
    var seat := Seat(c.P, s.tickets[m], m);
    if p == seat {
      SeatHarmless(c, g, s, p, a, m, s');
    } else {
      OtherPipe(c, g, s, p, a, m, s');
      OtherPipeHarmless(c, g, s, p, a, m, s');
    }
  }

  /** The pipe in charge of m, when it is not its turn. */
  lemma SeatHarmless(c: Size, g: Program, s: State, p: nat, a: PipeStep, m: nat, s': State)
    requires Wellsized(c, s) && Wellsized(c, s') && PipeEnabled(c, s, p, a) && s' == ApplyPipe(c, g, s, p, a)
    requires Pending(c, g, s, m) && m < |s.tickets| && !Finished(s.tickets[m]) && p == Seat(c.P, s.tickets[m], m)
    requires OfPipe(p, a) != Next(c, g, s, m)
    ensures Harmless(c, g, s, s', m)
  {
    hide StageAt, PipeFor, TicketsOk, CarryInv, PoolInv, ExitsOk, OrderInv, RingInv, MonitorOk;
    if s.tickets[m].passed <= c.P {
      SeatAt(c, g, s, m);
      SeatWaits(c, g, s, p, a, m);
    } else {
      LeavingAt(c, g, s, m);
      if s.pipes[p].ticket > m {
        OtherPipe(c, g, s, p, a, m, s');
      }
    }
  }

  /** Before its turn comes, it can only look at its predecessor's pace. */
  lemma SeatWaits(c: Size, g: Program, s: State, p: nat, a: PipeStep, m: nat)
    requires Wellsized(c, s) && PipeEnabled(c, s, p, a)
    requires Pending(c, g, s, m) && m < |s.tickets| && !Finished(s.tickets[m]) && p == Seat(c.P, s.tickets[m], m)
    requires s.tickets[m].passed <= c.P && OfPipe(p, a) != Next(c, g, s, m)
    ensures a == LoadPace && s.tickets[m].passed > 0 && s.pipes[PrevPipe(c.P, p)].ticket <= m && s.pipes[p].ticket == m
  {
    hide StageAt, PipeFor, TicketsOk, CarryInv, PoolInv, ExitsOk, RingInv, MonitorOk;
    SeatAt(c, g, s, m);
    PipeHere(c, s, PrevPipe(c.P, p));
  }

  /** What a pipe at another ticket leaves alone. */
  lemma OtherPipe(c: Size, g: Program, s: State, p: nat, a: PipeStep, m: nat, s': State)
    requires Wellsized(c, s) && PipeEnabled(c, s, p, a) && s' == ApplyPipe(c, g, s, p, a)
    requires Pending(c, g, s, m) && m < |s.tickets| && !Finished(s.tickets[m])
    requires p != Seat(c.P, s.tickets[m], m) || s.pipes[p].ticket > m
    ensures m < |s'.tickets| && s'.tickets[m] == s.tickets[m] && |s'.pipes| == |s.pipes| && s'.monitor == s.monitor
    ensures forall q :: 0 <= q <= c.P && q != p ==>
              s'.pipes[q] == s.pipes[q].(pace := s'.pipes[q].pace)
    ensures s'.pipes[p].ticket >= s.pipes[p].ticket && (s'.pipes[p].ticket > s.pipes[p].ticket ==> a.Advance? || a.HandOver? || a.SkipWorker?)
    ensures s'.available == s.available || s.pipes[p].pc.Pop?
    ensures |s'.workers| == |s.workers| && forall w :: 0 <= w < |s.workers| && Working(s.workers[w]) ==> s'.workers[w] == s.workers[w]
  {
    hide StageAt, PipeFor, TicketsOk, CarryInv, PoolInv, ExitsOk, OrderInv, RingInv, MonitorOk;
    var t := s.pipes[p].ticket;
    if t == m {
      NotMine(c, g, s, p, m);
    } else if InLine(c, s, p) {
      PipeHeld(c, g, s, p);
    } else if s.pipes[p].pc.Dispatch? || s.pipes[p].pc.StoreAll? || s.pipes[p].pc.Pop? {
      LeavingHeld(c, g, s, p);
      if s.pipes[p].pc.Dispatch? { DispatchTarget(c, g, s, p); }
    }
  }

  /** Another pipe at ticket m has no handler or exit to do there. */
  lemma NotMine(c: Size, g: Program, s: State, p: nat, m: nat)
    requires Pending(c, g, s, m) && p <= c.P && m < |s.tickets| && p != Seat(c.P, s.tickets[m], m) && s.pipes[p].ticket == m
    ensures !InLine(c, s, p) && !s.pipes[p].pc.Pop? && !s.pipes[p].pc.Dispatch? && !s.pipes[p].pc.StoreAll?
  {
    hide StageAt, PipeFor, TicketsOk, CarryInv, PoolInv, ExitsOk, OrderInv, RingInv, MonitorOk;
    var seat := Seat(c.P, s.tickets[m], m);
    if InLine(c, s, p) {
      PipeHeld(c, g, s, p);
      StageOnce(c.P, p, seat, m);
    } else if s.pipes[p].pc.Pop? || s.pipes[p].pc.Dispatch? || s.pipes[p].pc.StoreAll? {
      LeavingHeld(c, g, s, p);
      StageOnce(c.P, p, seat, m);
    }
  }

  lemma OtherPipeHarmless(c: Size, g: Program, s: State, p: nat, a: PipeStep, m: nat, s': State)
    requires Wellsized(c, s) && Wellsized(c, s') && PipeEnabled(c, s, p, a) && s' == ApplyPipe(c, g, s, p, a)
    requires Pending(c, g, s, m) && m < |s.tickets| && !Finished(s.tickets[m])
    requires p != Seat(c.P, s.tickets[m], m) && OfPipe(p, a) != Next(c, g, s, m)
    ensures Harmless(c, g, s, s', m)
  {
    hide StageAt, PipeFor, TicketsOk, CarryInv, PoolInv, ExitsOk, OrderInv, RingInv, MonitorOk, ApplyPipe;
    OtherPipe(c, g, s, p, a, m, s');
    var seat := Seat(c.P, s.tickets[m], m);
    if s.tickets[m].passed <= c.P {
      SeatAt(c, g, s, m);
    } else {
      LeavingAt(c, g, s, m);
      if s.pipes[seat].ticket == m && s.pipes[seat].pc.Pop? && s.pipes[p].pc.Pop? {
        OneAtPool(c, g, s, p, seat);
      }
    }
  }

  lemma OthersHarmless(c: Size, g: Program, s: State, a: Action, m: nat)
    requires Pending(c, g, s, m) && Wellsized(c, s) && m < |s.tickets| && Enabled(c, g, s, a)
    ensures Wellsized(c, Apply(c, g, s, a)) && Harmless(c, g, s, Apply(c, g, s, a), m)
  {
    hide StageAt, PipeFor, Inv, Harmless, ApplyPipe, ApplyWorker, ApplyMonitor, ApplyClient;
    StepSized(c, g, s, a);
    var s' := Apply(c, g, s, a);
    if a == Next(c, g, s, m) {
      NextCloser(c, g, s, m);
      CloserHarmless(c, g, s, s', m);
    } else if Finished(s.tickets[m]) {
      FinishedHarmless(c, g, s, a, m, s');
    } else {
      match a {
        case Submit => SubmitHarmless(c, g, s, m, s');
        case OfClient(t, b) => ClientHarmless(c, g, s, t, b, m, s');
        case OfPipe(p, b) => PipeHarmless(c, g, s, p, b, m, s');
        case OfWorker(w, b) => WorkerHarmless(c, g, s, w, b, m, s');
        case OfMonitor(b) => MonitorHarmless(c, g, s, b, m, s');
      }
    }
  }

  lemma CloserHarmless(c: Size, g: Program, s: State, s': State, m: nat)
    requires Wellsized(c, s) && Wellsized(c, s') && m < |s.tickets| && Closer(c, g, s, s', m)
    ensures Harmless(c, g, s, s', m)
  {
  }

  lemma SubmitHarmless(c: Size, g: Program, s: State, m: nat, s': State)
    requires Wellsized(c, s) && Wellsized(c, s') && s' == Apply(c, g, s, Submit) && m < |s.tickets|
    ensures Harmless(c, g, s, s', m)
  {
    hide StageAt, PipeFor;
  }

  /** A finished ticket waits for the monitor, which does one thing at a time. */
  lemma FinishedHarmless(c: Size, g: Program, s: State, a: Action, m: nat, s': State)
    requires Wellsized(c, s) && Wellsized(c, s') && Enabled(c, g, s, a) && s' == Apply(c, g, s, a)
    requires Pending(c, g, s, m) && m < |s.tickets| && Finished(s.tickets[m]) && a != Next(c, g, s, m)
    ensures Harmless(c, g, s, s', m)
  {
    hide StageAt, PipeFor, Inv, ApplyPipe, ApplyWorker, ApplyClient;
    FinishedStays(c, g, s, a, m);
    MonitorApart(c, g, s, a);
  }

  lemma MonitorApart(c: Size, g: Program, s: State, a: Action)
    requires Wellsized(c, s) && Enabled(c, g, s, a) && !a.OfMonitor?
    ensures Apply(c, g, s, a).monitor == s.monitor && Apply(c, g, s, a).inited == s.inited && Apply(c, g, s, a).committed == s.committed
  {
    hide StageAt, PipeFor;
  }

  lemma FinishedStays(c: Size, g: Program, s: State, a: Action, m: nat)
    requires Wellsized(c, s) && Enabled(c, g, s, a) && Inv(c, g, s) && m < |s.tickets| && Finished(s.tickets[m])
    ensures m < |Apply(c, g, s, a).tickets| && Finished(Apply(c, g, s, a).tickets[m])
  {
    hide StageAt, PipeFor, TicketsOk, CarryInv, PoolInv, ExitsOk, OrderInv, RingInv, MonitorOk;
    match a {
      case OfWorker(w, b) => if Working(s.workers[w]) { JobHeld(c, g, s, w); }
      case OfPipe(p, b) =>
        if InLine(c, s, p) { PipeHeld(c, g, s, p); }
        else if s.pipes[p].pc.Dispatch? || s.pipes[p].pc.StoreAll? { LeavingHeld(c, g, s, p); }
      case _ =>
    }
  }
}
