/** Safety of the cyclic controller over all runs. */
module CyclicSafety {
  import opened Cyclic
  import opened CyclicRing
  import opened CyclicOrder
  import opened CyclicWork

  ghost predicate MonitorOk(tickets: seq<Ticket>, m: Monitor, inited: nat, committed: nat) {
    match m.pc
    case LoadSubmitted => true
    case ScanInited => inited <= m.next <= m.sub < |tickets| && AllReady(tickets, m.next)
    case StoreInited => inited <= m.next <= m.sub < |tickets| && AllReady(tickets, m.next)
    case ScanCommitted => committed <= m.next <= inited < |tickets| && AllFinished(tickets, m.next)
    case PublishRoot => committed < m.next <= inited < |tickets| && AllFinished(tickets, m.next)
    case StoreCommitted => committed < m.next <= inited < |tickets| && AllFinished(tickets, m.next)
  }

  ghost predicate AllReady(tickets: seq<Ticket>, n: nat)
    requires n < |tickets|
  {
    forall t :: 0 <= t <= n ==> tickets[t].phase.Ready?
  }

  ghost predicate AllFinished(tickets: seq<Ticket>, n: nat)
    requires n < |tickets|
  {
    forall t :: 0 <= t <= n ==> Finished(tickets[t])
  }

  ghost predicate Inv(c: Size, g: Program, s: State) {
    && Wellsized(c, s) && g.Ok()
    && RingInv(c, s.tickets, s.slots, s.inited, s.committed)
    && OrderInv(c.P, s.tickets, s.pipes, s.inited)
    && WorkInv(c, g, s)
    && MonitorOk(s.tickets, s.monitor, s.inited, s.committed)
  }

  /** What no step undoes. */
  ghost predicate Advances(a: seq<Ticket>, b: seq<Ticket>) {
    Grows(a, b) && forall t :: 0 <= t < |a| && a[t].phase.Ready? ==> b[t].phase.Ready?
  }

  lemma MonitorFrame(tickets: seq<Ticket>, tickets': seq<Ticket>, m: Monitor, inited: nat, committed: nat)
    requires MonitorOk(tickets, m, inited, committed) && Advances(tickets, tickets')
    ensures MonitorOk(tickets', m, inited, committed)
  {
  }

  lemma InitInv(c: Size, g: Program)
    requires c.Ok() && g.Ok()
    ensures Inv(c, g, Init(c))
  {
    hide StageAt, PipeFor;
    var s := Init(c);
    OrderInit(c);
    assert 0 % c.ring == 0 by { ModIs(0, c.ring, 0, 0); }
    forall i | 0 <= i < |s.slots| ensures SlotOk(c, s.tickets, s.slots[i], i) {
    }
    assert RingInv(c, s.tickets, s.slots, 0, 0);
    assert CarryInv(c.P, g, s.tickets, s.pipes, s.workers);
    assert PoolInv(s.pipes, s.workers, s.available) by {
      forall w | 0 <= w < |s.workers| ensures w in s.available { assert s.available[w] == w; }
    }
  }

  // ---- contexts are held by their own tickets -------------------------------

  /** A thread that works on a ticket finds that ticket in the ring. */
  lemma JobHeld(c: Size, g: Program, s: State, w: nat)
    requires Inv(c, g, s) && w < c.workers && Working(s.workers[w])
    ensures var t := Job(s.workers[w]);
            && s.committed < t <= s.inited && Held(c, s, t) == t && JobOk(c.P, g, s.tickets, s.workers[w], w)
            && Dispatched(c.P, s.pipes, t) && s.tickets[t].stored.At?
  {
    hide StageAt, PipeFor, OrderInv, TicketsOk, PoolInv, ExitsOk, MonitorOk;
    var t := Job(s.workers[w]);
    DispatchedMeans(c.P, s.tickets, s.pipes, s.inited, t);
    HeldIs(c, s, t);
  }

  /** A pipe about to perform a stage. */
  predicate InLine(c: Size, s: State, p: nat)
    requires Wellsized(c, s) && p <= c.P
  {
    var pipe := s.pipes[p];
    if pipe.pc.Arrive? then pipe.ticket <= (if StageAt(c.P, p, pipe.ticket) == 0 then pipe.tasks else pipe.pred)
    else pipe.pc.Await? || pipe.pc.Reload? || pipe.pc.Go?
  }

  lemma PipeHeld(c: Size, g: Program, s: State, p: nat)
    requires Inv(c, g, s) && p <= c.P && InLine(c, s, p)
    ensures var t := s.pipes[p].ticket;
            && s.committed < t <= s.inited && Held(c, s, t) == t && s.tickets[t].passed == StageAt(c.P, p, t)
            && !Dispatched(c.P, s.pipes, t) && s.tickets[t].stored == At(0) && s.tickets[t].phase.Ready?
  {
    hide StageAt, PipeFor, CarryInv, PoolInv, ExitsOk, MonitorOk;
    var t := s.pipes[p].ticket;
    NextInLine(c.P, s.tickets, s.pipes, s.inited, p);
    assert PipeOk(c.P, s.pipes, p, s.inited);
    DispatchedMeans(c.P, s.tickets, s.pipes, s.inited, t);
    assert Fresh(c.P, s.tickets[t]);
    HeldIs(c, s, t);
  }

  /** A pipe done with its exit stage, but not yet with the ticket. */
  lemma LeavingHeld(c: Size, g: Program, s: State, p: nat)
    requires Inv(c, g, s) && p <= c.P
    requires s.pipes[p].pc.Pop? || s.pipes[p].pc.Dispatch? || s.pipes[p].pc.StoreAll?
    ensures var t := s.pipes[p].ticket;
            && s.committed < t <= s.inited && Held(c, s, t) == t && s.tickets[t].passed == c.P + 1
            && StageAt(c.P, p, t) == c.P && !Dispatched(c.P, s.pipes, t) && s.tickets[t].stored == At(0) && s.tickets[t].phase.Ready?
  {
    hide StageAt, PipeFor, CarryInv, PoolInv, MonitorOk;
    var t := s.pipes[p].ticket;
    assert PipeOk(c.P, s.pipes, p, s.inited) && ExitOk(c.P, g, s.tickets, s.pipes[p], s.committed);
    NotYetDispatched(c.P, s.pipes, p);
    assert Fresh(c.P, s.tickets[t]);
    HeldIs(c, s, t);
  }

  // ---- clients --------------------------------------------------------------

  lemma SubmitInv(c: Size, g: Program, s: State)
    requires Inv(c, g, s)
    ensures Inv(c, g, Apply(c, g, s, Submit))
  {
    hide StageAt, PipeFor, PoolInv, RingInv;
    var k := Ticket(Reserved, 0, false, 0, All, 0);
    var tickets' := s.tickets + [k];
    RingSubmit(c, s.tickets, s.slots, s.inited, s.committed, k);
    OrderFrame(c.P, s.tickets, tickets', s.pipes, s.inited);
    DispatchedMeans(c.P, s.tickets, s.pipes, s.inited, |s.tickets|);
    CarryFrame(c.P, g, s.tickets, tickets', s.pipes, s.pipes, s.workers);
    ExitsFrame(c.P, g, s.tickets, tickets', s.pipes, s.committed, s.committed) by {
      forall p | 0 <= p < |s.pipes| && !s.pipes[p].pc.Arrive? && !s.pipes[p].pc.Publish?
        ensures SameWork(s.tickets, tickets', s.pipes[p].ticket)
      {
        assert ExitOk(c.P, g, s.tickets, s.pipes[p], s.committed);
      }
    }
    MonitorFrame(s.tickets, tickets', s.monitor, s.inited, s.committed);
    assert TicketsOk(c.P, g, tickets', s.pipes, s.committed);
  }

  /** Setting one ticket no exit or worker holds. */
  lemma SetTicketWork(c: Size, g: Program, s: State, t: nat, k: Ticket)
    requires Inv(c, g, s) && 1 <= t < |s.tickets| && !Dispatched(c.P, s.pipes, t)
    requires TicketOk(c.P, g, k, t, s.committed) && Fresh(c.P, k) && Advances(s.tickets, s.tickets[t := k])
    requires forall p :: 0 <= p < |s.pipes| && !s.pipes[p].pc.Arrive? && !s.pipes[p].pc.Publish? && s.pipes[p].ticket == t
               ==> SameWork(s.tickets, s.tickets[t := k], t)
    ensures TicketsOk(c.P, g, s.tickets[t := k], s.pipes, s.committed)
    ensures CarryInv(c.P, g, s.tickets[t := k], s.pipes, s.workers)
    ensures ExitsOk(c.P, g, s.tickets[t := k], s.pipes, s.committed)
    ensures MonitorOk(s.tickets[t := k], s.monitor, s.inited, s.committed)
  {
    hide StageAt, PipeFor, PoolInv, RingInv, OrderInv;
    var tickets' := s.tickets[t := k];
    CarryFrame(c.P, g, s.tickets, tickets', s.pipes, s.pipes, s.workers);
    ExitsFrame(c.P, g, s.tickets, tickets', s.pipes, s.committed, s.committed) by {
      forall p | 0 <= p < |s.pipes| && !s.pipes[p].pc.Arrive? && !s.pipes[p].pc.Publish?
        ensures SameWork(s.tickets, tickets', s.pipes[p].ticket)
      {
        assert ExitOk(c.P, g, s.tickets, s.pipes[p], s.committed);
      }
    }
    MonitorFrame(s.tickets, tickets', s.monitor, s.inited, s.committed);
  }

  /** A client works on a context nobody else has seen. */
  lemma ClientSets(c: Size, g: Program, s: State, t: nat, k: Ticket, slots: seq<Slot>)
    requires Inv(c, g, s) && 1 <= t < |s.tickets| && !s.tickets[t].phase.Ready?
    requires RingInv(c, s.tickets[t := k], slots, s.inited, s.committed)
    requires k.passed == 0 && !k.taskDone && k.cno <= s.committed && (k.phase.Ready? ==> k.stored == At(0))
    ensures Inv(c, g, s.(tickets := s.tickets[t := k], slots := slots))
  {
    hide StageAt, PipeFor, PoolInv, CarryInv, OrderInv;
    assert TicketOk(c.P, g, s.tickets[t], t, s.committed);
    DispatchedMeans(c.P, s.tickets, s.pipes, s.inited, t);
    forall p | 0 <= p < |s.pipes| && s.pipes[p].ticket == t
      ensures s.pipes[p].pc.Arrive? || s.pipes[p].pc.Publish?
    {
      assert ExitOk(c.P, g, s.tickets, s.pipes[p], s.committed);
    }
    OrderFrame(c.P, s.tickets, s.tickets[t := k], s.pipes, s.inited);
    SetTicketWork(c, g, s, t, k);
    hide RingInv;
    ClientSized(c, s.tickets[t := k], slots, s.inited, s.committed);
  }

  lemma ClientSized(c: Size, tickets: seq<Ticket>, slots: seq<Slot>, inited: nat, committed: nat)
    requires RingInv(c, tickets, slots, inited, committed)
    ensures forall i :: 0 <= i < |slots| ==> slots[i].sno < |tickets|
  {
    forall i | 0 <= i < |slots| ensures slots[i].sno < |tickets| {
      assert SlotOk(c, tickets, slots[i], i);
    }
  }

  lemma ClientTicket(c: Size, g: Program, s: State, t: nat)
    requires Inv(c, g, s) && t < |s.tickets| && !s.tickets[t].phase.Ready?
    ensures s.committed <= s.inited < t && RingInv(c, s.tickets, s.slots, s.inited, s.committed)
    ensures var k := s.tickets[t]; k.passed == 0 && !k.taskDone && k.cno <= s.committed
  {
    hide StageAt, PipeFor, PoolInv, CarryInv, OrderInv, ExitsOk, MonitorOk;
    assert TicketOk(c.P, g, s.tickets[t], t, s.committed);
  }

  lemma ClientInv(c: Size, g: Program, s: State, t: nat, a: ClientStep)
    requires Inv(c, g, s) && Wellsized(c, s) && ClientEnabled(c, s, t, a)
    ensures Inv(c, g, ApplyClient(c, s, t, a))
  {
    hide Inv, RingInv, StageAt, PipeFor;
    ClientTicket(c, g, s, t);
    var k := s.tickets[t];
    match a {
      case Admit =>
        RingAdmit(c, s.tickets, s.slots, s.inited, s.committed, t);
        ClientSets(c, g, s, t, k.(phase := Admitted), s.slots);
      case Fill =>
        RingFill(c, s.tickets, s.slots, s.inited, s.committed, t);
        ClientSets(c, g, s, t, k.(phase := Filled), s.slots[t % c.ring := s.slots[t % c.ring].(sno := t)]);
      case Announce =>
        var k' := k.(phase := Ready, stored := At(0));
        RingStore(c, s.tickets, s.slots, s.inited, s.committed, t, At(0));
        ClientSets(c, g, s, t, k', s.slots[t % c.ring := s.slots[t % c.ring].(stage := At(0))]);
        assert s.tickets[t := k.(phase := Ready)][t := k'] == s.tickets[t := k'];
    }
  }

  // ---- pipes ----------------------------------------------------------------

  lemma PlacesDispatch(P: nat, pipes: seq<Pipe>, pipes': seq<Pipe>)
    requires |pipes| == |pipes'| == P + 1 && SamePlaces(pipes, pipes')
    ensures forall t: nat :: Dispatched(P, pipes', t) == Dispatched(P, pipes, t)
  {
  }

  predicate Steady(pipe: Pipe, pipe': Pipe) {
    pipe'.ticket == pipe.ticket && !pipe.pc.Dispatch? && !pipe'.pc.Dispatch?
  }

  /** A pipe changes nothing but itself. */
  lemma PipeSets(c: Size, g: Program, s: State, p: nat, pipe: Pipe)
    requires Inv(c, g, s) && p <= c.P && Steady(s.pipes[p], pipe)
    requires OrderInv(c.P, s.tickets, s.pipes[p := pipe], s.inited)
    requires ExitOk(c.P, g, s.tickets, pipe, s.committed)
    ensures Inv(c, g, SetPipe(s, p, pipe))
  {
    hide StageAt, PipeFor, OrderInv, RingInv, MonitorOk, PoolInv;
    var pipes' := s.pipes[p := pipe];
    PlacesDispatch(c.P, s.pipes, pipes');
    CarryFrame(c.P, g, s.tickets, s.tickets, s.pipes, pipes', s.workers);
    ExitsSet(c.P, g, s.tickets, s.pipes, s.committed, p, pipe);
    PoolPcs(s.pipes, s.pipes[p := pipe], s.workers, s.available);
  }

  /** A pipe in line changes the ticket it stands at as well. */
  lemma MovedTickets(c: Size, g: Program, s: State, p: nat, k: Ticket, pipe: Pipe)
    requires Inv(c, g, s) && p <= c.P && InLine(c, s, p) && Steady(s.pipes[p], pipe)
    requires s.pipes[p].ticket < |s.tickets|
    requires var t := s.pipes[p].ticket;
             && k == s.tickets[t].(passed := k.passed, cno := k.cno)
             && s.tickets[t].passed <= k.passed <= c.P + 1 && k.cno <= s.committed
    ensures TicketsOk(c.P, g, s.tickets[s.pipes[p].ticket := k], s.pipes[p := pipe], s.committed)
  {
    hide StageAt, PipeFor, RingInv, OrderInv, CarryInv, PoolInv, ExitsOk, MonitorOk;
    var t := s.pipes[p].ticket;
    PipeHeld(c, g, s, p);
    PlacesDispatch(c.P, s.pipes, s.pipes[p := pipe]);
    assert TicketOk(c.P, g, k, t, s.committed) by { assert TicketOk(c.P, g, s.tickets[t], t, s.committed); }
  }

  lemma PipeMoves(c: Size, g: Program, s: State, p: nat, k: Ticket, pipe: Pipe)
    requires Inv(c, g, s) && p <= c.P && InLine(c, s, p) && Steady(s.pipes[p], pipe)
    requires s.pipes[p].ticket < |s.tickets|
    requires var t := s.pipes[p].ticket;
             && k == s.tickets[t].(passed := k.passed, cno := k.cno)
             && s.tickets[t].passed <= k.passed <= c.P + 1 && k.cno <= s.committed
             && OrderInv(c.P, s.tickets[t := k], s.pipes[p := pipe], s.inited)
             && ExitOk(c.P, g, s.tickets[t := k], pipe, s.committed)
    ensures Inv(c, g, SetPipe(SetTicket(s, s.pipes[p].ticket, k), p, pipe))
  {
    hide StageAt, PipeFor, RingInv, TicketsOk;
    var t := s.pipes[p].ticket;
    PipeHeld(c, g, s, p);
    var tickets', pipes' := s.tickets[t := k], s.pipes[p := pipe];
    PlacesDispatch(c.P, s.pipes, pipes');
    MovedTickets(c, g, s, p, k, pipe);
    CarryFrame(c.P, g, s.tickets, tickets', s.pipes, pipes', s.workers);
    PipeMovesExits(c, g, s, p, k, pipe);
    hide OrderInv, PoolInv, CarryInv, ExitsOk;
    MonitorFrame(s.tickets, tickets', s.monitor, s.inited, s.committed);
    PoolPcs(s.pipes, s.pipes[p := pipe], s.workers, s.available);
    RingFrame(c, s.tickets, tickets', s.slots, s.inited, s.committed);
  }

  lemma PipeMovesExits(c: Size, g: Program, s: State, p: nat, k: Ticket, pipe: Pipe)
    requires OrderInv(c.P, s.tickets, s.pipes, s.inited) && ExitsOk(c.P, g, s.tickets, s.pipes, s.committed)
    requires p <= c.P && s.pipes[p].ticket < |s.tickets|
    requires var t := s.pipes[p].ticket;
             && s.tickets[t].passed == StageAt(c.P, p, t)
             && Grows(s.tickets, s.tickets[t := k]) && ExitOk(c.P, g, s.tickets[t := k], pipe, s.committed)
    ensures ExitsOk(c.P, g, s.tickets[s.pipes[p].ticket := k], s.pipes[p := pipe], s.committed)
  {
    hide StageAt;
    var t := s.pipes[p].ticket;
    var tickets', pipes' := s.tickets[t := k], s.pipes[p := pipe];
    forall q | 0 <= q < |pipes'| ensures ExitOk(c.P, g, tickets', pipes'[q], s.committed) {
      assert ExitOk(c.P, g, s.tickets, s.pipes[q], s.committed) && PipeOk(c.P, s.pipes, q, s.inited);
      if q != p && s.pipes[q].ticket == t && StageAt(c.P, q, t) == StageAt(c.P, p, t) {
        StageOnce(c.P, p, q, t);
      }
    }
  }

  lemma CacheInv(c: Size, g: Program, s: State, p: nat, pipe: Pipe)
    requires Inv(c, g, s) && p <= c.P && s.pipes[p].pc.Arrive?
    requires pipe == s.pipes[p].(tasks := s.inited) || pipe == s.pipes[p].(pred := s.pipes[p].pace)
    ensures Inv(c, g, SetPipe(s, p, pipe))
  {
    assert PipeOk(c.P, s.pipes, p, s.inited) && ExitOk(c.P, g, s.tickets, s.pipes[p], s.committed);
    OrderCaches(c.P, s.tickets, s.pipes, s.inited, p, pipe);
    hide Inv;
    PipeSets(c, g, s, p, pipe);
  }

  lemma InLineOrder(c: Size, g: Program, s: State, p: nat)
    requires Inv(c, g, s) && p <= c.P && InLine(c, s, p)
    ensures OrderInv(c.P, s.tickets, s.pipes, s.inited) && PipeOk(c.P, s.pipes, p, s.inited)
    ensures s.pipes[p].compl <= s.committed
    ensures s.pipes[p].ticket < |s.tickets| && TicketOk(c.P, g, s.tickets[s.pipes[p].ticket], s.pipes[p].ticket, s.committed)
    ensures s.tickets[s.pipes[p].ticket].phase.Ready?
    ensures StageAt(c.P, p, s.pipes[p].ticket) > 0 ==> s.pipes[p].ticket <= s.pipes[p].pred
  {
    hide StageAt, PipeFor, CarryInv, PoolInv, MonitorOk;
    PipeHeld(c, g, s, p);
    assert ExitOk(c.P, g, s.tickets, s.pipes[p], s.committed);
    assert PipeOk(c.P, s.pipes, p, s.inited);
  }

  lemma RunInv(c: Size, g: Program, s: State, p: nat)
    requires Inv(c, g, s) && Wellsized(c, s) && PipeEnabled(c, s, p, Run)
    ensures Inv(c, g, ApplyPipe(c, g, s, p, Run))
  {
    hide Inv, StageAt, OrderInv;
    PipeHeld(c, g, s, p);
    InLineOrder(c, g, s, p);
    var t := s.pipes[p].ticket;
    var k := s.tickets[t].(passed := s.tickets[t].passed + 1);
    var pipe := s.pipes[p].(pc := Publish);
    OrderPass(c.P, s.tickets, s.pipes, s.inited, p, Publish, k, pipe);
    PipeMoves(c, g, s, p, k, pipe);
  }

  lemma BeginExitInv(c: Size, g: Program, s: State, p: nat)
    requires Inv(c, g, s) && Wellsized(c, s) && PipeEnabled(c, s, p, BeginExit)
    ensures Inv(c, g, ApplyPipe(c, g, s, p, BeginExit))
  {
    hide Inv, StageAt, OrderInv;
    PipeHeld(c, g, s, p);
    InLineOrder(c, g, s, p);
    var t := s.pipes[p].ticket;
    var k := s.tickets[t];
    if Done(g, k, t) {
      var k', pipe := k.(passed := k.passed + 1), s.pipes[p].(pc := StoreAll);
      OrderPass(c.P, s.tickets, s.pipes, s.inited, p, StoreAll, k', pipe);
      PipeMoves(c, g, s, p, k', pipe);
    } else if Tasked(g, k, t) {
      var k', pipe := k.(passed := k.passed + 1, cno := s.pipes[p].compl), s.pipes[p].(pc := Pop);
      OrderPass(c.P, s.tickets, s.pipes, s.inited, p, Pop, k', pipe);
      PipeMoves(c, g, s, p, k', pipe);
      assert s.tickets[t := k.(cno := s.pipes[p].compl)][t := k'] == s.tickets[t := k'];
    } else {
      var k', pipe := k.(cno := s.pipes[p].compl), s.pipes[p].(pc := Await);
      OrderFrame(c.P, s.tickets, s.tickets[t := k'], s.pipes, s.inited);
      OrderCaches(c.P, s.tickets[t := k'], s.pipes, s.inited, p, pipe);
      PipeMoves(c, g, s, p, k', pipe);
    }
  }

  /** The wait ends only when the awaited version has done the stage, whatever
      ticket the polled slot belongs to by then. */
  lemma WaitTells(c: Size, g: Program, s: State, t: nat, stage: nat)
    requires RingInv(c, s.tickets, s.slots, s.inited, s.committed) && Wellsized(c, s) && g.Ok()
    requires 0 < t <= s.inited && stage >= 1 && s.tickets[t].cno <= s.committed
    requires forall u :: 0 <= u < |s.tickets| ==> TicketOk(c.P, g, s.tickets[u], u, s.committed)
    requires WaitOver(c, g, s, t, stage)
    ensures Reached(s.tickets, g.dep(t, s.tickets[t].passed), c.P + 1 + stage)
  {
    var v := g.dep(t, s.tickets[t].passed);
    SlotTells(c, s.tickets, s.slots, s.inited, s.committed, v);
    assert TicketOk(c.P, g, s.tickets[v], v, s.committed);
  }

  lemma WaitLoadInv(c: Size, g: Program, s: State, p: nat)
    requires Inv(c, g, s) && Wellsized(c, s) && PipeEnabled(c, s, p, WaitLoad)
    ensures Inv(c, g, ApplyPipe(c, g, s, p, WaitLoad))
  {
    hide StageAt, PipeFor, OrderInv, PoolInv, CarryInv, MonitorOk;
    PipeHeld(c, g, s, p);
    InLineOrder(c, g, s, p);
    var t := s.pipes[p].ticket;
    assert ExitOk(c.P, g, s.tickets, s.pipes[p], s.committed);
    if WaitOver(c, g, s, t, 1) {
      WaitTells(c, g, s, t, 1);
    }
    var pipe := s.pipes[p].(pc := if WaitOver(c, g, s, t, 1) then Go else Reload);
    assert ExitOk(c.P, g, s.tickets, pipe, s.committed);
    hide RingInv, TicketsOk, ExitsOk, Inv;
    OrderCaches(c.P, s.tickets, s.pipes, s.inited, p, pipe);
    PipeSets(c, g, s, p, pipe);
  }

  lemma LoadCommittedInv(c: Size, g: Program, s: State, p: nat)
    requires Inv(c, g, s) && Wellsized(c, s) && PipeEnabled(c, s, p, LoadCommitted)
    ensures Inv(c, g, ApplyPipe(c, g, s, p, LoadCommitted))
  {
    hide StageAt, PipeFor, OrderInv, PoolInv, CarryInv, MonitorOk, RingInv;
    PipeHeld(c, g, s, p);
    InLineOrder(c, g, s, p);
    var t := s.pipes[p].ticket;
    assert ExitOk(c.P, g, s.tickets, s.pipes[p], s.committed);
    var k, pipe := s.tickets[t].(cno := s.committed), s.pipes[p].(pc := Await);
    hide Inv, TicketsOk, ExitsOk;
    OrderFrame(c.P, s.tickets, s.tickets[t := k], s.pipes, s.inited);
    OrderCaches(c.P, s.tickets[t := k], s.pipes, s.inited, p, pipe);
    PipeMoves(c, g, s, p, k, pipe);
  }

  lemma RunExitInv(c: Size, g: Program, s: State, p: nat)
    requires Inv(c, g, s) && Wellsized(c, s) && PipeEnabled(c, s, p, RunExit)
    ensures Inv(c, g, ApplyPipe(c, g, s, p, RunExit))
  {
    hide StageAt, PipeFor, OrderInv, PoolInv, CarryInv, MonitorOk, RingInv;
    PipeHeld(c, g, s, p);
    InLineOrder(c, g, s, p);
    var t := s.pipes[p].ticket;
    assert ExitOk(c.P, g, s.tickets, s.pipes[p], s.committed);
    var k, pipe := s.tickets[t].(passed := s.tickets[t].passed + 1), s.pipes[p].(pc := Pop, compl := s.tickets[t].cno);
    hide Inv, TicketsOk, ExitsOk;
    OrderPass(c.P, s.tickets, s.pipes, s.inited, p, Pop, k, pipe);
    PipeMoves(c, g, s, p, k, pipe);
  }

  lemma AdvancePlaces(c: Size, s: State, p: nat)
    requires Wellsized(c, s) && PipeEnabled(c, s, p, Advance) && StageAt(c.P, p, s.pipes[p].ticket) < c.P
    ensures var pipes' := ApplyAdvance(c, s, p).pipes;
            && |pipes'| == c.P + 1
            && (forall u: nat :: Dispatched(c.P, pipes', u) == Dispatched(c.P, s.pipes, u))
  {
    hide StageAt, PipeFor;
    var pipes, t := s.pipes, s.pipes[p].ticket;
    var pipe := pipes[p].(pc := Arrive, ticket := t + 1);
    forall u: nat
      ensures Dispatched(c.P, ApplyAdvance(c, s, p).pipes, u) == Dispatched(c.P, pipes, u)
    {
      LeaveDispatches(c.P, pipes, p, pipe, u);
      PlacesDispatch(c.P, pipes[p := pipe], ApplyAdvance(c, s, p).pipes);
    }
  }

  lemma AdvanceExits(c: Size, g: Program, s: State, p: nat)
    requires Wellsized(c, s) && PipeEnabled(c, s, p, Advance) && ExitsOk(c.P, g, s.tickets, s.pipes, s.committed)
    ensures ExitsOk(c.P, g, s.tickets, ApplyAdvance(c, s, p).pipes, s.committed)
  {
    var pipes' := ApplyAdvance(c, s, p).pipes;
    forall r | 0 <= r < |pipes'| ensures ExitOk(c.P, g, s.tickets, pipes'[r], s.committed) {
      assert ExitOk(c.P, g, s.tickets, s.pipes[r], s.committed);
    }
  }

  lemma AdvanceInv(c: Size, g: Program, s: State, p: nat)
    requires Inv(c, g, s) && Wellsized(c, s) && PipeEnabled(c, s, p, Advance)
    ensures Inv(c, g, ApplyPipe(c, g, s, p, Advance))
  {
    hide StageAt, PipeFor, RingInv, MonitorOk, OrderInv, CarryInv, PoolInv, ExitsOk, TicketsOk;
    var s' := ApplyAdvance(c, s, p);
    PipeHere(c, s, p);
    OrderAdvance(c, s, p);
    AdvancePlaces(c, s, p);
    CarryFrame(c.P, g, s.tickets, s.tickets, s.pipes, s'.pipes, s.workers);
    PoolPcs(s.pipes, s'.pipes, s.workers, s.available);
    AdvanceExits(c, g, s, p);
    TicketsPlaces(c.P, g, s.tickets, s.pipes, s'.pipes, s.committed);
  }

  lemma PipeHere(c: Size, s: State, p: nat)
    requires OrderInv(c.P, s.tickets, s.pipes, s.inited) && p <= c.P
    ensures PipeOk(c.P, s.pipes, p, s.inited)
  {
  }

  /** Two pipes are never both at the pool. */
  lemma OneAtPool(c: Size, g: Program, s: State, p: nat, q: nat)
    requires Inv(c, g, s) && p <= c.P && q <= c.P
    requires s.pipes[p].pc.Pop? || s.pipes[p].pc.Dispatch?
    requires s.pipes[q].pc.Pop? || s.pipes[q].pc.Dispatch?
    ensures p == q
  {
    hide StageAt, PipeFor, RingInv, MonitorOk, WorkInv;
    assert PipeOk(c.P, s.pipes, p, s.inited) && PipeOk(c.P, s.pipes, q, s.inited);
    ExitsAreSerial(c.P, s.tickets, s.pipes, s.inited, p, q);
  }

  lemma PopWorkerInv(c: Size, g: Program, s: State, p: nat)
    requires Inv(c, g, s) && Wellsized(c, s) && PipeEnabled(c, s, p, PopWorker)
    ensures Inv(c, g, ApplyPipe(c, g, s, p, PopWorker))
  {
    hide StageAt, PipeFor, RingInv, MonitorOk, OrderInv, CarryInv, PoolInv, TicketsOk;
    var pipe := s.pipes[p].(pc := Dispatch(s.available[0]));
    forall q | 0 <= q < |s.pipes| && s.pipes[q].pc.Dispatch? ensures false {
      OneAtPool(c, g, s, p, q);
    }
    PoolTake(s.pipes, s.workers, s.available, p, pipe);
    LeavingHeld(c, g, s, p);
    PipeHere(c, s, p);
    assert ExitOk(c.P, g, s.tickets, s.pipes[p], s.committed);
    OrderCaches(c.P, s.tickets, s.pipes, s.inited, p, pipe);
    PlacesDispatch(c.P, s.pipes, s.pipes[p := pipe]);
    CarryFrame(c.P, g, s.tickets, s.tickets, s.pipes, s.pipes[p := pipe], s.workers);
    ExitsSet(c.P, g, s.tickets, s.pipes, s.committed, p, pipe);
    TicketsPlaces(c.P, g, s.tickets, s.pipes, s.pipes[p := pipe], s.committed);
  }

  lemma TicketsPlaces(P: nat, g: Program, tickets: seq<Ticket>, pipes: seq<Pipe>, pipes': seq<Pipe>, committed: nat)
    requires TicketsOk(P, g, tickets, pipes, committed) && |pipes'| == P + 1
    requires forall u: nat :: Dispatched(P, pipes', u) == Dispatched(P, pipes, u)
    ensures TicketsOk(P, g, tickets, pipes', committed)
  {
    hide PipeFor;
  }

  /** The exit pipe lets go of its ticket. */
  lemma LeaveTickets(c: Size, g: Program, s: State, p: nat, k: Ticket, pipe: Pipe)
    requires Inv(c, g, s) && p <= c.P && StageAt(c.P, p, s.pipes[p].ticket) == c.P
    requires s.pipes[p].ticket < |s.tickets|
    requires pipe == s.pipes[p].(pc := Arrive, ticket := s.pipes[p].ticket + 1)
    requires var t := s.pipes[p].ticket;
             TicketOk(c.P, g, k, t, s.committed) && Grows(s.tickets, s.tickets[t := k]) && k.phase.Ready? && k.passed == s.tickets[t].passed
    ensures TicketsOk(c.P, g, s.tickets[s.pipes[p].ticket := k], s.pipes[p := pipe], s.committed)
    ensures ExitsOk(c.P, g, s.tickets[s.pipes[p].ticket := k], s.pipes[p := pipe], s.committed)
  {
    hide StageAt, PipeFor, CarryInv, PoolInv, RingInv, MonitorOk;
    var t := s.pipes[p].ticket;
    var tickets', pipes' := s.tickets[t := k], s.pipes[p := pipe];
    forall u | 1 <= u < |tickets'| && !Dispatched(c.P, pipes', u) ensures Fresh(c.P, tickets'[u]) {
      LeaveDispatches(c.P, s.pipes, p, pipe, u);
    }
    forall q | 0 <= q < |pipes'| ensures ExitOk(c.P, g, tickets', pipes'[q], s.committed) {
      assert ExitOk(c.P, g, s.tickets, s.pipes[q], s.committed) && PipeOk(c.P, s.pipes, q, s.inited);
      if s.pipes[q].ticket == t && StageAt(c.P, q, t) == c.P {
        StageOnce(c.P, p, q, t);
      }
    }
  }

  lemma TicketHere(P: nat, g: Program, tickets: seq<Ticket>, pipes: seq<Pipe>, committed: nat, t: nat)
    requires TicketsOk(P, g, tickets, pipes, committed) && t < |tickets|
    ensures TicketOk(P, g, tickets[t], t, committed)
  {
  }

  lemma HandOverInv(c: Size, g: Program, s: State, p: nat)
    requires Inv(c, g, s) && Wellsized(c, s) && PipeEnabled(c, s, p, HandOver)
    ensures Inv(c, g, ApplyPipe(c, g, s, p, HandOver))
  {
    hide StageAt, PipeFor, CarryInv, TicketsOk, ExitsOk, PoolInv, OrderInv, RingInv, MonitorOk;
    var t, w := s.pipes[p].ticket, s.pipes[p].pc.w;
    LeavingHeld(c, g, s, p);
    var k := s.tickets[t].(carrier := w);
    var pipe := s.pipes[p].(pc := Arrive, ticket := t + 1);
    var tickets', pipes' := s.tickets[t := k], s.pipes[p := pipe];
    TicketHere(c.P, g, s.tickets, s.pipes, s.committed, t);
    LeaveTickets(c, g, s, p, k, pipe);
    HandOverCarry(c, g, s, p);
    HandOverPool(c, g, s, p);
    OrderLeave(c.P, s.tickets, s.pipes, s.inited, p, pipe);
    OrderFrame(c.P, s.tickets, tickets', pipes', s.inited);
    RingFrame(c, s.tickets, tickets', s.slots, s.inited, s.committed);
    MonitorFrame(s.tickets, tickets', s.monitor, s.inited, s.committed);
  }

  lemma HandOverPool(c: Size, g: Program, s: State, p: nat)
    requires Inv(c, g, s) && Wellsized(c, s) && PipeEnabled(c, s, p, HandOver)
    ensures var s' := ApplyPipe(c, g, s, p, HandOver);
            PoolInv(s'.pipes, s'.workers, s'.available)
  {
    hide StageAt, PipeFor, TicketsOk, ExitsOk, RingInv, MonitorOk, OrderInv;
    LeavingHeld(c, g, s, p);
    var w := s.pipes[p].pc.w;
    assert Over(s.tickets, s.workers[w].last);
    forall q | 0 <= q < |s.pipes| && s.pipes[q].pc.Dispatch? ensures q == p {
      OneAtPool(c, g, s, p, q);
    }
    PoolGive(s.pipes, s.workers, s.available, p, s.pipes[p].(pc := Arrive, ticket := s.pipes[p].ticket + 1),
             s.workers[w].(tid := s.pipes[p].ticket));
  }

  lemma HandOverCarry(c: Size, g: Program, s: State, p: nat)
    requires Inv(c, g, s) && Wellsized(c, s) && PipeEnabled(c, s, p, HandOver)
    ensures var s' := ApplyPipe(c, g, s, p, HandOver);
            CarryInv(c.P, g, s'.tickets, s'.pipes, s'.workers)
  {
    hide StageAt, PipeFor, TicketsOk, ExitsOk, RingInv, MonitorOk, OrderInv;
    var t, w := s.pipes[p].ticket, s.pipes[p].pc.w;
    LeavingHeld(c, g, s, p);
    var k := s.tickets[t].(carrier := w);
    var pipe := s.pipes[p].(pc := Arrive, ticket := t + 1);
    var worker := s.workers[w].(tid := t);
    var tickets', pipes', workers' := s.tickets[t := k], s.pipes[p := pipe], s.workers[w := worker];
    assert Over(s.tickets, s.workers[w].last);
    forall u: nat
      ensures Dispatched(c.P, pipes', u) <==> Dispatched(c.P, s.pipes, u) || u == t
    {
      LeaveDispatches(c.P, s.pipes, p, pipe, u);
    }
    forall v | 0 <= v < |workers'| && Working(workers'[v])
      ensures Job(workers'[v]) < |tickets'| && Dispatched(c.P, pipes', Job(workers'[v])) && JobOk(c.P, g, tickets', workers'[v], v)
    {
      if v != w {
        assert JobOk(c.P, g, s.tickets, s.workers[v], v);
      }
    }
    forall u | 1 <= u < |tickets'| && Dispatched(c.P, pipes', u) && !Finished(tickets'[u])
      ensures Carried(workers', tickets'[u].carrier, u)
    {
      if u != t {
        assert Carried(s.workers, s.tickets[u].carrier, u);
      }
    }
  }

  lemma SkipWorkerInv(c: Size, g: Program, s: State, p: nat)
    requires Inv(c, g, s) && Wellsized(c, s) && PipeEnabled(c, s, p, SkipWorker)
    ensures Inv(c, g, ApplyPipe(c, g, s, p, SkipWorker))
  {
    hide StageAt, PipeFor, CarryInv, TicketsOk, ExitsOk, PoolInv, OrderInv, RingInv, MonitorOk;
    var t := s.pipes[p].ticket;
    LeavingHeld(c, g, s, p);
    var k := s.tickets[t].(stored := All);
    var pipe := s.pipes[p].(pc := Arrive, ticket := t + 1);
    var tickets', pipes' := s.tickets[t := k], s.pipes[p := pipe];
    ExitHere(c.P, g, s.tickets, s.pipes, s.committed, p);
    TicketHere(c.P, g, s.tickets, s.pipes, s.committed, t);
    LeaveTickets(c, g, s, p, k, pipe);
    SkipWorkerCarry(c, g, s, p);
    assert s.tickets[t].(phase := Ready, stored := All) == k;
    RingStore(c, s.tickets, s.slots, s.inited, s.committed, t, All);
    PoolPcs(s.pipes, pipes', s.workers, s.available);
    OrderLeave(c.P, s.tickets, s.pipes, s.inited, p, pipe);
    OrderFrame(c.P, s.tickets, tickets', pipes', s.inited);
    MonitorFrame(s.tickets, tickets', s.monitor, s.inited, s.committed);
  }

  lemma ExitHere(P: nat, g: Program, tickets: seq<Ticket>, pipes: seq<Pipe>, committed: nat, p: nat)
    requires ExitsOk(P, g, tickets, pipes, committed) && p < |pipes|
    ensures ExitOk(P, g, tickets, pipes[p], committed)
  {
  }

  lemma SkipWorkerCarry(c: Size, g: Program, s: State, p: nat)
    requires Inv(c, g, s) && Wellsized(c, s) && PipeEnabled(c, s, p, SkipWorker)
    ensures var s' := ApplyPipe(c, g, s, p, SkipWorker);
            CarryInv(c.P, g, s'.tickets, s'.pipes, s'.workers)
  {
    hide StageAt, PipeFor, TicketsOk, ExitsOk, RingInv, MonitorOk, OrderInv;
    var t := s.pipes[p].ticket;
    LeavingHeld(c, g, s, p);
    var pipe := s.pipes[p].(pc := Arrive, ticket := t + 1);
    var tickets', pipes' := s.tickets[t := s.tickets[t].(stored := All)], s.pipes[p := pipe];
    forall u: nat
      ensures Dispatched(c.P, pipes', u) <==> Dispatched(c.P, s.pipes, u) || u == t
    {
      LeaveDispatches(c.P, s.pipes, p, pipe, u);
    }
    forall v | 0 <= v < |s.workers| && Working(s.workers[v])
      ensures Job(s.workers[v]) < |tickets'| && Dispatched(c.P, pipes', Job(s.workers[v])) && JobOk(c.P, g, tickets', s.workers[v], v)
    {
      assert JobOk(c.P, g, s.tickets, s.workers[v], v);
    }
    forall u | 1 <= u < |tickets'| && Dispatched(c.P, pipes', u) && !Finished(tickets'[u])
      ensures Carried(s.workers, tickets'[u].carrier, u)
    {
      assert Carried(s.workers, s.tickets[u].carrier, u);
    }
  }

  // ---- workers --------------------------------------------------------------

  /** A worker and its ticket move on; stage words are stored apart. */
  lemma WorkerMoves(c: Size, g: Program, s: State, w: nat, k: Ticket, worker: Worker)
    requires Inv(c, g, s) && w < c.workers && Working(s.workers[w]) && !Resting(worker)
    requires Job(s.workers[w]) < |s.tickets|
    requires var t := Job(s.workers[w]);
             && k == s.tickets[t].(passed := k.passed, cno := k.cno, taskDone := k.taskDone, stored := k.stored)
             && s.tickets[t].passed <= k.passed && TicketOk(c.P, g, k, t, s.committed)
             && (Finished(k) ==> worker.pc.Push? && worker.last == t)
             && (worker.pc.Push? ==> worker.last == worker.tid)
             && (!Finished(k) ==> Working(worker) && Job(worker) == t && JobOk(c.P, g, s.tickets[t := k], worker, w))
    ensures var t := Job(s.workers[w]);
            var tickets' := s.tickets[t := k];
            && OrderInv(c.P, tickets', s.pipes, s.inited)
            && WorkInv(c, g, SetWorker(SetTicket(s, t, k), w, worker))
            && MonitorOk(tickets', s.monitor, s.inited, s.committed)
  {
    hide StageAt, PipeFor, RingInv;
    var t := Job(s.workers[w]);
    JobHeld(c, g, s, w);
    var tickets' := s.tickets[t := k];
    WorkerMovesExits(c, g, s, t, k);
    OrderBeyond(c.P, s.tickets, s.pipes, s.inited, t, k);
    CarryStep(c.P, g, s.tickets, s.pipes, s.workers, w, k, worker);
    PoolWorker(s.pipes, s.workers, s.available, w, worker);
    MonitorFrame(s.tickets, tickets', s.monitor, s.inited, s.committed);
  }

  lemma WorkerMovesExits(c: Size, g: Program, s: State, t: nat, k: Ticket)
    requires Inv(c, g, s) && t < |s.tickets| && Dispatched(c.P, s.pipes, t) && Grows(s.tickets, s.tickets[t := k])
    ensures ExitsOk(c.P, g, s.tickets[t := k], s.pipes, s.committed)
  {
    hide StageAt, PipeFor, RingInv, CarryInv, PoolInv, TicketsOk, MonitorOk;
    forall p | 0 <= p < |s.pipes| && !s.pipes[p].pc.Arrive? && !s.pipes[p].pc.Publish?
      ensures SameWork(s.tickets, s.tickets[t := k], s.pipes[p].ticket)
    {
      assert ExitOk(c.P, g, s.tickets, s.pipes[p], s.committed) && PipeOk(c.P, s.pipes, p, s.inited);
      NotYetDispatched(c.P, s.pipes, p);
    }
    ExitsFrame(c.P, g, s.tickets, s.tickets[t := k], s.pipes, s.committed, s.committed);
  }

  /** A step of a worker that stores no stage word keeps its bookkeeping. */
  lemma JobStep(c: Size, g: Program, s: State, w: nat, a: WorkerStep, t: nat)
    requires Wellsized(c, s) && WorkerEnabled(c, g, s, w, a) && !a.StoreStage? && !a.StoreDone? && !a.PushSelf?
    requires t == Job(s.workers[w]) < |s.tickets| && Held(c, s, t) == t && Working(s.workers[w])
    requires JobOk(c.P, g, s.tickets, s.workers[w], w) && TicketOk(c.P, g, s.tickets[t], t, s.committed) && s.tickets[t].stored.At?
    requires a.WWaitLoad? && WaitOver(c, g, s, t, s.workers[w].local + 1) ==>
               Reached(s.tickets, g.dep(t, s.tickets[t].passed), s.tickets[t].passed + 2)
    ensures var s' := ApplyWorker(c, g, s, w, a);
            var k, worker := s'.tickets[t], s'.workers[w];
            && s' == SetWorker(SetTicket(s, t, k), w, worker)
            && k == s.tickets[t].(passed := k.passed, cno := k.cno, taskDone := k.taskDone)
            && s.tickets[t].passed <= k.passed && TicketOk(c.P, g, k, t, s.committed) && !Finished(k)
            && Working(worker) && Job(worker) == t && JobOk(c.P, g, s.tickets[t := k], worker, w)
  {
    var s' := ApplyWorker(c, g, s, w, a);
    assert s.tickets[t := s.tickets[t]] == s.tickets;
    assert a.WWaitLoad? ==> s'.tickets == s.tickets;
  }

  lemma WorkerWaits(c: Size, g: Program, s: State, w: nat)
    requires Inv(c, g, s) && w < c.workers && Working(s.workers[w]) && s.workers[w].pc.WAwait?
    ensures var t := Job(s.workers[w]);
            && t < |s.tickets|
            && (WaitOver(c, g, s, t, s.workers[w].local + 1) ==> Reached(s.tickets, g.dep(t, s.tickets[t].passed), s.tickets[t].passed + 2))
  {
    hide StageAt, PipeFor, OrderInv, CarryInv, PoolInv, ExitsOk, MonitorOk;
    JobHeld(c, g, s, w);
    var t := Job(s.workers[w]);
    TicketHere(c.P, g, s.tickets, s.pipes, s.committed, t);
    if WaitOver(c, g, s, t, s.workers[w].local + 1) {
      WaitTells(c, g, s, t, s.workers[w].local + 1);
    }
  }

  lemma WorkerJob(c: Size, g: Program, s: State, w: nat, a: WorkerStep)
    requires Inv(c, g, s) && Wellsized(c, s) && WorkerEnabled(c, g, s, w, a)
    requires !a.StoreStage? && !a.StoreDone? && !a.PushSelf?
    ensures var s', t := ApplyWorker(c, g, s, w, a), Job(s.workers[w]);
            && t < |s.tickets|
            && var k, worker := s'.tickets[t], s'.workers[w];
               && s' == SetWorker(SetTicket(s, t, k), w, worker)
               && k == s.tickets[t].(passed := k.passed, cno := k.cno, taskDone := k.taskDone)
               && s.tickets[t].passed <= k.passed && TicketOk(c.P, g, k, t, s.committed) && !Finished(k)
               && Working(worker) && Job(worker) == t && JobOk(c.P, g, s.tickets[t := k], worker, w)
  {
    hide StageAt, PipeFor, OrderInv, CarryInv, PoolInv, ExitsOk, MonitorOk, RingInv, TicketsOk, JobOk, TicketOk, ApplyWorker, WaitOver;
    JobHeld(c, g, s, w);
    TicketHere(c.P, g, s.tickets, s.pipes, s.committed, Job(s.workers[w]));
    if a.WWaitLoad? {
      WorkerWaits(c, g, s, w);
    }
    JobStep(c, g, s, w, a, Job(s.workers[w]));
  }

  lemma WorkerInv(c: Size, g: Program, s: State, w: nat, a: WorkerStep)
    requires Inv(c, g, s) && Wellsized(c, s) && WorkerEnabled(c, g, s, w, a)
    requires !a.StoreStage? && !a.StoreDone? && !a.PushSelf?
    ensures Inv(c, g, ApplyWorker(c, g, s, w, a))
  {
    hide StageAt, PipeFor, OrderInv, CarryInv, PoolInv, ExitsOk, MonitorOk, TicketsOk, RingInv, ApplyWorker, JobOk, TicketOk;
    WorkerJob(c, g, s, w, a);
    var s', t := ApplyWorker(c, g, s, w, a), Job(s.workers[w]);
    JobHeld(c, g, s, w);
    WorkerMoves(c, g, s, w, s'.tickets[t], s'.workers[w]);
    RingFrame(c, s.tickets, s'.tickets, s.slots, s.inited, s.committed);
  }

  lemma StoreInv(c: Size, g: Program, s: State, w: nat, a: WorkerStep)
    requires Inv(c, g, s) && Wellsized(c, s) && WorkerEnabled(c, g, s, w, a) && (a.StoreStage? || a.StoreDone?)
    ensures Inv(c, g, ApplyWorker(c, g, s, w, a))
  {
    hide StageAt, PipeFor, OrderInv, CarryInv, PoolInv, ExitsOk, MonitorOk;
    JobHeld(c, g, s, w);
    var t := Job(s.workers[w]);
    assert TicketOk(c.P, g, s.tickets[t], t, s.committed);
    var s' := ApplyWorker(c, g, s, w, a);
    var k, worker := s'.tickets[t], s'.workers[w];
    assert s'.tickets == s.tickets[t := k] && s'.workers == s.workers[w := worker];
    RingStore(c, s.tickets, s.slots, s.inited, s.committed, t, k.stored);
    assert s.tickets[t].(phase := Ready, stored := k.stored) == k;
    hide TicketsOk, RingInv;
    WorkerMoves(c, g, s, w, k, worker);
  }

  lemma PushSelfInv(c: Size, g: Program, s: State, w: nat)
    requires Inv(c, g, s) && Wellsized(c, s) && WorkerEnabled(c, g, s, w, PushSelf)
    ensures Inv(c, g, ApplyWorker(c, g, s, w, PushSelf))
  {
    hide StageAt, PipeFor, OrderInv, ExitsOk, MonitorOk, RingInv, TicketsOk;
    var worker := s.workers[w].(pc := Idle);
    PoolPush(s.pipes, s.workers, s.available, w, worker);
    var workers' := s.workers[w := worker];
    forall v | 0 <= v < |workers'| && Working(workers'[v])
      ensures Job(workers'[v]) < |s.tickets| && Dispatched(c.P, s.pipes, Job(workers'[v])) && JobOk(c.P, g, s.tickets, workers'[v], v)
    {
      assert v != w;
    }
    forall t | 1 <= t < |s.tickets| && Dispatched(c.P, s.pipes, t) && !Finished(s.tickets[t])
      ensures Carried(workers', s.tickets[t].carrier, t)
    {
      assert Carried(s.workers, s.tickets[t].carrier, t);
    }
  }

  // ---- the monitor ----------------------------------------------------------

  lemma ScanInv(c: Size, g: Program, s: State, a: MonitorStep)
    requires Inv(c, g, s) && Wellsized(c, s) && MonitorEnabled(s, a) && !a.RaiseInited? && !a.RaiseCommitted?
    ensures Inv(c, g, ApplyMonitor(c, s, a))
  {
    hide StageAt, PipeFor, OrderInv, CarryInv, PoolInv, ExitsOk, TicketsOk, RingInv;
    var m := s.monitor;
    MonitorBounds(c, s);
    if a.ScanReady? && m.next < m.sub && s.slots[(m.next + 1) % c.ring].stage == At(0) {
      ZeroWordIsReady(c, s.tickets, s.slots, s.inited, s.committed, m.next + 1);
    }
    if a.ScanDone? && m.next < s.inited && s.slots[(m.next + 1) % c.ring].stage == All {
      SlotTells(c, s.tickets, s.slots, s.inited, s.committed, m.next + 1);
      assert AllFinished(s.tickets, m.next + 1);
    }
  }

  lemma MonitorBounds(c: Size, s: State)
    requires RingInv(c, s.tickets, s.slots, s.inited, s.committed)
    ensures s.committed <= s.inited < |s.tickets| && AllReady(s.tickets, s.inited) && AllFinished(s.tickets, s.committed)
  {
  }

  lemma RaiseInv(c: Size, g: Program, s: State, a: MonitorStep)
    requires Inv(c, g, s) && Wellsized(c, s) && MonitorEnabled(s, a) && (a.RaiseInited? || a.RaiseCommitted?)
    ensures Inv(c, g, ApplyMonitor(c, s, a))
  {
    hide StageAt, PipeFor, OrderInv, CarryInv, PoolInv, ExitsOk, TicketsOk, RingInv;
    MonitorBounds(c, s);
    if a.RaiseInited? {
      if s.monitor.next > s.inited {
        OrderInited(c.P, s.tickets, s.pipes, s.inited, s.monitor.next);
        RaisedRing(c, s.tickets, s.slots, s.inited, s.committed, s.monitor.next, s.committed);
      }
    } else {
      RaisedRing(c, s.tickets, s.slots, s.inited, s.committed, s.inited, s.monitor.next);
      RaisedWork(c, g, s, s.monitor.next);
    }
  }

  lemma RaisedRing(c: Size, tickets: seq<Ticket>, slots: seq<Slot>, inited: nat, committed: nat, inited': nat, committed': nat)
    requires RingInv(c, tickets, slots, inited, committed)
    requires inited <= inited' < |tickets| && AllReady(tickets, inited')
    requires committed <= committed' <= inited' && (committed' > committed ==> AllFinished(tickets, committed'))
    ensures RingInv(c, tickets, slots, inited', committed')
  {
  }

  lemma RaisedWork(c: Size, g: Program, s: State, committed: nat)
    requires Inv(c, g, s) && s.committed <= committed
    ensures TicketsOk(c.P, g, s.tickets, s.pipes, committed) && ExitsOk(c.P, g, s.tickets, s.pipes, committed)
  {
    hide StageAt, PipeFor, OrderInv, CarryInv, PoolInv, RingInv, MonitorOk;
    forall p | 0 <= p < |s.pipes| ensures ExitOk(c.P, g, s.tickets, s.pipes[p], committed) {
      assert ExitOk(c.P, g, s.tickets, s.pipes[p], s.committed);
    }
    forall t | 0 <= t < |s.tickets| ensures TicketOk(c.P, g, s.tickets[t], t, committed) {
      assert TicketOk(c.P, g, s.tickets[t], t, s.committed);
    }
  }

  // ---- runs -----------------------------------------------------------------

  lemma StepInv(c: Size, g: Program, s: State, a: Action)
    requires Inv(c, g, s) && Wellsized(c, s) && Enabled(c, g, s, a)
    ensures Inv(c, g, Apply(c, g, s, a))
  {
    hide Inv;
    match a {
      case Submit => SubmitInv(c, g, s);
      case OfClient(t, b) => ClientInv(c, g, s, t, b);
      case OfPipe(p, b) => PipeStepInv(c, g, s, p, b);
      case OfWorker(w, b) =>
        match b {
          case PushSelf => PushSelfInv(c, g, s, w);
          case StoreStage => StoreInv(c, g, s, w, b);
          case StoreDone => StoreInv(c, g, s, w, b);
          case _ => WorkerInv(c, g, s, w, b);
        }
      case OfMonitor(b) =>
        match b {
          case RaiseInited => RaiseInv(c, g, s, b);
          case RaiseCommitted => RaiseInv(c, g, s, b);
          case _ => ScanInv(c, g, s, b);
        }
    }
  }

  lemma PipeStepInv(c: Size, g: Program, s: State, p: nat, a: PipeStep)
    requires Inv(c, g, s) && Wellsized(c, s) && PipeEnabled(c, s, p, a)
    ensures Inv(c, g, ApplyPipe(c, g, s, p, a))
  {
    hide Inv;
    match a {
      case LoadTasks => CacheInv(c, g, s, p, s.pipes[p].(tasks := s.inited));
      case LoadPace => CacheInv(c, g, s, p, s.pipes[p].(pred := s.pipes[p].pace));
      case Run => RunInv(c, g, s, p);
      case Advance => AdvanceInv(c, g, s, p);
      case BeginExit => BeginExitInv(c, g, s, p);
      case WaitLoad => WaitLoadInv(c, g, s, p);
      case LoadCommitted => LoadCommittedInv(c, g, s, p);
      case RunExit => RunExitInv(c, g, s, p);
      case PopWorker => PopWorkerInv(c, g, s, p);
      case HandOver => HandOverInv(c, g, s, p);
      case SkipWorker => SkipWorkerInv(c, g, s, p);
    }
  }

  /** Every reachable state is well-ordered, whatever the interleaving. */
  lemma {:induction false} Invariant(c: Size, g: Program, states: seq<State>, actions: seq<Action>, n: nat)
    requires Execution(c, g, states, actions) && n < |states|
    ensures Inv(c, g, states[n])
  {
    hide Inv;
    if n == 0 {
      InitInv(c, g);
    } else {
      Invariant(c, g, states, actions, n - 1);
      StepInv(c, g, states[n-1], actions[n-1]);
    }
  }

  /** The handler steps, with the thread's ticket and the stage it performs. */
  predicate Performs(c: Size, g: Program, s: State, a: Action, t: nat, j: nat)
    requires Wellsized(c, s)
  {
    match a
    case OfPipe(p, Run) => p <= c.P && t == s.pipes[p].ticket && j == StageAt(c.P, p, t)
    case OfPipe(p, RunExit) => p <= c.P && t == s.pipes[p].ticket && j == c.P
    case OfWorker(w, WRun) => w < c.workers && t == s.workers[w].ticket && j == c.P + s.workers[w].local
    case _ => false
  }

  ghost predicate AllReached(tickets: seq<Ticket>, t: nat, n: nat) {
    forall u: nat :: u < t ==> Reached(tickets, u, n)
  }

  /** Pipeline safety. When a handler is about to perform stage j of ticket t,
      it works on t's own context, and on exactly that stage; in the pipes
      every earlier ticket, and past them the ticket that stamped the node to
      be read, has performed stage j+1 or all the stages it has. */
  lemma StagesInOrder(c: Size, g: Program, states: seq<State>, actions: seq<Action>, n: nat, t: nat, j: nat)
    requires Execution(c, g, states, actions) && n < |actions|
    requires Wellsized(c, states[n]) && Performs(c, g, states[n], actions[n], t, j)
    ensures var s := states[n];
            && states[n].committed < t <= s.inited && Held(c, s, t) == t
            && s.tickets[t].passed == j && states[n+1].tickets == s.tickets[t := s.tickets[t].(passed := j + 1)]
            && (j < c.P ==> AllReached(s.tickets, t, j + 2))
            && (j >= c.P ==> j < g.stages(t) && Reached(s.tickets, g.dep(t, j), j + 2))
  {
    hide Inv, StageAt;
    var s, a := states[n], actions[n];
    Invariant(c, g, states, actions, n);
    match a {
      case OfPipe(p, Run) => PipeRunsInOrder(c, g, s, p);
      case OfPipe(p, RunExit) => PipeExitsInOrder(c, g, s, p);
      case OfWorker(w, WRun) => WorkerRunsInOrder(c, g, s, w);
    }
  }

  lemma PipeRunsInOrder(c: Size, g: Program, s: State, p: nat)
    requires Inv(c, g, s) && Wellsized(c, s) && PipeEnabled(c, s, p, Run)
    ensures var t := s.pipes[p].ticket;
            && s.committed < t <= s.inited && Held(c, s, t) == t && s.tickets[t].passed == StageAt(c.P, p, t)
            && AllReached(s.tickets, t, StageAt(c.P, p, t) + 2)
  {
    hide StageAt, PipeFor, RingInv, WorkInv, MonitorOk;
    PipeHeld(c, g, s, p);
    var n := StageAt(c.P, p, s.pipes[p].ticket) + 2;
    forall u: nat | u < s.pipes[p].ticket
      ensures Reached(s.tickets, u, n)
    {
      EarlierTicketsAreAhead(c.P, s.tickets, s.pipes, s.inited, p, u);
    }
  }

  lemma PipeExitsInOrder(c: Size, g: Program, s: State, p: nat)
    requires Inv(c, g, s) && Wellsized(c, s) && PipeEnabled(c, s, p, RunExit)
    ensures var t := s.pipes[p].ticket;
            && s.committed < t <= s.inited && Held(c, s, t) == t && s.tickets[t].passed == c.P < g.stages(t)
            && Reached(s.tickets, g.dep(t, c.P), c.P + 2)
  {
    hide StageAt, PipeFor, RingInv, OrderInv, CarryInv, PoolInv, TicketsOk, MonitorOk;
    PipeHeld(c, g, s, p);
    ExitHere(c.P, g, s.tickets, s.pipes, s.committed, p);
  }

  lemma WorkerRunsInOrder(c: Size, g: Program, s: State, w: nat)
    requires Inv(c, g, s) && Wellsized(c, s) && WorkerEnabled(c, g, s, w, WRun)
    ensures var t := s.workers[w].ticket;
            && s.committed < t <= s.inited && Held(c, s, t) == t && s.tickets[t].passed == c.P + s.workers[w].local
            && s.tickets[t].passed < g.stages(t)
            && Reached(s.tickets, g.dep(t, s.tickets[t].passed), s.tickets[t].passed + 2)
  {
    hide StageAt, PipeFor, RingInv, OrderInv, PoolInv, ExitsOk, TicketsOk, MonitorOk;
    JobHeld(c, g, s, w);
  }

  /** The entry takes its tree from the context of the ticket before it, which
      has performed its first two stages and is still in the ring. */
  lemma EntryReadsPreviousTicket(c: Size, g: Program, states: seq<State>, actions: seq<Action>, n: nat, p: nat)
    requires Execution(c, g, states, actions) && n < |actions| && actions[n] == OfPipe(p, Run)
    requires Wellsized(c, states[n]) && p <= c.P && StageAt(c.P, p, states[n].pipes[p].ticket) == 0
    ensures var s, t := states[n], states[n].pipes[p].ticket;
            t >= 1 && Held(c, s, t - 1) == t - 1 && Reached(s.tickets, t - 1, 2)
  {
    hide StageAt, PipeFor, WorkInv, MonitorOk;
    Invariant(c, g, states, actions, n);
    var s := states[n];
    PipeRunsInOrder(c, g, s, p);
    HeldIs(c, s, s.pipes[p].ticket - 1);
  }

  /** The monitor retires, and publishes, what the committed tickets left in
      their own contexts: when it has scanned up to a ticket, that ticket is
      done and its context has not been reused. */
  lemma MonitorReadsOwnContexts(c: Size, g: Program, states: seq<State>, actions: seq<Action>, n: nat)
    requires Execution(c, g, states, actions) && n < |states|
    requires states[n].monitor.pc.ScanCommitted? || states[n].monitor.pc.PublishRoot? || states[n].monitor.pc.StoreCommitted?
    ensures var s, next := states[n], states[n].monitor.next;
            && c.ring > 0 && |s.slots| == c.ring && next < |s.tickets|
            && forall t :: s.committed <= t <= next ==> Held(c, s, t) == t && Finished(s.tickets[t])
  {
    hide StageAt, PipeFor, WorkInv, OrderInv;
    Invariant(c, g, states, actions, n);
    var s := states[n];
    forall t | s.committed <= t <= s.monitor.next
      ensures Held(c, s, t) == t
    {
      HeldIs(c, s, t);
    }
  }

  /** Ring reuse: a context is overwritten only when its ticket is committed,
      and every ticket from the last committed one on is intact. */
  lemma ContextsOutliveTickets(c: Size, g: Program, states: seq<State>, actions: seq<Action>, n: nat, t: nat)
    requires Execution(c, g, states, actions) && n < |actions| && actions[n] == OfClient(t, Fill)
    requires Wellsized(c, states[n])
    ensures var v := Held(c, states[n], t);
            Finished(states[n].tickets[v]) && (v < states[n].committed || v == 0)
    ensures var s' := states[n+1];
            && c.ring > 0 && |s'.slots| == c.ring
            && forall u :: s'.committed <= u < |s'.tickets| && InRing(s'.tickets[u]) ==> Held(c, s', u) == u
  {
    hide StageAt, PipeFor, WorkInv, OrderInv, MonitorOk;
    Invariant(c, g, states, actions, n);
    Invariant(c, g, states, actions, n + 1);
    var s := states[n];
    OverwritesCommitted(c, s.tickets, s.slots, s.inited, s.committed, t);
    assert SlotOk(c, s.tickets, s.slots[t % c.ring], t % c.ring);
  }

  /** One consumer: two pipes are never both at the worker pool, and a worker
      is handed over only when it is at rest. */
  lemma PoolHasOneConsumer(c: Size, g: Program, states: seq<State>, actions: seq<Action>, n: nat, p: nat, q: nat)
    requires Execution(c, g, states, actions) && n < |states| && p <= c.P && q <= c.P && |states[n].pipes| == c.P + 1
    requires states[n].pipes[p].pc.Pop? || states[n].pipes[p].pc.Dispatch?
    requires states[n].pipes[q].pc.Pop? || states[n].pipes[q].pc.Dispatch?
    ensures p == q
    ensures states[n].pipes[p].pc.Dispatch? ==>
              states[n].pipes[p].pc.w < |states[n].workers| && Resting(states[n].workers[states[n].pipes[p].pc.w])
  {
    hide StageAt, PipeFor, RingInv, OrderInv, TicketsOk, CarryInv, ExitsOk, MonitorOk;
    Invariant(c, g, states, actions, n);
    OneAtPool(c, g, states[n], p, q);
  }
}
