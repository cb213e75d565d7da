/** Carrying tickets past the pipes: each is handed to one worker, which alone
    advances it until its context is done. */
module CyclicWork {
  import opened Cyclic
  import opened CyclicOrder

  /** The exit pipe has let go of the ticket. */
  predicate Dispatched(P: nat, pipes: seq<Pipe>, t: nat)
    requires |pipes| == P + 1
  {
    t < pipes[PipeFor(P, P, t)].ticket
  }

  predicate Finished(k: Ticket) {
    k.phase.Ready? && k.stored.All?
  }

  /** Ticket v has performed n stages, or all it has. */
  predicate Reached(tickets: seq<Ticket>, v: nat, n: nat) {
    v < |tickets| && (Finished(tickets[v]) || tickets[v].passed >= n)
  }

  predicate Resting(worker: Worker) {
    worker.pc.Idle? && worker.tid == worker.last
  }

  predicate Working(worker: Worker) {
    !Resting(worker) && !worker.pc.Push?
  }

  function Job(worker: Worker): nat {
    if worker.pc.Idle? then worker.tid else worker.ticket
  }

  // ---- tickets --------------------------------------------------------------

  predicate TicketOk(P: nat, g: Program, k: Ticket, t: nat, committed: nat) {
    && (!k.phase.Ready? ==> k.passed == 0 && !k.taskDone)
    && (Finished(k) ==> k.passed > P && Done(g, k, t))
    && (k.stored.At? && k.stored.n > 0 ==> k.passed >= P + 1 + k.stored.n)
    && k.cno <= committed
  }

  ghost predicate TicketsOk(P: nat, g: Program, tickets: seq<Ticket>, pipes: seq<Pipe>, committed: nat) {
    && |pipes| == P + 1
    && (forall t :: 0 <= t < |tickets| ==> TicketOk(P, g, tickets[t], t, committed))
    && (forall t :: 1 <= t < |tickets| && !Dispatched(P, pipes, t) ==> Fresh(P, tickets[t]))
  }

  predicate Fresh(P: nat, k: Ticket) {
    k.passed <= P + 1 && !k.taskDone && (k.phase.Ready? ==> k.stored == At(0))
  }

  // ---- workers --------------------------------------------------------------

  predicate JobOk(P: nat, g: Program, tickets: seq<Ticket>, worker: Worker, w: nat)
    requires Job(worker) < |tickets|
  {
    var t := Job(worker);
    var k := tickets[t];
    && t >= 1 && k.phase.Ready? && k.passed > P && k.carrier == w
    && (worker.pc.Idle? ==> k.passed == P + 1 && k.stored == At(0))
    && (!worker.pc.Idle? ==>
          && worker.tid == t && worker.local >= 1 && k.stored == At(worker.local - 1)
          && k.passed == P + worker.local + (if worker.pc.Store? then 1 else 0)
          && (worker.pc.Finish? ==> Done(g, k, t))
          && (worker.pc.Task? ==> Tasked(g, k, t))
          && (worker.pc.WAwait? || worker.pc.WReload? || worker.pc.WGo? ==> Structural(g, k, t))
          && (worker.pc.WGo? ==> Reached(tickets, g.dep(t, k.passed), k.passed + 2)))
  }

  ghost predicate CarryInv(P: nat, g: Program, tickets: seq<Ticket>, pipes: seq<Pipe>, workers: seq<Worker>) {
    && |pipes| == P + 1
    && (forall t :: 1 <= t < |tickets| && Dispatched(P, pipes, t) && !Finished(tickets[t]) ==> Carried(workers, tickets[t].carrier, t))
    && (forall w :: 0 <= w < |workers| && Working(workers[w]) ==>
          Job(workers[w]) < |tickets| && Dispatched(P, pipes, Job(workers[w])) && JobOk(P, g, tickets, workers[w], w))
    && (forall w :: 0 <= w < |workers| && !Working(workers[w]) ==> Over(tickets, workers[w].last))
  }

  predicate Over(tickets: seq<Ticket>, t: nat) {
    t < |tickets| && Finished(tickets[t])
  }

  predicate Carried(workers: seq<Worker>, w: nat, t: nat) {
    w < |workers| && Working(workers[w]) && Job(workers[w]) == t
  }

  // ---- the pool -------------------------------------------------------------

  ghost predicate PoolInv(pipes: seq<Pipe>, workers: seq<Worker>, available: seq<nat>) {
    && (forall i, j :: 0 <= i < j < |available| ==> available[i] != available[j])
    && (forall i :: 0 <= i < |available| ==> available[i] < |workers| && Resting(workers[available[i]]))
    && (forall p :: 0 <= p < |pipes| && pipes[p].pc.Dispatch? ==>
          pipes[p].pc.w < |workers| && Resting(workers[pipes[p].pc.w]) && pipes[p].pc.w !in available)
    && (forall w :: 0 <= w < |workers| && workers[w].pc.Push? ==> workers[w].last == workers[w].tid)
    && (forall w :: 0 <= w < |workers| && Resting(workers[w]) && w !in available ==> Grabbed(pipes, w))
  }

  ghost predicate Grabbed(pipes: seq<Pipe>, w: nat) {
    exists p :: 0 <= p < |pipes| && pipes[p].pc == Dispatch(w)
  }

  // ---- exits ----------------------------------------------------------------

  predicate ExitOk(P: nat, g: Program, tickets: seq<Ticket>, pipe: Pipe, committed: nat) {
    && pipe.compl <= committed
    && (!pipe.pc.Arrive? && !pipe.pc.Publish? ==>
          && pipe.ticket < |tickets|
          && var k := tickets[pipe.ticket];
             && k.phase.Ready?
             && (pipe.pc.Await? || pipe.pc.Reload? || pipe.pc.Go? ==> k.passed == P && Structural(g, k, pipe.ticket))
             && (pipe.pc.Go? ==> Reached(tickets, g.dep(pipe.ticket, P), P + 2))
             && (pipe.pc.Pop? || pipe.pc.Dispatch? || pipe.pc.StoreAll? ==> k.passed == P + 1)
             && (pipe.pc.StoreAll? ==> Done(g, k, pipe.ticket)))
  }

  ghost predicate ExitsOk(P: nat, g: Program, tickets: seq<Ticket>, pipes: seq<Pipe>, committed: nat) {
    forall p :: 0 <= p < |pipes| ==> ExitOk(P, g, tickets, pipes[p], committed)
  }

  ghost predicate WorkInv(c: Size, g: Program, s: State) {
    && TicketsOk(c.P, g, s.tickets, s.pipes, s.committed)
    && CarryInv(c.P, g, s.tickets, s.pipes, s.workers)
    && PoolInv(s.pipes, s.workers, s.available)
    && ExitsOk(c.P, g, s.tickets, s.pipes, s.committed)
  }

  // ---- growth ---------------------------------------------------------------

  ghost predicate Grows(a: seq<Ticket>, b: seq<Ticket>) {
    && |a| <= |b|
    && (forall t :: 0 <= t < |a| ==> a[t].passed <= b[t].passed && (Finished(a[t]) ==> Finished(b[t])))
  }

  lemma DispatchedMeans(P: nat, tickets: seq<Ticket>, pipes: seq<Pipe>, inited: nat, t: nat)
    requires OrderInv(P, tickets, pipes, inited) && 0 <= t
    ensures Dispatched(P, pipes, t) ==> t <= inited && tickets[t].passed > P
  {
    hide StageAt;
    var p := PipeFor(P, P, t);
    assert PipeOk(P, pipes, p, inited);
    if Dispatched(P, pipes, t) {
      assert Past(pipes[p], t);
      assert StageAt(P, p, t) < tickets[t].passed;
    }
  }

  /** A pipe at an exit has not let go of its ticket. */
  lemma NotYetDispatched(P: nat, pipes: seq<Pipe>, p: nat)
    requires |pipes| == P + 1 && p <= P && StageAt(P, p, pipes[p].ticket) == P
    ensures !Dispatched(P, pipes, pipes[p].ticket)
  {
    StageOnce(P, p, PipeFor(P, P, pipes[p].ticket), pipes[p].ticket);
  }

  /** Handing over a ticket dispatches that ticket and no other. */
  lemma LeaveDispatches(P: nat, pipes: seq<Pipe>, p: nat, pipe: Pipe, t: nat)
    requires |pipes| == P + 1 && p <= P && pipe.ticket == pipes[p].ticket + 1
    ensures Dispatched(P, pipes[p := pipe], t)
            <==> Dispatched(P, pipes, t) || (t == pipes[p].ticket && StageAt(P, p, t) == P)
  {
    if t == pipes[p].ticket && StageAt(P, p, t) == P {
      StageOnce(P, p, PipeFor(P, P, t), t);
    }
  }

  ghost predicate SamePlaces(a: seq<Pipe>, b: seq<Pipe>) {
    |a| == |b| && forall p :: 0 <= p < |a| ==> a[p].ticket == b[p].ticket
  }

  // ---- frames ---------------------------------------------------------------

  /** What happens to tickets no worker carries. */
  lemma CarryFrame(P: nat, g: Program, tickets: seq<Ticket>, tickets': seq<Ticket>, pipes: seq<Pipe>, pipes': seq<Pipe>, workers: seq<Worker>)
    requires CarryInv(P, g, tickets, pipes, workers) && |pipes'| == P + 1 && Grows(tickets, tickets')
    requires forall t :: 0 <= t < |tickets'| ==> Dispatched(P, pipes', t) == Dispatched(P, pipes, t)
    requires forall t :: 0 <= t < |tickets| && Dispatched(P, pipes, t) ==> tickets'[t] == tickets[t].(cno := tickets'[t].cno)
    requires forall t :: |tickets| <= t < |tickets'| ==> !Dispatched(P, pipes, t)
    ensures CarryInv(P, g, tickets', pipes', workers)
  {
    hide PipeFor;
    forall w | 0 <= w < |workers| && Working(workers[w])
      ensures Job(workers[w]) < |tickets'| && Dispatched(P, pipes', Job(workers[w])) && JobOk(P, g, tickets', workers[w], w)
    {
      assert JobOk(P, g, tickets, workers[w], w);
    }
    forall t | 1 <= t < |tickets'| && Dispatched(P, pipes', t) && !Finished(tickets'[t])
      ensures Carried(workers, tickets'[t].carrier, t)
    {
      assert Dispatched(P, pipes, t) && !Finished(tickets[t]);
    }
  }

  /** What happens to tickets no exit holds. */
  lemma ExitsFrame(P: nat, g: Program, tickets: seq<Ticket>, tickets': seq<Ticket>, pipes: seq<Pipe>, committed: nat, committed': nat)
    requires ExitsOk(P, g, tickets, pipes, committed) && Grows(tickets, tickets') && committed <= committed'
    requires forall p :: 0 <= p < |pipes| && !pipes[p].pc.Arrive? && !pipes[p].pc.Publish? ==>
               SameWork(tickets, tickets', pipes[p].ticket)
    ensures ExitsOk(P, g, tickets', pipes, committed')
  {
    forall p | 0 <= p < |pipes| ensures ExitOk(P, g, tickets', pipes[p], committed') {
      assert ExitOk(P, g, tickets, pipes[p], committed);
    }
  }

  predicate SameWork(a: seq<Ticket>, b: seq<Ticket>, t: nat) {
    t < |a| <= |b| && b[t].phase == a[t].phase && b[t].passed == a[t].passed && b[t].taskDone == a[t].taskDone
  }

  lemma ExitsSet(P: nat, g: Program, tickets: seq<Ticket>, pipes: seq<Pipe>, committed: nat, p: nat, pipe: Pipe)
    requires ExitsOk(P, g, tickets, pipes, committed) && p < |pipes| && ExitOk(P, g, tickets, pipe, committed)
    ensures ExitsOk(P, g, tickets, pipes[p := pipe], committed)
  {
  }

  /** Pool membership depends on program counters only. */
  lemma PoolPcs(pipes: seq<Pipe>, pipes': seq<Pipe>, workers: seq<Worker>, available: seq<nat>)
    requires PoolInv(pipes, workers, available) && |pipes'| == |pipes|
    requires forall p :: 0 <= p < |pipes| ==> pipes'[p].pc == pipes[p].pc || (!pipes[p].pc.Dispatch? && !pipes'[p].pc.Dispatch?)
    ensures PoolInv(pipes', workers, available)
  {
    forall w | 0 <= w < |workers| && Resting(workers[w]) && w !in available
      ensures Grabbed(pipes', w)
    {
      var q :| 0 <= q < |pipes| && pipes[q].pc == Dispatch(w);
      assert pipes'[q].pc == Dispatch(w);
    }
  }

  lemma PoolWorker(pipes: seq<Pipe>, workers: seq<Worker>, available: seq<nat>, w: nat, worker: Worker)
    requires PoolInv(pipes, workers, available) && w < |workers|
    requires !Resting(workers[w]) && !Resting(worker) && (worker.pc.Push? ==> worker.last == worker.tid)
    ensures PoolInv(pipes, workers[w := worker], available)
  {
    forall v | 0 <= v < |workers| && Resting(workers[w := worker][v]) && v !in available
      ensures Grabbed(pipes, v)
    {
      assert Resting(workers[v]);
    }
  }

  lemma PoolTake(pipes: seq<Pipe>, workers: seq<Worker>, available: seq<nat>, p: nat, pipe: Pipe)
    requires PoolInv(pipes, workers, available) && p < |pipes| && available != []
    requires !pipes[p].pc.Dispatch? && pipe.pc == Dispatch(available[0])
    requires forall q :: 0 <= q < |pipes| && pipes[q].pc.Dispatch? ==> false
    ensures PoolInv(pipes[p := pipe], workers, available[1..])
  {
    var rest := available[1..];
    assert available == [available[0]] + rest;
    forall w | 0 <= w < |workers| && Resting(workers[w]) && w !in rest
      ensures Grabbed(pipes[p := pipe], w)
    {
      assert pipes[p := pipe][p].pc == Dispatch(available[0]);
      assert w in available;
    }
  }

  lemma PoolGive(pipes: seq<Pipe>, workers: seq<Worker>, available: seq<nat>, p: nat, pipe: Pipe, worker: Worker)
    requires PoolInv(pipes, workers, available) && p < |pipes| && pipes[p].pc.Dispatch? && !pipe.pc.Dispatch?
    requires forall q :: 0 <= q < |pipes| && pipes[q].pc.Dispatch? ==> q == p
    requires worker.pc.Idle? && !Resting(worker)
    ensures PoolInv(pipes[p := pipe], workers[pipes[p].pc.w := worker], available)
  {
    var w := pipes[p].pc.w;
    assert forall v :: Grabbed(pipes, v) ==> v == w;
  }

  lemma PoolPush(pipes: seq<Pipe>, workers: seq<Worker>, available: seq<nat>, w: nat, worker: Worker)
    requires PoolInv(pipes, workers, available) && w < |workers| && workers[w].pc.Push? && worker == workers[w].(pc := Idle)
    ensures PoolInv(pipes, workers[w := worker], available + [w])
  {
    forall v | 0 <= v < |workers| && Resting(workers[w := worker][v]) && v !in available + [w]
      ensures Grabbed(pipes, v)
    {
      assert v != w && v !in available;
    }
  }

  /** A carried ticket moves on together with its worker. */
  lemma CarryStep(P: nat, g: Program, tickets: seq<Ticket>, pipes: seq<Pipe>, workers: seq<Worker>, w: nat, k: Ticket, worker: Worker)
    requires CarryInv(P, g, tickets, pipes, workers) && w < |workers| && Working(workers[w])
    requires var t := Job(workers[w]);
             && Grows(tickets, tickets[t := k]) && k.carrier == w
             && (Finished(k) ==> worker.pc.Push? && worker.last == t)
             && (!Finished(k) ==> Working(worker) && Job(worker) == t && JobOk(P, g, tickets[t := k], worker, w))
    ensures CarryInv(P, g, tickets[Job(workers[w]) := k], pipes, workers[w := worker])
  {
    hide PipeFor;
    var t := Job(workers[w]);
    var tickets', workers' := tickets[t := k], workers[w := worker];
    assert JobOk(P, g, tickets, workers[w], w);
    forall v | 0 <= v < |workers| && Working(workers'[v])
      ensures Job(workers'[v]) < |tickets'| && Dispatched(P, pipes, Job(workers'[v])) && JobOk(P, g, tickets', workers'[v], v)
    {
      if v != w {
        assert JobOk(P, g, tickets, workers[v], v);
      }
    }
    forall u | 1 <= u < |tickets'| && Dispatched(P, pipes, u) && !Finished(tickets'[u])
      ensures Carried(workers', tickets'[u].carrier, u)
    {
      if u != t {
        assert Carried(workers, tickets[u].carrier, u);
      }
    }
  }
}
