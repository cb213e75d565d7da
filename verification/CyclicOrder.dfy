/** The order the cyclic handoff imposes: which pipe has taken which ticket
    how far, and how far ahead earlier tickets are. */
module CyclicOrder {
  import opened Cyclic

  /** The pipe has performed its stage of ticket t. */
  predicate Past(pipe: Pipe, t: nat) {
    t < pipe.ticket || (t == pipe.ticket && (pipe.pc.Publish? || pipe.pc.Pop? || pipe.pc.Dispatch? || pipe.pc.StoreAll?))
  }

  ghost predicate OrderInv(P: nat, tickets: seq<Ticket>, pipes: seq<Pipe>, inited: nat) {
    && P >= 1 && |pipes| == P + 1 && inited < |tickets|
    && (forall p, t :: 0 <= p <= P && 0 <= t < |tickets| ==> (StageAt(P, p, t) < tickets[t].passed <==> Past(pipes[p], t)))
    && (forall p :: 0 <= p <= P ==> PipeOk(P, pipes, p, inited))
    && (forall p, t :: 0 <= p <= P && 1 <= t < |tickets| && Past(pipes[p], t) && StageAt(P, p, t) > 0 ==> t <= pipes[p].pace)
    && (forall p, t :: 0 <= p <= P && 1 <= t < pipes[p].ticket && StageAt(P, p, t) < P ==> t <= pipes[NextPipe(P, p)].pace)
  }

  predicate PipeOk(P: nat, pipes: seq<Pipe>, p: nat, inited: nat)
    requires p <= P && |pipes| == P + 1
  {
    var pipe := pipes[p];
    && 1 <= pipe.ticket <= inited + 1
    && (!pipe.pc.Arrive? ==> pipe.ticket <= inited)
    && (pipe.pc.Publish? ==> StageAt(P, p, pipe.ticket) < P)
    && (!pipe.pc.Arrive? && !pipe.pc.Publish? ==> StageAt(P, p, pipe.ticket) == P)
    && pipe.tasks <= inited
    && pipe.pred <= pipe.pace
    && (!pipe.pc.Arrive? && StageAt(P, p, pipe.ticket) > 0 ==> pipe.ticket <= pipe.pred)
    && pipes[NextPipe(P, p)].pace < pipe.ticket
  }

  lemma OrderInit(c: Size)
    requires c.Ok()
    ensures OrderInv(c.P, Init(c).tickets, Init(c).pipes, 0)
  {
  }

  /** Changes that leave the stage counts alone, or add a ticket. */
  lemma OrderFrame(P: nat, tickets: seq<Ticket>, tickets': seq<Ticket>, pipes: seq<Pipe>, inited: nat)
    requires OrderInv(P, tickets, pipes, inited) && |tickets| <= |tickets'|
    requires forall t :: 0 <= t < |tickets| ==> tickets'[t].passed == tickets[t].passed
    requires forall t :: |tickets| <= t < |tickets'| ==> tickets'[t].passed == 0
    ensures OrderInv(P, tickets', pipes, inited)
  {
    hide StageAt;
    forall p, t | 0 <= p <= P && |tickets| <= t < |tickets'|
      ensures !Past(pipes[p], t)
    {
      assert PipeOk(P, pipes, p, inited);
    }
  }

  lemma OrderInited(P: nat, tickets: seq<Ticket>, pipes: seq<Pipe>, inited: nat, inited': nat)
    requires OrderInv(P, tickets, pipes, inited) && inited <= inited' < |tickets|
    ensures OrderInv(P, tickets, pipes, inited')
  {
    hide StageAt;
    forall p | 0 <= p <= P ensures PipeOk(P, pipes, p, inited') {
      assert PipeOk(P, pipes, p, inited);
    }
  }

  /** The neighbours' pace bounds depend on no other field. */
  lemma OrderCaches(P: nat, tickets: seq<Ticket>, pipes: seq<Pipe>, inited: nat, p: nat, pipe: Pipe)
    requires OrderInv(P, tickets, pipes, inited) && p <= P
    requires pipe.ticket == pipes[p].ticket && pipe.pace == pipes[p].pace && pipe.tasks <= inited && pipes[p].pred <= pipe.pred <= pipe.pace
    requires pipe.pc == pipes[p].pc
             || (StageAt(P, p, pipe.ticket) == P && Past(pipe, pipe.ticket) == Past(pipes[p], pipe.ticket) && pipe.ticket <= inited && pipe.ticket <= pipe.pred
                 && !pipe.pc.Arrive? && !pipe.pc.Publish?)
    ensures OrderInv(P, tickets, pipes[p := pipe], inited)
  {
    hide StageAt;
    var pipes' := pipes[p := pipe];
    forall q | 0 <= q <= P ensures PipeOk(P, pipes', q, inited) {
      assert PipeOk(P, pipes, q, inited) && PipeOk(P, pipes, p, inited);
    }
    forall q, t | 0 <= q <= P && 0 <= t ensures Past(pipes'[q], t) == Past(pipes[q], t) {
    }
  }

  /** A pipe that has seen its predecessor's pace is exactly next in line. */
  lemma NextInLine(P: nat, tickets: seq<Ticket>, pipes: seq<Pipe>, inited: nat, p: nat)
    requires OrderInv(P, tickets, pipes, inited) && p <= P
    requires !Past(pipes[p], pipes[p].ticket)
    requires !pipes[p].pc.Arrive? || pipes[p].ticket <= if StageAt(P, p, pipes[p].ticket) == 0 then pipes[p].tasks else pipes[p].pred
    ensures pipes[p].ticket <= inited
    ensures tickets[pipes[p].ticket].passed == StageAt(P, p, pipes[p].ticket)
  {
    hide StageAt;
    var t := pipes[p].ticket;
    assert PipeOk(P, pipes, p, inited);
    if StageAt(P, p, t) > 0 {
      var q := PrevPipe(P, p);
      NextStage(P, q, t);
      assert PipeOk(P, pipes, q, inited);
      assert t < pipes[q].ticket;
    }
  }

  /** A pipe performs its stage of the ticket it stands at. */
  lemma OrderPass(P: nat, tickets: seq<Ticket>, pipes: seq<Pipe>, inited: nat, p: nat, pc: PipePc, k: Ticket, pipe: Pipe)
    requires OrderInv(P, tickets, pipes, inited) && p <= P
    requires var t := pipes[p].ticket;
             && 1 <= t <= inited && tickets[t].passed == StageAt(P, p, t) && k.passed == tickets[t].passed + 1
             && (StageAt(P, p, t) > 0 ==> t <= pipes[p].pred)
             && pc == (if StageAt(P, p, t) < P then Publish else pc) && (StageAt(P, p, t) == P ==> pc.Pop? || pc.StoreAll?)
    requires pipe == pipes[p].(pc := pc, compl := pipe.compl)
    ensures OrderInv(P, tickets[pipes[p].ticket := k], pipes[p := pipe], inited)
  {
    hide StageAt;
    var t := pipes[p].ticket;
    var tickets', pipes' := tickets[t := k], pipes[p := pipe];
    forall q, u | 0 <= q <= P && 0 <= u < |tickets|
      ensures StageAt(P, q, u) < tickets'[u].passed <==> Past(pipes'[q], u)
    {
      assert StageAt(P, q, u) < tickets[u].passed <==> Past(pipes[q], u);
      if u == t && StageAt(P, q, u) == StageAt(P, p, t) {
        StageOnce(P, p, q, t);
      }
    }
    forall q | 0 <= q <= P ensures PipeOk(P, pipes', q, inited) {
      assert PipeOk(P, pipes, q, inited) && PipeOk(P, pipes, p, inited);
    }
    forall q, u | 0 <= q <= P && 1 <= u < |tickets| && Past(pipes'[q], u) && StageAt(P, q, u) > 0
      ensures u <= pipes'[q].pace
    {
      if q != p || u != t {
        assert Past(pipes[q], u);
      }
    }
  }

  /** Work past the pipes does not disturb their order. */
  lemma OrderBeyond(P: nat, tickets: seq<Ticket>, pipes: seq<Pipe>, inited: nat, t: nat, k: Ticket)
    requires OrderInv(P, tickets, pipes, inited) && t < |tickets| && P < tickets[t].passed <= k.passed
    ensures OrderInv(P, tickets[t := k], pipes, inited)
  {
    hide StageAt;
    forall q, u | 0 <= q <= P && 0 <= u < |tickets|
      ensures StageAt(P, q, u) < tickets[t := k][u].passed <==> Past(pipes[q], u)
    {
      assert StageAt(P, q, u) < tickets[u].passed <==> Past(pipes[q], u);
    }
  }

  /** The exit pipe moves to its next ticket. */
  lemma OrderLeave(P: nat, tickets: seq<Ticket>, pipes: seq<Pipe>, inited: nat, p: nat, pipe: Pipe)
    requires OrderInv(P, tickets, pipes, inited) && p <= P
    requires pipes[p].pc.Dispatch? || pipes[p].pc.StoreAll?
    requires pipe == pipes[p].(pc := Arrive, ticket := pipes[p].ticket + 1)
    ensures OrderInv(P, tickets, pipes[p := pipe], inited)
  {
    hide StageAt;
    var pipes' := pipes[p := pipe];
    assert PipeOk(P, pipes, p, inited);
    forall q | 0 <= q <= P ensures PipeOk(P, pipes', q, inited) {
      assert PipeOk(P, pipes, q, inited);
    }
    forall q, t | 0 <= q <= P && 0 <= t ensures Past(pipes'[q], t) == Past(pipes[q], t) {
    }
  }

  lemma OrderAdvance(c: Size, s: State, p: nat)
    requires Wellsized(c, s) && OrderInv(c.P, s.tickets, s.pipes, s.inited) && p <= c.P && s.pipes[p].pc.Publish?
    ensures OrderInv(c.P, s.tickets, ApplyAdvance(c, s, p).pipes, s.inited)
  {
    hide StageAt;
    var P, pipes, q := c.P, s.pipes, NextPipe(c.P, p);
    var pipes' := ApplyAdvance(c, s, p).pipes;
    var t := pipes[p].ticket;
    assert q != p;
    assert PipeOk(P, pipes, p, s.inited) && pipes[q].pace < t;
    assert pipes' == pipes[p := pipes[p].(pc := Arrive, ticket := t + 1)][q := pipes[q].(pace := t)];
    forall r | 0 <= r <= P ensures PipeOk(P, pipes', r, s.inited) {
      assert PipeOk(P, pipes, r, s.inited);
      if NextPipe(P, r) == q { assert r == p; }
    }
    forall r, u | 0 <= r <= P && 0 <= u ensures Past(pipes'[r], u) == Past(pipes[r], u) {
    }
    forall r, u | 0 <= r <= P && 1 <= u < pipes'[r].ticket && StageAt(P, r, u) < P
      ensures u <= pipes'[NextPipe(P, r)].pace
    {
      if u < pipes[r].ticket {
        assert u <= pipes[NextPipe(P, r)].pace;
      }
    }
  }

  // ---- what the order gives -------------------------------------------------

  /** Every ticket in the pipes is a stage behind the one before it. */
  lemma OneStageBehind(P: nat, tickets: seq<Ticket>, pipes: seq<Pipe>, inited: nat, t: nat)
    requires OrderInv(P, tickets, pipes, inited) && 1 <= t < |tickets| && tickets[t].passed >= 1
    ensures tickets[t-1].passed > P || tickets[t-1].passed > tickets[t].passed
  {
    hide StageAt;
    var j := if tickets[t].passed > P then P else tickets[t].passed - 1;
    if j < P {
      var p := PipeFor(P, j, t);
      assert StageAt(P, p, t) < tickets[t].passed;
      assert Past(pipes[p], t) && Past(pipes[p], t - 1);
      StageBefore(P, p, t);
      assert StageAt(P, p, t - 1) < tickets[t-1].passed;
    } else {
      var p := PipeFor(P, P - 1, t);
      assert StageAt(P, p, t) < tickets[t].passed;
      assert Past(pipes[p], t) && Past(pipes[p], t - 1);
      StageBefore(P, p, t);
      assert StageAt(P, p, t - 1) < tickets[t-1].passed;
    }
  }

  lemma StageBefore(P: nat, p: nat, t: nat)
    requires p <= P && t >= 1
    ensures StageAt(P, p, t - 1) == if StageAt(P, p, t) == P then 0 else StageAt(P, p, t) + 1
  {
  }

  /** Pipeline safety: when a pipe is about to perform stage j of ticket t,
      every earlier ticket has performed stage j+1, or left the pipes. */
  lemma {:induction false} EarlierTicketsAreAhead(P: nat, tickets: seq<Ticket>, pipes: seq<Pipe>, inited: nat, p: nat, u: nat)
    requires OrderInv(P, tickets, pipes, inited) && p <= P && u < pipes[p].ticket < |tickets| && StageAt(P, p, pipes[p].ticket) < P
    ensures tickets[u].passed >= StageAt(P, p, pipes[p].ticket) + 2
    decreases pipes[p].ticket - u
  {
    hide StageAt;
    var t := pipes[p].ticket;
    var j := StageAt(P, p, t);
    if u == t - 1 {
      assert Past(pipes[p], u);
      StageBefore(P, p, t);
      assert StageAt(P, p, u) < tickets[u].passed;
    } else {
      EarlierTicketsAreAhead(P, tickets, pipes, inited, p, u + 1);
      OneStageBehind(P, tickets, pipes, inited, u + 1);
    }
  }

  /** The pipe is past the pace wait of an exit. */
  predicate Exiting(P: nat, pipe: Pipe, p: nat)
    requires p <= P
  {
    StageAt(P, p, pipe.ticket) == P && pipe.ticket <= pipe.pred
  }

  /** Exits are serial, so the worker pool has one consumer at a time. */
  lemma ExitsAreSerial(P: nat, tickets: seq<Ticket>, pipes: seq<Pipe>, inited: nat, p: nat, q: nat)
    requires OrderInv(P, tickets, pipes, inited) && p <= P && q <= P
    requires Exiting(P, pipes[p], p) && Exiting(P, pipes[q], q)
    ensures p == q
  {
    hide StageAt;
    ExitReached(P, tickets, pipes, inited, p);
    ExitReached(P, tickets, pipes, inited, q);
    if pipes[p].ticket == pipes[q].ticket {
      StageOnce(P, p, q, pipes[p].ticket);
    } else if pipes[p].ticket < pipes[q].ticket {
      ExitBlocks(P, tickets, pipes, inited, p, pipes[q].ticket);
    } else {
      ExitBlocks(P, tickets, pipes, inited, q, pipes[p].ticket);
    }
  }

  lemma ExitReached(P: nat, tickets: seq<Ticket>, pipes: seq<Pipe>, inited: nat, q: nat)
    requires OrderInv(P, tickets, pipes, inited) && q <= P && Exiting(P, pipes[q], q)
    ensures pipes[q].ticket <= inited && tickets[pipes[q].ticket].passed >= P
  {
    hide StageAt;
    var t := pipes[q].ticket;
    var r := PrevPipe(P, q);
    NextStage(P, r, t);
    assert PipeOk(P, pipes, q, inited) && PipeOk(P, pipes, r, inited);
    assert Past(pipes[r], t);
    assert StageAt(P, r, t) < tickets[t].passed;
  }

  /** While a pipe stands at an exit, no later ticket reaches its own. */
  lemma {:induction false} ExitBlocks(P: nat, tickets: seq<Ticket>, pipes: seq<Pipe>, inited: nat, p: nat, t: nat)
    requires OrderInv(P, tickets, pipes, inited) && p <= P && StageAt(P, p, pipes[p].ticket) == P
    requires pipes[p].ticket < t < |tickets|
    ensures tickets[t].passed < P
    decreases t
  {
    hide StageAt;
    var u := pipes[p].ticket;
    if t == u + 1 {
      StageBefore(P, p, t);
      assert !Past(pipes[p], t);
    } else {
      ExitBlocks(P, tickets, pipes, inited, p, t - 1);
      if tickets[t].passed >= P {
        OneStageBehind(P, tickets, pipes, inited, t);
      }
    }
  }
}
