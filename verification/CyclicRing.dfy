/** Ring reuse: who owns a context slot and what its stage word means. */
module CyclicRing {
  import opened Cyclic

  /** The ticket has written its context. */
  predicate InRing(k: Ticket) {
    k.phase.Filled? || k.phase.Ready?
  }

  ghost predicate RingInv(c: Size, tickets: seq<Ticket>, slots: seq<Slot>, inited: nat, committed: nat) {
    && c.Ok() && |slots| == c.ring && committed <= inited < |tickets|
    && (forall t :: 0 <= t < |tickets| && !tickets[t].phase.Reserved? ==> t < committed + c.ring)
    && (forall t :: 0 <= t <= inited ==> tickets[t].phase.Ready?)
    && (forall t :: 0 <= t < |tickets| && InRing(tickets[t]) && t >= committed ==> slots[t % c.ring].sno == t)
    && (forall i :: 0 <= i < |slots| ==> SlotOk(c, tickets, slots[i], i))
    && (forall t :: 0 <= t <= committed ==> tickets[t].stored == All)
    && (forall t :: 0 <= t < |tickets| && !tickets[t].phase.Ready? ==> tickets[t].stored == All)
  }

  predicate SlotOk(c: Size, tickets: seq<Ticket>, slot: Slot, i: nat)
    requires c.ring > 0
  {
    && slot.sno < |tickets| && InRing(tickets[slot.sno]) && slot.stage == tickets[slot.sno].stored
    && (slot.sno == 0 || slot.sno % c.ring == i)
  }

  /** Two tickets of one window do not share a slot. */
  lemma SameSlot(t: nat, u: nat, n: nat)
    requires n > 0 && t % n == u % n && t < u + n && u < t + n
    ensures t == u
  {
    var d := t / n - u / n;
    assert t == (t / n) * n + t % n && u == (u / n) * n + u % n;
    assert d * n == t - u;
    assert d >= 1 ==> d * n >= n;
    assert d <= -1 ==> d * n + n <= 0;
  }

  lemma HeldIs(c: Size, s: State, t: nat)
    requires RingInv(c, s.tickets, s.slots, s.inited, s.committed) && s.committed <= t <= s.inited
    ensures Held(c, s, t) == t
  {
  }

  /** What a stage slot tells a waiter about a version: never more than the
      ticket of that version has done. A slot that already belongs to a later
      ticket is seen only when the version is committed. */
  lemma SlotTells(c: Size, tickets: seq<Ticket>, slots: seq<Slot>, inited: nat, committed: nat, v: nat)
    requires RingInv(c, tickets, slots, inited, committed) && v <= inited
    ensures slots[v % c.ring].sno == v || v < committed
    ensures slots[v % c.ring].stage == tickets[v].stored || tickets[v].stored == All
  {
  }

  /** Changes that leave phases and stage words alone. */
  lemma RingFrame(c: Size, tickets: seq<Ticket>, tickets': seq<Ticket>, slots: seq<Slot>, inited: nat, committed: nat)
    requires RingInv(c, tickets, slots, inited, committed) && |tickets'| == |tickets|
    requires forall t :: 0 <= t < |tickets| ==> tickets'[t].phase == tickets[t].phase && tickets'[t].stored == tickets[t].stored
    ensures RingInv(c, tickets', slots, inited, committed)
  {
    forall i | 0 <= i < |slots| ensures SlotOk(c, tickets', slots[i], i) {
      assert SlotOk(c, tickets, slots[i], i);
    }
  }

  lemma RingSubmit(c: Size, tickets: seq<Ticket>, slots: seq<Slot>, inited: nat, committed: nat, k: Ticket)
    requires RingInv(c, tickets, slots, inited, committed) && k.phase.Reserved? && k.stored == All
    ensures RingInv(c, tickets + [k], slots, inited, committed)
  {
    forall i | 0 <= i < |slots| ensures SlotOk(c, tickets + [k], slots[i], i) {
      assert SlotOk(c, tickets, slots[i], i);
    }
  }

  lemma RingAdmit(c: Size, tickets: seq<Ticket>, slots: seq<Slot>, inited: nat, committed: nat, t: nat)
    requires RingInv(c, tickets, slots, inited, committed) && t < |tickets| && tickets[t].phase.Reserved? && t < committed + c.ring
    ensures RingInv(c, tickets[t := tickets[t].(phase := Admitted)], slots, inited, committed)
  {
    var tickets' := tickets[t := tickets[t].(phase := Admitted)];
    forall i | 0 <= i < |slots| ensures SlotOk(c, tickets', slots[i], i) {
      assert SlotOk(c, tickets, slots[i], i);
    }
  }

  /** Only a context of a committed ticket is overwritten. */
  lemma OverwritesCommitted(c: Size, tickets: seq<Ticket>, slots: seq<Slot>, inited: nat, committed: nat, t: nat)
    requires RingInv(c, tickets, slots, inited, committed) && t < |tickets| && tickets[t].phase.Admitted?
    ensures slots[t % c.ring].sno < committed || slots[t % c.ring].sno == 0 < t
    ensures tickets[slots[t % c.ring].sno].stored == All
  {
    var v := slots[t % c.ring].sno;
    assert SlotOk(c, tickets, slots[t % c.ring], t % c.ring);
    if v != 0 && v >= committed {
      SameSlot(t, v, c.ring);
    }
  }

  lemma RingFill(c: Size, tickets: seq<Ticket>, slots: seq<Slot>, inited: nat, committed: nat, t: nat)
    requires RingInv(c, tickets, slots, inited, committed) && t < |tickets| && tickets[t].phase.Admitted?
    ensures RingInv(c, tickets[t := tickets[t].(phase := Filled)],
                    slots[t % c.ring := slots[t % c.ring].(sno := t)], inited, committed)
  {
    var e := t % c.ring;
    var tickets' := tickets[t := tickets[t].(phase := Filled)];
    var slots' := slots[e := slots[e].(sno := t)];
    OverwritesCommitted(c, tickets, slots, inited, committed, t);
    assert SlotOk(c, tickets, slots[e], e);
    forall i | 0 <= i < |slots| ensures SlotOk(c, tickets', slots'[i], i) {
      assert SlotOk(c, tickets, slots[i], i);
    }
    forall u | 0 <= u < |tickets| && InRing(tickets'[u]) && u >= committed ensures slots'[u % c.ring].sno == u {
      if u % c.ring == e {
        SameSlot(t, u, c.ring);
      } else {
        assert InRing(tickets[u]);
      }
    }
  }

  /** A stage store by the holder of an uncommitted context. */
  lemma RingStore(c: Size, tickets: seq<Ticket>, slots: seq<Slot>, inited: nat, committed: nat, t: nat, st: Stage)
    requires RingInv(c, tickets, slots, inited, committed)
    requires committed < t < |tickets| && InRing(tickets[t])
    ensures slots[t % c.ring].sno == t
    ensures RingInv(c, tickets[t := tickets[t].(phase := Ready, stored := st)],
                    slots[t % c.ring := slots[t % c.ring].(stage := st)], inited, committed)
  {
    var e := t % c.ring;
    var tickets' := tickets[t := tickets[t].(phase := Ready, stored := st)];
    var slots' := slots[e := slots[e].(stage := st)];
    forall i | 0 <= i < |slots| ensures SlotOk(c, tickets', slots'[i], i) {
      assert SlotOk(c, tickets, slots[i], i);
    }
  }

  /** The monitor's scan takes a zero word for its own ticket's. */
  lemma ZeroWordIsReady(c: Size, tickets: seq<Ticket>, slots: seq<Slot>, inited: nat, committed: nat, n: nat)
    requires RingInv(c, tickets, slots, inited, committed) && n < |tickets|
    requires forall t :: 0 <= t < n ==> tickets[t].phase.Ready?
    requires slots[n % c.ring].stage == At(0)
    ensures tickets[n].phase.Ready?
  {
    var e := n % c.ring;
    var v := slots[e].sno;
    assert SlotOk(c, tickets, slots[e], e);
    if committed < n {
      assert !tickets[n-1].phase.Reserved? && n - 1 < committed + c.ring;
      SameSlot(n, v, c.ring);
    }
  }
}
