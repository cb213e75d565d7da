/** Fair runs of the cyclic controller commit every announced ticket. */
module CyclicLiveness {
  import opened Cyclic
  import opened CyclicRing
  import opened CyclicOrder
  import opened CyclicWork
  import opened CyclicSafety
  import opened CyclicProgress

  /** An unbounded run. */
  datatype Trace = Trace(at: nat -> State, does: nat -> Action)

  ghost predicate Behaves(c: Size, g: Program, tr: Trace) {
    && c.Ok() && g.Ok() && tr.at(0) == Init(c)
    && forall i: nat :: Steps(c, g, tr.at(i), tr.does(i), tr.at(i + 1))
  }

  predicate Steps(c: Size, g: Program, s: State, a: Action, s': State) {
    Wellsized(c, s) && Enabled(c, g, s, a) && s' == Apply(c, g, s, a)
  }

  ghost predicate AlwaysReady(c: Size, g: Program, tr: Trace, a: Action, i: nat) {
    forall k: nat :: i <= k ==> Wellsized(c, tr.at(k)) && Enabled(c, g, tr.at(k), a)
  }

  ghost predicate TakenFrom(tr: Trace, a: Action, i: nat) {
    exists k: nat :: i <= k && tr.does(k) == a
  }

  /** Weak fairness of the pipes, the workers and the monitor: a step of theirs
      that stays enabled is taken. Nothing is asked of the submitters. */
  ghost predicate Fair(c: Size, g: Program, tr: Trace) {
    forall i: nat, a: Action :: Internal(a) && AlwaysReady(c, g, tr, a, i) ==> TakenFrom(tr, a, i)
  }

  lemma {:induction false} TraceInv(c: Size, g: Program, tr: Trace, n: nat)
    requires Behaves(c, g, tr)
    ensures Inv(c, g, tr.at(n))
  {
    hide Inv, Apply, Enabled;
    if n == 0 {
      InitInv(c, g);
    } else {
      TraceInv(c, g, tr, n - 1);
      assert Steps(c, g, tr.at(n - 1), tr.does(n - 1), tr.at(n - 1 + 1));
      StepInv(c, g, tr.at(n - 1), tr.does(n - 1));
    }
  }

  lemma NeverLowers(c: Size, g: Program, s: State, a: Action)
    requires Inv(c, g, s) && Wellsized(c, s) && Enabled(c, g, s, a)
    ensures var s' := Apply(c, g, s, a);
            s.inited <= s'.inited && s.committed <= s'.committed && |s.tickets| <= |s'.tickets|
  {
    hide StageAt, PipeFor, RingInv, OrderInv, WorkInv;
  }

  ghost predicate Committed(tr: Trace, m: nat, k: nat) {
    m <= tr.at(k).committed
  }

  ghost predicate OpenAt(c: Size, g: Program, tr: Trace, m: nat, k: nat, r: Rank) {
    Pending(c, g, tr.at(k), m) && Wellsized(c, tr.at(k)) && m < |tr.at(k).tickets| && RankOf(c, g, tr.at(k), m) == r
  }

  /** As long as the ticket gets no closer, it waits for one and the same step. */
  lemma {:induction false} Waits(c: Size, g: Program, tr: Trace, i: nat, m: nat, r: Rank, k: nat)
    requires Behaves(c, g, tr) && OpenAt(c, g, tr, m, i, r) && i <= k
    requires forall j: nat :: i <= j ==> !Committed(tr, m, j)
    requires forall j: nat, q :: i <= j && OpenAt(c, g, tr, m, j, q) ==> !Less(q, r)
    ensures OpenAt(c, g, tr, m, k, r) && Next(c, g, tr.at(k), m) == Next(c, g, tr.at(i), m)
    decreases k
  {
    hide Inv, Apply, Enabled, RankOf, Next;
    if k > i {
      Waits(c, g, tr, i, m, r, k - 1);
      var s := tr.at(k - 1);
      assert Steps(c, g, s, tr.does(k - 1), tr.at(k - 1 + 1));
      var s' := tr.at(k);
      TraceInv(c, g, tr, k - 1);
      TraceInv(c, g, tr, k);
      OthersHarmless(c, g, s, tr.does(k - 1), m);
      NeverLowers(c, g, s, tr.does(k - 1));
      assert !Committed(tr, m, k);
      assert OpenAt(c, g, tr, m, k, RankOf(c, g, s', m));
    }
  }

  /** The lowest open ticket commits. */
  lemma {:induction false} LowestCommits(c: Size, g: Program, tr: Trace, i: nat, m: nat, r: Rank) returns (k: nat)
    requires Behaves(c, g, tr) && Fair(c, g, tr) && OpenAt(c, g, tr, m, i, r)
    ensures i <= k && Committed(tr, m, k)
    decreases r.open, r.stages, r.steps
  {
    hide Inv, Apply, Enabled, RankOf, Next, Wellsized;
    if j: nat :| i <= j && Committed(tr, m, j) {
      k := j;
    } else if j: nat, q :| i <= j && OpenAt(c, g, tr, m, j, q) && Less(q, r) {
      k := LowestCommits(c, g, tr, j, m, q);
    } else {
      var a := Next(c, g, tr.at(i), m);
      NextInternal(c, g, tr.at(i), m);
      forall j: nat | i <= j
        ensures OpenAt(c, g, tr, m, j, r) && Next(c, g, tr.at(j), m) == a && Enabled(c, g, tr.at(j), a)
      {
        Waits(c, g, tr, i, m, r, j);
        NextEnabled(c, g, tr.at(j), m);
      }
      assert AlwaysReady(c, g, tr, a, i);
      var j: nat :| i <= j && tr.does(j) == a;
      k := i;
      TakenCounts(c, g, tr, j, m, r);
      assert false;
    }
  }

  /** Taking the awaited step is progress. */
  lemma TakenCounts(c: Size, g: Program, tr: Trace, j: nat, m: nat, r: Rank)
    requires Behaves(c, g, tr) && OpenAt(c, g, tr, m, j, r) && tr.does(j) == Next(c, g, tr.at(j), m)
    ensures Committed(tr, m, j + 1) || exists q :: OpenAt(c, g, tr, m, j + 1, q) && Less(q, r)
  {
    hide Inv, Apply, Enabled, RankOf, Next, Wellsized;
    assert Steps(c, g, tr.at(j), tr.does(j), tr.at(j + 1));
    NextCloser(c, g, tr.at(j), m);
    TraceInv(c, g, tr, j + 1);
    NeverLowers(c, g, tr.at(j), tr.does(j));
    if !Committed(tr, m, j + 1) {
      assert OpenAt(c, g, tr, m, j + 1, RankOf(c, g, tr.at(j + 1), m));
    }
  }

  /** In a fair run every initialised ticket is committed. */
  lemma {:induction false} InitialisedCommits(c: Size, g: Program, tr: Trace, i: nat, t: nat) returns (k: nat)
    requires Behaves(c, g, tr) && Fair(c, g, tr) && t <= tr.at(i).inited
    ensures i <= k && Committed(tr, t, k)
    decreases t - tr.at(i).committed
  {
    hide Inv, Apply, Enabled, RankOf, Next, Wellsized, Fair, Behaves;
    if t <= tr.at(i).committed {
      k := i;
    } else {
      TraceInv(c, g, tr, i);
      TraceSized(c, g, tr, i);
      var m := tr.at(i).committed + 1;
      var j := LowestCommits(c, g, tr, i, m, RankOf(c, g, tr.at(i), m));
      InitedStays(c, g, tr, i, j);
      k := InitialisedCommits(c, g, tr, j, t);
    }
  }

  lemma TraceSized(c: Size, g: Program, tr: Trace, i: nat)
    requires Behaves(c, g, tr)
    ensures Wellsized(c, tr.at(i)) && tr.at(i).inited < |tr.at(i).tickets|
  {
    TraceInv(c, g, tr, i);
    SomeBounds(c, g, tr.at(i));
    hide Inv, Apply, Enabled;
    assert Steps(c, g, tr.at(i), tr.does(i), tr.at(i + 1));
  }

  lemma {:induction false} InitedStays(c: Size, g: Program, tr: Trace, i: nat, k: nat)
    requires Behaves(c, g, tr) && i <= k
    ensures tr.at(i).inited <= tr.at(k).inited
    decreases k
  {
    hide Inv, Apply, Enabled;
    if i < k {
      InitedStays(c, g, tr, i, k - 1);
      TraceInv(c, g, tr, k - 1);
      assert Steps(c, g, tr.at(k - 1), tr.does(k - 1), tr.at(k - 1 + 1));
      NeverLowers(c, g, tr.at(k - 1), tr.does(k - 1));
    }
  }

  // ---- announced tickets are initialised ------------------------------------

  function ScanRank(s: State, t: nat): Rank {
    var m := s.monitor;
    var left := if m.next < m.sub then m.sub - m.next else 0;
    match m.pc
    case LoadSubmitted => Rank(0, 2, 0)
    case ScanInited => if m.sub >= t then Rank(0, 1, left) else Rank(0, 7, left)
    case StoreInited => if m.next >= t then Rank(0, 0, 0) else Rank(0, 6, 0)
    case ScanCommitted => Rank(0, 5, if m.next < s.inited then s.inited - m.next else 0)
    case PublishRoot => Rank(0, 4, 0)
    case StoreCommitted => Rank(0, 3, 0)
  }

  ghost predicate Announced(s: State, t: nat) {
    t < |s.tickets| && AllReady(s.tickets, t)
  }

  /** The monitor's next step brings it closer to counting ticket t. */
  lemma ScanCloser(c: Size, g: Program, s: State, t: nat, s': State)
    requires Wellsized(c, s) && MonitorEnabled(s, NextOfMonitor(s.monitor.pc))
    requires s' == ApplyMonitor(c, s, NextOfMonitor(s.monitor.pc))
    requires Inv(c, g, s) && Announced(s, t) && s.inited < t
    ensures t <= s'.inited || Less(ScanRank(s', t), ScanRank(s, t))
  {
    hide StageAt, PipeFor, CarryInv, PoolInv, ExitsOk, OrderInv;
    var m := s.monitor;
    if m.pc.ScanInited? && m.next < m.sub && m.next < t {
      UntouchedSlot(c, g, s, m.next + 1);
    }
    hide RingInv, TicketsOk;
  }

  /** An announced ticket beyond the frontier still shows a zero word. */
  lemma UntouchedSlot(c: Size, g: Program, s: State, n: nat)
    requires Inv(c, g, s) && s.inited < n < |s.tickets| && s.tickets[n].phase.Ready?
    ensures s.slots[n % c.ring].stage == At(0)
  {
    hide StageAt, PipeFor, CarryInv, PoolInv, ExitsOk, OrderInv, MonitorOk;
    DispatchedMeans(c.P, s.tickets, s.pipes, s.inited, n);
    assert SlotOk(c, s.tickets, s.slots[n % c.ring], n % c.ring);
    assert Fresh(c.P, s.tickets[n]);
  }

  lemma MonitorReady(s: State)
    ensures MonitorEnabled(s, NextOfMonitor(s.monitor.pc))
    ensures forall a :: MonitorEnabled(s, a) ==> a == NextOfMonitor(s.monitor.pc)
  {
  }

  lemma AnnouncedStays(c: Size, g: Program, s: State, a: Action, t: nat)
    requires Inv(c, g, s) && Wellsized(c, s) && Enabled(c, g, s, a) && Announced(s, t)
    ensures Announced(Apply(c, g, s, a), t)
  {
    hide StageAt, PipeFor, RingInv, OrderInv, WorkInv, MonitorOk;
    match a {
      case Submit =>
      case OfClient(u, b) =>
      case OfPipe(p, b) =>
      case OfWorker(w, b) =>
      case OfMonitor(b) =>
    }
  }

  ghost predicate ScanningAt(c: Size, g: Program, tr: Trace, t: nat, k: nat, r: Rank) {
    Inv(c, g, tr.at(k)) && Announced(tr.at(k), t) && tr.at(k).inited < t && ScanRank(tr.at(k), t) == r
  }

  lemma {:induction false} Scans(c: Size, g: Program, tr: Trace, i: nat, t: nat, r: Rank, k: nat)
    requires Behaves(c, g, tr) && ScanningAt(c, g, tr, t, i, r) && i <= k
    requires forall j: nat :: i <= j ==> tr.at(j).inited < t
    requires forall j: nat, q :: i <= j && ScanningAt(c, g, tr, t, j, q) ==> !Less(q, r)
    ensures ScanningAt(c, g, tr, t, k, r) && tr.at(k).monitor.pc == tr.at(i).monitor.pc
    decreases k
  {
    hide Inv, Apply, Enabled, ScanRank, Announced, NextOfMonitor;
    if k > i {
      Scans(c, g, tr, i, t, r, k - 1);
      var s, a := tr.at(k - 1), tr.does(k - 1);
      assert Steps(c, g, s, a, tr.at(k - 1 + 1));
      var s' := tr.at(k);
      TraceInv(c, g, tr, k);
      AnnouncedStays(c, g, s, a, t);
      assert ScanningAt(c, g, tr, t, k, ScanRank(s', t));
      ScanSame(c, g, s, a, t);
    }
  }

  lemma ScanSame(c: Size, g: Program, s: State, a: Action, t: nat)
    requires Inv(c, g, s) && Wellsized(c, s) && Enabled(c, g, s, a) && Announced(s, t) && s.inited < t
    ensures var s' := Apply(c, g, s, a);
            || t <= s'.inited || Less(ScanRank(s', t), ScanRank(s, t))
            || (s'.monitor.pc == s.monitor.pc && ScanRank(s', t) == ScanRank(s, t))
  {
    hide Inv, Announced, ApplyMonitor, MonitorEnabled, NextOfMonitor, Apply;
    if a.OfMonitor? {
      MonitorReady(s);
      assert MonitorEnabled(s, a.m);
      ScanCloser(c, g, s, t, Apply(c, g, s, a)) by { assert Apply(c, g, s, a) == ApplyMonitor(c, s, a.m) by { ApplyIs(c, g, s, a); } }
    } else {
      MonitorApart(c, g, s, a);
    }
  }

  lemma ApplyIs(c: Size, g: Program, s: State, a: Action)
    requires Wellsized(c, s) && Enabled(c, g, s, a) && a.OfMonitor?
    ensures Apply(c, g, s, a) == ApplyMonitor(c, s, a.m)
  {
  }

  lemma {:induction false} AnnouncedIsInitialised(c: Size, g: Program, tr: Trace, i: nat, t: nat, r: Rank) returns (k: nat)
    requires Behaves(c, g, tr) && Fair(c, g, tr) && ScanningAt(c, g, tr, t, i, r)
    ensures i <= k && t <= tr.at(k).inited
    decreases r.open, r.stages, r.steps
  {
    hide Inv, Apply, ScanRank, Announced, NextOfMonitor, ApplyMonitor, MonitorEnabled;
    if j: nat :| i <= j && t <= tr.at(j).inited {
      k := j;
    } else if j: nat, q :| i <= j && ScanningAt(c, g, tr, t, j, q) && Less(q, r) {
      k := AnnouncedIsInitialised(c, g, tr, j, t, q);
    } else {
      var a := OfMonitor(NextOfMonitor(tr.at(i).monitor.pc));
      forall j: nat | i <= j
        ensures ScanningAt(c, g, tr, t, j, r) && Wellsized(c, tr.at(j)) && Enabled(c, g, tr.at(j), a)
      {
        Scans(c, g, tr, i, t, r, j);
        TraceSized(c, g, tr, j);
        MonitorReady(tr.at(j));
      }
      assert AlwaysReady(c, g, tr, a, i);
      var j: nat :| i <= j && tr.does(j) == a;
      Scans(c, g, tr, i, t, r, j);
      k := i;
      ScanCounts(c, g, tr, j, t, r);
      assert false;
    }
  }

  lemma ScanCounts(c: Size, g: Program, tr: Trace, j: nat, t: nat, r: Rank)
    requires Behaves(c, g, tr) && ScanningAt(c, g, tr, t, j, r)
    requires tr.does(j) == OfMonitor(NextOfMonitor(tr.at(j).monitor.pc))
    ensures t <= tr.at(j + 1).inited || exists q :: ScanningAt(c, g, tr, t, j + 1, q) && Less(q, r)
  {
    hide Inv, Apply, ScanRank, Announced, NextOfMonitor, ApplyMonitor, MonitorEnabled;
    assert Steps(c, g, tr.at(j), tr.does(j), tr.at(j + 1));
    MonitorReady(tr.at(j));
    ApplyIs(c, g, tr.at(j), tr.does(j));
    ScanCloser(c, g, tr.at(j), t, tr.at(j + 1));
    TraceInv(c, g, tr, j + 1);
    AnnouncedStays(c, g, tr.at(j), tr.does(j), t);
    if tr.at(j + 1).inited < t {
      assert ScanningAt(c, g, tr, t, j + 1, ScanRank(tr.at(j + 1), t));
    }
  }

  /** Progress: in every fair run, a ticket commits once it and all tickets
      before it have been announced. */
  lemma AnnouncedTicketsCommit(c: Size, g: Program, tr: Trace, i: nat, t: nat) returns (k: nat)
    requires Behaves(c, g, tr) && Fair(c, g, tr) && Announced(tr.at(i), t)
    ensures i <= k && Committed(tr, t, k)
  {
    hide Inv, Fair, Behaves, Announced;
    TraceInv(c, g, tr, i);
    var j := i;
    if tr.at(i).inited < t {
      j := AnnouncedIsInitialised(c, g, tr, i, t, ScanRank(tr.at(i), t));
    }
    k := InitialisedCommits(c, g, tr, j, t);
  }

  // ---- submitted tickets ----------------------------------------------------

  predicate ReadyAt(tr: Trace, t: nat, k: nat) {
    t < |tr.at(k).tickets| && tr.at(k).tickets[t].phase.Ready?
  }

  /** Every submitter finishes filling the context it has been given. */
  ghost predicate SubmittersFinish(tr: Trace) {
    forall i: nat, t: nat :: SubmittedAt(tr, t, i) ==> FinishesFrom(tr, t, i)
  }

  predicate SubmittedAt(tr: Trace, t: nat, i: nat) {
    t < |tr.at(i).tickets|
  }

  ghost predicate FinishesFrom(tr: Trace, t: nat, i: nat) {
    exists k: nat :: i <= k && ReadyAt(tr, t, k)
  }

  lemma {:induction false} ReadyStays(c: Size, g: Program, tr: Trace, t: nat, i: nat, k: nat)
    requires Behaves(c, g, tr) && ReadyAt(tr, t, i) && i <= k
    ensures ReadyAt(tr, t, k)
    decreases k
  {
    if i < k {
      ReadyStays(c, g, tr, t, i, k - 1);
      TraceInv(c, g, tr, k - 1);
      assert Steps(c, g, tr.at(k - 1), tr.does(k - 1), tr.at(k - 1 + 1));
      OneStays(c, g, tr.at(k - 1), tr.does(k - 1), t);
    }
  }

  lemma OneStays(c: Size, g: Program, s: State, a: Action, t: nat)
    requires Inv(c, g, s) && Wellsized(c, s) && Enabled(c, g, s, a) && t < |s.tickets| && s.tickets[t].phase.Ready?
    ensures var s' := Apply(c, g, s, a); t < |s'.tickets| && s'.tickets[t].phase.Ready?
  {
    hide StageAt, PipeFor, RingInv, OrderInv, WorkInv, MonitorOk;
    match a {
      case Submit =>
      case OfClient(u, b) =>
      case OfPipe(p, b) =>
      case OfWorker(w, b) =>
      case OfMonitor(b) =>
    }
  }

  /** When submitters finish, a ticket and all before it are announced. */
  lemma {:induction false} AllAnnounced(c: Size, g: Program, tr: Trace, i: nat, t: nat) returns (k: nat)
    requires Behaves(c, g, tr) && SubmittersFinish(tr) && t < |tr.at(i).tickets|
    ensures i <= k && Announced(tr.at(k), t)
  {
    hide Behaves, ReadyAt, Announced;
    assert SubmittedAt(tr, t, i);
    assert FinishesFrom(tr, t, i);
    k :| i <= k && ReadyAt(tr, t, k);
    if t > 0 {
      var j := AllAnnounced(c, g, tr, i, t - 1);
      var n := if j < k then k else j;
      forall u: nat | u <= t ensures ReadyAt(tr, u, n) {
        if u < t {
          AnnouncedTo(tr, t - 1, j, u);
          ReadyStays(c, g, tr, u, j, n);
        } else {
          ReadyStays(c, g, tr, t, k, n);
        }
      }
      k := n;
    }
    AnnouncedFrom(tr, t, k);
  }

  lemma AnnouncedTo(tr: Trace, t: nat, k: nat, u: nat)
    requires Announced(tr.at(k), t) && u <= t
    ensures ReadyAt(tr, u, k)
  {
  }

  lemma AnnouncedFrom(tr: Trace, t: nat, k: nat)
    requires forall u: nat | u <= t :: ReadyAt(tr, u, k)
    ensures Announced(tr.at(k), t)
  {
    assert ReadyAt(tr, t, k);
    forall u | 0 <= u <= t ensures tr.at(k).tickets[u].phase.Ready? { assert ReadyAt(tr, u, k); }
  }

  /** Progress under the stated assumption: if every submitter finishes, every
      ticket submitted in a fair run commits, whether or not more are submitted. */
  lemma SubmittedTicketsCommit(c: Size, g: Program, tr: Trace, i: nat, t: nat) returns (k: nat)
    requires Behaves(c, g, tr) && Fair(c, g, tr) && SubmittersFinish(tr) && t < |tr.at(i).tickets|
    ensures i <= k && Committed(tr, t, k)
  {
    hide Fair, Behaves, Announced;
    var j := AllAnnounced(c, g, tr, i, t);
    k := AnnouncedTicketsCommit(c, g, tr, j, t);
  }
}
