/** The cyclic pipeline controller: P+1 pipes, a worker pool and one monitor
    drive tickets through a ring of contexts, one step per atomic access or
    handler call. What the handlers do to the tree is left to a program, which
    fixes how many stages each ticket has and whom it waits for. */
module Cyclic {
  /** Ticket t has `stages(t)` structural handlers and, in worker mode, a
      final task. Stage j of t reads a node stamped `dep(t, j)`; its task
      spins on the tasks of `needs(t)`. */
  datatype Program = Program(stages: nat -> nat, task: nat -> bool, dep: (nat, nat) -> nat, needs: nat -> set<nat>)
  {
    ghost predicate Ok() {
      && stages(0) == 1 && !task(0)
      && (forall t :: stages(t) >= 1)
      && (forall t, j :: t > 0 ==> dep(t, j) < t)
      && (forall t: nat, u: nat :: u in needs(t) ==> 0 < u < t)
    }
  }

  /** P pipeline stages after the entry, ring slots, workers. */
  datatype Size = Size(P: nat, ring: nat, workers: nat)
  {
    predicate Ok() { P >= 1 && ring >= 2 && workers >= 1 }
  }

  /** The word in a stage slot; `All` is ~0. */
  datatype Stage = At(n: nat) | All

  datatype Slot = Slot(sno: nat, stage: Stage)

  /** How far the submitting client has come with the ticket's context. */
  datatype Phase = Reserved | Admitted | Filled | Ready

  /** A ticket and its context: `passed` counts the stages it has gone
      through, `stored` is the last stage word stored for it, `carrier` the
      worker it was handed to. */
  datatype Ticket = Ticket(phase: Phase, passed: nat, taskDone: bool, cno: nat, stored: Stage, carrier: nat)

  datatype PipePc = Arrive | Publish | Await | Reload | Go | Pop | Dispatch(w: nat) | StoreAll

  datatype Pipe = Pipe(ticket: nat, pc: PipePc, tasks: nat, pred: nat, compl: nat, pace: nat)

  datatype WorkerPc = Idle | Loop | WAwait | WReload | WGo | Task | Store | Finish | Push

  datatype Worker = Worker(tid: nat, last: nat, pc: WorkerPc, ticket: nat, local: nat)

  datatype MonitorPc = LoadSubmitted | ScanInited | StoreInited | ScanCommitted | PublishRoot | StoreCommitted

  datatype Monitor = Monitor(pc: MonitorPc, sub: nat, next: nat)

  datatype State = State(
    tickets: seq<Ticket>,
    slots: seq<Slot>,
    inited: nat,
    committed: nat,
    pipes: seq<Pipe>,
    workers: seq<Worker>,
    available: seq<nat>,
    monitor: Monitor
  )

  datatype ClientStep = Admit | Fill | Announce

  datatype PipeStep =
    LoadTasks | LoadPace | Run | Advance | BeginExit | WaitLoad | LoadCommitted | RunExit | PopWorker | HandOver | SkipWorker

  datatype WorkerStep =
    ReadTid | Examine | WWaitLoad | WLoadCommitted | WRun | RunTask | StoreStage | StoreDone | PushSelf

  datatype MonitorStep = Poll | ScanReady | RaiseInited | ScanDone | PublishLast | RaiseCommitted

  datatype Action = Submit | OfClient(t: nat, c: ClientStep) | OfPipe(p: nat, a: PipeStep) | OfWorker(w: nat, b: WorkerStep) | OfMonitor(m: MonitorStep)

  // ---- the static schedule -------------------------------------------------

  /** The stage pipe p performs on ticket t: pipes take every ticket in turn,
      one stage earlier each time. */
  function StageAt(P: nat, p: nat, t: nat): (j: nat)
    requires p <= P
    ensures j <= P
    ensures t == 1 ==> j == p
  {
    if t == 0 then (if p == P then 0 else p + 1)
    else
      var j := StageAt(P, p, t - 1);
      if j == 0 then P else j - 1
  }

  function NextPipe(P: nat, p: nat): (q: nat)
    requires p <= P
    ensures q <= P
  {
    if p == P then 0 else p + 1
  }

  function PrevPipe(P: nat, p: nat): (q: nat)
    requires p <= P
    ensures q <= P && NextPipe(P, q) == p
  {
    if p == 0 then P else p - 1
  }

  lemma {:induction false} NextStage(P: nat, p: nat, t: nat)
    requires p <= P
    ensures StageAt(P, NextPipe(P, p), t) == if StageAt(P, p, t) == P then 0 else StageAt(P, p, t) + 1
  {
    if t > 0 {
      NextStage(P, p, t - 1);
    }
  }

  lemma {:induction false} StageOnce(P: nat, p: nat, q: nat, t: nat)
    requires p <= P && q <= P && StageAt(P, p, t) == StageAt(P, q, t)
    ensures p == q
  {
    if t > 0 {
      StageOnce(P, p, q, t - 1);
    }
  }

  /** The pipe that performs stage j of ticket t. */
  function PipeFor(P: nat, j: nat, t: nat): (p: nat)
    requires j <= P
    ensures p <= P && StageAt(P, p, t) == j
    decreases t
  {
    if t == 0 then (if j == 0 then P else j - 1)
    else PipeFor(P, if j == P then 0 else j + 1, t - 1)
  }

  lemma ModStep(x: nat, n: nat)
    requires n > 0
    ensures (x + 1) % n == if x % n == n - 1 then 0 else x % n + 1
  {
    var q, r := x / n, x % n;
    assert x == q * n + r;
    if r == n - 1 {
      assert x + 1 == (q + 1) * n;
      ModIs(x + 1, n, q + 1, 0);
    } else {
      ModIs(x + 1, n, q, r + 1);
    }
  }

  lemma ModIs(x: nat, n: nat, q: nat, r: nat)
    requires n > 0 && x == q * n + r && r < n
    ensures x % n == r
  {
    var d := x / n - q;
    assert x == (x / n) * n + x % n;
    assert d * n == r - x % n;
    assert d >= 1 ==> d * n >= n;
    assert d <= -1 ==> d * n + n <= 0;
  }

  /** The compile-time role test (pipe index against the ticket's position in
      its round) is the staircase: equal for the entry, one ahead for the
      exit. */
  lemma {:induction false} RolesAreStages(P: nat, p: nat, t: nat)
    requires p <= P && P >= 1 && t >= 1
    ensures StageAt(P, p, t) == 0 <==> p == (t - 1) % (P + 1)
    ensures StageAt(P, p, t) == P <==> (p + 1) % (P + 1) == (t - 1) % (P + 1)
  {
    RoleOffset(P, p, t);
    var tid := (t - 1) % (P + 1);
    assert tid <= P;
    if p == P {
      ModIs(p + 1, P + 1, 1, 0);
    } else {
      ModIs(p + 1, P + 1, 0, p + 1);
    }
  }

  lemma {:induction false} RoleOffset(P: nat, p: nat, t: nat)
    requires p <= P && t >= 1
    ensures var tid := (t - 1) % (P + 1);
            StageAt(P, p, t) == if p >= tid then p - tid else p + P + 1 - tid
  {
    if t == 1 {
      assert 0 % (P + 1) == 0;
    } else {
      RoleOffset(P, p, t - 1);
      ModStep(t - 2, P + 1);
    }
  }

  // ---- steps ----------------------------------------------------------------

  function Origin(P: nat): Ticket {
    Ticket(Ready, P + 1, true, 0, All, 0)
  }

  function Init(c: Size): State {
    State([Origin(c.P)], seq(c.ring, _ => Slot(0, All)), 0, 0,
          seq(c.P + 1, _ => Pipe(1, Arrive, 0, 0, 0, 0)), seq(c.workers, _ => Worker(0, 0, Idle, 0, 0)),
          seq(c.workers, i requires i >= 0 => i), Monitor(LoadSubmitted, 0, 0))
  }

  predicate Structural(g: Program, k: Ticket, t: nat) {
    k.passed < g.stages(t)
  }

  /** The ticket's op is FAT_APPEND or MATERIALIZE. */
  predicate Tasked(g: Program, k: Ticket, t: nat) {
    k.passed >= g.stages(t) && g.task(t) && !k.taskDone
  }

  /** The ticket's op is DONE. */
  predicate Done(g: Program, k: Ticket, t: nat) {
    k.passed >= g.stages(t) && (g.task(t) ==> k.taskDone)
  }

  predicate Covers(st: Stage, n: nat) {
    st.All? || st.n >= n
  }

  /** The ticket in the context a thread reaches for t. */
  function Held(c: Size, s: State, t: nat): nat
    requires c.ring > 0 && |s.slots| == c.ring
  {
    s.slots[t % c.ring].sno
  }

  predicate Wellsized(c: Size, s: State) {
    && c.Ok() && s.tickets != [] && |s.slots| == c.ring && |s.pipes| == c.P + 1 && |s.workers| == c.workers
    && (forall i :: 0 <= i < |s.slots| ==> s.slots[i].sno < |s.tickets|)
  }

  predicate PhaseIs(s: State, t: nat, phase: Phase) {
    0 < t < |s.tickets| && s.tickets[t].phase == phase
  }

  predicate ClientEnabled(c: Size, s: State, t: nat, a: ClientStep) {
    match a
    case Admit => PhaseIs(s, t, Reserved) && t < s.committed + c.ring
    case Fill => PhaseIs(s, t, Admitted)
    case Announce => PhaseIs(s, t, Filled)
  }

  predicate PipeEnabled(c: Size, s: State, p: nat, a: PipeStep)
    requires Wellsized(c, s)
  {
    p <= c.P &&
    var pipe := s.pipes[p];
    var j := StageAt(c.P, p, pipe.ticket);
    match a
    case LoadTasks => pipe.pc.Arrive? && j == 0 && pipe.tasks < pipe.ticket
    case LoadPace => pipe.pc.Arrive? && j > 0 && pipe.pred < pipe.ticket
    case Run => pipe.pc.Arrive? && j < c.P && pipe.ticket <= if j == 0 then pipe.tasks else pipe.pred
    case Advance => pipe.pc.Publish?
    case BeginExit => pipe.pc.Arrive? && j == c.P && pipe.ticket <= pipe.pred
    case WaitLoad => pipe.pc.Await?
    case LoadCommitted => pipe.pc.Reload?
    case RunExit => pipe.pc.Go?
    case PopWorker => pipe.pc.Pop? && s.available != []
    case HandOver => pipe.pc.Dispatch? && pipe.pc.w < c.workers
    case SkipWorker => pipe.pc.StoreAll?
  }

  predicate WorkerEnabled(c: Size, g: Program, s: State, w: nat, a: WorkerStep)
    requires Wellsized(c, s)
  {
    w < c.workers &&
    var worker := s.workers[w];
    match a
    case ReadTid => worker.pc.Idle? && worker.tid != worker.last
    case Examine => worker.pc.Loop?
    case WWaitLoad => worker.pc.WAwait?
    case WLoadCommitted => worker.pc.WReload?
    case WRun => worker.pc.WGo?
    case RunTask => worker.pc.Task? && NeedsDone(g, s.tickets, Held(c, s, worker.ticket))
    case StoreStage => worker.pc.Store?
    case StoreDone => worker.pc.Finish?
    case PushSelf => worker.pc.Push?
  }

  /** The spins inside the task handlers have ended. */
  predicate NeedsDone(g: Program, tickets: seq<Ticket>, u: nat) {
    forall d :: d in g.needs(u) ==> d < |tickets| && Done(g, tickets[d], d)
  }

  predicate MonitorEnabled(s: State, a: MonitorStep) {
    match a
    case Poll => s.monitor.pc.LoadSubmitted?
    case ScanReady => s.monitor.pc.ScanInited?
    case RaiseInited => s.monitor.pc.StoreInited?
    case ScanDone => s.monitor.pc.ScanCommitted?
    case PublishLast => s.monitor.pc.PublishRoot?
    case RaiseCommitted => s.monitor.pc.StoreCommitted?
  }

  predicate Enabled(c: Size, g: Program, s: State, a: Action)
    requires Wellsized(c, s)
  {
    match a
    case Submit => true
    case OfClient(t, b) => ClientEnabled(c, s, t, b)
    case OfPipe(p, b) => PipeEnabled(c, s, p, b)
    case OfWorker(w, b) => WorkerEnabled(c, g, s, w, b)
    case OfMonitor(b) => MonitorEnabled(s, b)
  }

  function SetTicket(s: State, t: nat, k: Ticket): State
    requires t < |s.tickets|
  {
    s.(tickets := s.tickets[t := k])
  }

  function SetPipe(s: State, p: nat, pipe: Pipe): State
    requires p < |s.pipes|
  {
    s.(pipes := s.pipes[p := pipe])
  }

  function SetWorker(s: State, w: nat, worker: Worker): State
    requires w < |s.workers|
  {
    s.(workers := s.workers[w := worker])
  }

  /** A store to the stage slot of the ticket in a context. */
  function SetStage(c: Size, s: State, u: nat, st: Stage): State
    requires c.ring > 0 && |s.slots| == c.ring && u < |s.tickets|
  {
    s.(slots := s.slots[u % c.ring := s.slots[u % c.ring].(stage := st)],
       tickets := s.tickets[u := s.tickets[u].(stored := st)])
  }

  function Pass(s: State, u: nat): State
    requires u < |s.tickets|
  {
    SetTicket(s, u, s.tickets[u].(passed := s.tickets[u].passed + 1))
  }

  /** One round of wait_stage's loop: the cached commit number, or the stage
      word of the slot the node's version maps to. */
  predicate WaitOver(c: Size, g: Program, s: State, u: nat, stage: nat)
    requires Wellsized(c, s) && u < |s.tickets|
  {
    var v := g.dep(u, s.tickets[u].passed);
    s.tickets[u].cno >= v || Covers(s.slots[v % c.ring].stage, stage)
  }

  function ApplyClient(c: Size, s: State, t: nat, a: ClientStep): State
    requires Wellsized(c, s) && ClientEnabled(c, s, t, a)
  {
    match a
    case Admit => SetTicket(s, t, s.tickets[t].(phase := Admitted))
    case Fill =>
      SetTicket(s, t, s.tickets[t].(phase := Filled)).(slots := s.slots[t % c.ring := s.slots[t % c.ring].(sno := t)])
    case Announce => SetStage(c, SetTicket(s, t, s.tickets[t].(phase := Ready)), t, At(0))
  }

  function ApplyPipe(c: Size, g: Program, s: State, p: nat, a: PipeStep): State
    requires Wellsized(c, s) && PipeEnabled(c, s, p, a)
  {
    var pipe := s.pipes[p];
    var u := Held(c, s, pipe.ticket);
    match a
    case LoadTasks => SetPipe(s, p, pipe.(tasks := s.inited))
    case LoadPace => SetPipe(s, p, pipe.(pred := pipe.pace))
    case Run => SetPipe(Pass(s, u), p, pipe.(pc := Publish))
    case Advance => ApplyAdvance(c, s, p)
    case BeginExit => ApplyBeginExit(c, g, s, p)
    case WaitLoad => SetPipe(s, p, pipe.(pc := if WaitOver(c, g, s, u, 1) then Go else Reload))
    case LoadCommitted => SetPipe(SetTicket(s, u, s.tickets[u].(cno := s.committed)), p, pipe.(pc := Await))
    case RunExit => SetPipe(Pass(s, u), p, pipe.(pc := Pop, compl := s.tickets[u].cno))
    case PopWorker => SetPipe(s, p, pipe.(pc := Dispatch(s.available[0]))).(available := s.available[1..])
    case HandOver =>
      var w := pipe.pc.w;
      SetPipe(SetWorker(SetTicket(s, u, s.tickets[u].(carrier := w)), w, s.workers[w].(tid := pipe.ticket)),
              p, pipe.(pc := Arrive, ticket := pipe.ticket + 1))
    case SkipWorker => SetPipe(SetStage(c, s, u, All), p, pipe.(pc := Arrive, ticket := pipe.ticket + 1))
  }

  /** The pace store, seen by the next pipe, ends the ticket for this one. */
  function ApplyAdvance(c: Size, s: State, p: nat): State
    requires Wellsized(c, s) && p <= c.P
  {
    var t, q := s.pipes[p].ticket, NextPipe(c.P, p);
    var s' := SetPipe(s, p, s.pipes[p].(pc := Arrive, ticket := t + 1));
    SetPipe(s', q, s'.pipes[q].(pace := t))
  }

  function ApplyBeginExit(c: Size, g: Program, s: State, p: nat): State
    requires Wellsized(c, s) && p <= c.P
  {
    var u := Held(c, s, s.pipes[p].ticket);
    var k := s.tickets[u];
    if Done(g, k, u) then
      SetPipe(Pass(s, u), p, s.pipes[p].(pc := StoreAll))
    else
      var s' := SetTicket(s, u, k.(cno := s.pipes[p].compl));
      if Tasked(g, k, u) then SetPipe(Pass(s', u), p, s.pipes[p].(pc := Pop))
      else SetPipe(s', p, s.pipes[p].(pc := Await))
  }

  function ApplyWorker(c: Size, g: Program, s: State, w: nat, a: WorkerStep): State
    requires Wellsized(c, s) && WorkerEnabled(c, g, s, w, a)
  {
    var worker := s.workers[w];
    var u := Held(c, s, worker.ticket);
    var k := s.tickets[u];
    match a
    case ReadTid => SetWorker(s, w, worker.(pc := Loop, ticket := worker.tid, local := 1))
    case Examine => SetWorker(s, w, worker.(pc := if Done(g, k, u) then Finish else if Tasked(g, k, u) then Task else WAwait))
    case WWaitLoad => SetWorker(s, w, worker.(pc := if WaitOver(c, g, s, u, worker.local + 1) then WGo else WReload))
    case WLoadCommitted => SetWorker(SetTicket(s, u, k.(cno := s.committed)), w, worker.(pc := WAwait))
    case WRun => SetWorker(Pass(s, u), w, worker.(pc := Store))
    case RunTask => SetWorker(SetTicket(s, u, k.(passed := k.passed + 1, taskDone := true)), w, worker.(pc := Store))
    case StoreStage => SetWorker(SetStage(c, s, u, At(worker.local)), w, worker.(pc := Loop, local := worker.local + 1))
    case StoreDone => SetWorker(SetStage(c, s, u, All), w, worker.(pc := Push, last := worker.ticket))
    case PushSelf => SetWorker(s, w, worker.(pc := Idle)).(available := s.available + [w])
  }

  function ApplyMonitor(c: Size, s: State, a: MonitorStep): State
    requires Wellsized(c, s) && MonitorEnabled(s, a)
  {
    var m := s.monitor;
    match a
    case Poll => s.(monitor := Monitor(ScanInited, |s.tickets| - 1, s.inited))
    case ScanReady =>
      s.(monitor := if m.next < m.sub && s.slots[(m.next + 1) % c.ring].stage == At(0)
                    then m.(next := m.next + 1) else m.(pc := StoreInited))
    case RaiseInited =>
      s.(inited := if m.next > s.inited then m.next else s.inited, monitor := m.(pc := ScanCommitted, next := s.committed))
    case ScanDone =>
      s.(monitor := if m.next < s.inited && s.slots[(m.next + 1) % c.ring].stage == All
                    then m.(next := m.next + 1) else m.(pc := if m.next > s.committed then PublishRoot else LoadSubmitted))
    case PublishLast => s.(monitor := m.(pc := StoreCommitted))
    case RaiseCommitted => s.(committed := m.next, monitor := m.(pc := LoadSubmitted))
  }

  /** The version readers are given: it is published before the commit number is
      raised. */
  function Published(s: State): nat {
    if s.monitor.pc.StoreCommitted? && s.monitor.next > s.committed then s.monitor.next else s.committed
  }

  function Apply(c: Size, g: Program, s: State, a: Action): State
    requires Wellsized(c, s) && Enabled(c, g, s, a)
  {
    match a
    case Submit => s.(tickets := s.tickets + [Ticket(Reserved, 0, false, 0, All, 0)])
    case OfClient(t, b) => ApplyClient(c, s, t, b)
    case OfPipe(p, b) => ApplyPipe(c, g, s, p, b)
    case OfWorker(w, b) => ApplyWorker(c, g, s, w, b)
    case OfMonitor(b) => ApplyMonitor(c, s, b)
  }

  /** A run from the initial state. */
  ghost predicate Execution(c: Size, g: Program, states: seq<State>, actions: seq<Action>) {
    && c.Ok() && g.Ok() && |states| == |actions| + 1 && states[0] == Init(c)
    && forall i :: 0 <= i < |actions| ==>
         Wellsized(c, states[i]) && Enabled(c, g, states[i], actions[i]) && states[i+1] == Apply(c, g, states[i], actions[i])
  }
}
