/** The reader-version reclaimer: sequence-locked publication, reader pins,
    version-ordered retirement and reclamation, one step per atomic access.

    A root is named by the version whose update produced it, so the pair a
    reader obtains is torn exactly when its two components differ. */
module Reclaimer {
  import opened Options
  import opened Nodes

  type Node = Id

  /** What the published trees look like: `reach(v)` are the nodes reachable
      from the root of version v, `ret(v)` the nodes version v replaced. */
  datatype Forest = Forest(reach: nat -> set<Node>, ret: nat -> set<Node>)
  {
    /** A node replaced by version v is out of reach from v on, and is
        replaced once. */
    ghost predicate Sound() {
      && (forall v, w :: v <= w ==> ret(v) !! reach(w))
      && (forall v, w :: v != w ==> ret(v) !! ret(w))
    }
  }

  datatype Batch = Batch(version: nat, nodes: set<Node>)

  datatype ReaderPc =
    | Outside
    | GotSequence(sequence: nat)
    | GotRoot(sequence: nat, root: nat)
    | GotVersion(sequence: nat, root: nat, version: nat)
    | Advertised(sequence: nat, root: nat, version: nat)
    | Rejected
    | Pinned(root: nat, version: nat)

  datatype Reader = Reader(slot: Option<nat>, pc: ReaderPc)

  datatype PublisherPc =
    | Idle
    | RootPending(target: nat)
    | VersionPending(target: nat)
    | ClosePending(target: nat)
    | CommitPending(target: nat)

  /** One caller of try_reclaim: the owning thread, or an external collector. */
  datatype CollectorPc =
    | Resting
    | Scanning(next: nat, oldest: nat, writerSafe: nat)
    | Freeing(safe: nat, reclaimed: nat)
    | Releasing(reclaimed: nat)

  datatype State = State(
    sequence: nat,
    pubRoot: nat,
    pubVersion: nat,
    publisher: PublisherPc,
    committed: nat,
    lastRetired: nat,
    pendingPush: Option<Batch>,
    readers: seq<Reader>,
    collectors: seq<CollectorPc>,
    lock: Option<nat>,
    queue: seq<Batch>,
    retiredCount: nat,
    reclaimedCount: nat,
    // history
    freed: seq<Batch>
  )

  datatype Action =
    | OpenPublication(target: nat)
    | StoreRoot
    | StoreVersion
    | ClosePublication
    | StoreCommitted
    | CountRetired
    | PushRetired
    | LoadSequence(r: nat)
    | LoadRoot(r: nat)
    | LoadVersion(r: nat)
    | StoreSlot(r: nat)
    | Validate(r: nat)
    | ResetSlot(r: nat)
    | Unpin(r: nat)
    | BeginReclaim(c: nat, writerSafe: nat)
    | ScanSlot(c: nat)
    | TakeLock(c: nat)
    | FreeFront(c: nat)
    | DropLock(c: nat)
    | CountReclaimed(c: nat)

  function Init(readers: nat, collectors: nat): State {
    State(0, 0, 0, Idle, 0, 0, None,
          seq(readers, _ => Reader(None, Outside)), seq(collectors, _ => Resting), None,
          [], 0, 0, [])
  }

  function Min(a: nat, b: nat): nat { if a < b then a else b }

  predicate Enabled(s: State, a: Action) {
    match a
    case OpenPublication(target) => s.publisher.Idle? && s.pendingPush.None? && s.pubVersion < target == s.lastRetired
    case StoreRoot => s.publisher.RootPending?
    case StoreVersion => s.publisher.VersionPending?
    case ClosePublication => s.publisher.ClosePending?
    case StoreCommitted => s.publisher.CommitPending?
    case CountRetired => s.publisher.Idle? && s.pendingPush.None?
    case PushRetired => s.pendingPush.Some? && s.lock.None?
    case LoadSequence(r) => r < |s.readers| && s.readers[r].pc.Outside? && s.sequence % 2 == 0
    case LoadRoot(r) => r < |s.readers| && s.readers[r].pc.GotSequence?
    case LoadVersion(r) => r < |s.readers| && s.readers[r].pc.GotRoot?
    case StoreSlot(r) => r < |s.readers| && s.readers[r].pc.GotVersion?
    case Validate(r) => r < |s.readers| && s.readers[r].pc.Advertised?
    case ResetSlot(r) => r < |s.readers| && s.readers[r].pc.Rejected?
    case Unpin(r) => r < |s.readers| && s.readers[r].pc.Pinned?
    case BeginReclaim(c, w) => c < |s.collectors| && s.collectors[c].Resting? && w <= s.committed
    case ScanSlot(c) => c < |s.collectors| && s.collectors[c].Scanning? && s.collectors[c].next < |s.readers|
    case TakeLock(c) => c < |s.collectors| && s.collectors[c].Scanning? && s.collectors[c].next == |s.readers| && s.lock.None?
    case FreeFront(c) => c < |s.collectors| && s.collectors[c].Freeing? && s.queue != [] && s.queue[0].version <= s.collectors[c].safe
    case DropLock(c) => c < |s.collectors| && s.collectors[c].Freeing? && (s.queue == [] || s.collectors[c].safe < s.queue[0].version)
    case CountReclaimed(c) => c < |s.collectors| && s.collectors[c].Releasing?
  }

  function SetReader(s: State, r: nat, reader: Reader): State
    requires r < |s.readers|
  {
    s.(readers := s.readers[r := reader])
  }

  function SetCollector(s: State, c: nat, pc: CollectorPc): State
    requires c < |s.collectors|
  {
    s.(collectors := s.collectors[c := pc])
  }

  function Apply(w: Forest, s: State, a: Action): State
    requires Enabled(s, a)
  {
    match a
    case OpenPublication(target) => s.(sequence := s.sequence + 1, publisher := RootPending(target))
    case StoreRoot => s.(pubRoot := s.publisher.target, publisher := VersionPending(s.publisher.target))
    case StoreVersion => s.(pubVersion := s.publisher.target, publisher := ClosePending(s.publisher.target))
    case ClosePublication => s.(sequence := s.sequence + 1, publisher := CommitPending(s.publisher.target))
    case StoreCommitted => s.(committed := s.publisher.target, publisher := Idle)
    case CountRetired =>
      // a context without replaced nodes leaves no batch behind
      var version := s.lastRetired + 1;
      var nodes := w.ret(version);
      s.(lastRetired := version, retiredCount := s.retiredCount + |nodes|,
         pendingPush := if nodes == {} then None else Some(Batch(version, nodes)))
    case PushRetired => s.(queue := s.queue + [s.pendingPush.value], pendingPush := None)
    case LoadSequence(r) => SetReader(s, r, s.readers[r].(pc := GotSequence(s.sequence)))
    case LoadRoot(r) => SetReader(s, r, s.readers[r].(pc := GotRoot(s.readers[r].pc.sequence, s.pubRoot)))
    case LoadVersion(r) =>
      SetReader(s, r, s.readers[r].(pc := GotVersion(s.readers[r].pc.sequence, s.readers[r].pc.root, s.pubVersion)))
    case StoreSlot(r) =>
      var pc := s.readers[r].pc;
      SetReader(s, r, Reader(Some(pc.version), Advertised(pc.sequence, pc.root, pc.version)))
    case Validate(r) =>
      var pc := s.readers[r].pc;
      SetReader(s, r, s.readers[r].(pc := if pc.sequence == s.sequence then Pinned(pc.root, pc.version) else Rejected))
    case ResetSlot(r) => SetReader(s, r, Reader(None, Outside))
    case Unpin(r) => SetReader(s, r, Reader(None, Outside))
    case BeginReclaim(c, writerSafe) => SetCollector(s, c, Scanning(0, s.pubVersion, writerSafe))
    case ScanSlot(c) =>
      var pc := s.collectors[c];
      var slot := s.readers[pc.next].slot;
      SetCollector(s, c, Scanning(pc.next + 1, if slot.Some? then Min(pc.oldest, slot.value) else pc.oldest, pc.writerSafe))
    case TakeLock(c) =>
      SetCollector(s, c, Freeing(Min(s.collectors[c].oldest, s.collectors[c].writerSafe), 0)).(lock := Some(c))
    case FreeFront(c) =>
      var batch := s.queue[0];
      SetCollector(s, c, s.collectors[c].(reclaimed := s.collectors[c].reclaimed + |batch.nodes|))
        .(queue := s.queue[1..], freed := s.freed + [batch])
    case DropLock(c) => SetCollector(s, c, Releasing(s.collectors[c].reclaimed)).(lock := None)
    case CountReclaimed(c) =>
      SetCollector(s, c, Resting).(reclaimedCount := s.reclaimedCount + s.collectors[c].reclaimed)
  }

  /** A run of the reclaimer from its initial state. */
  ghost predicate Run(w: Forest, readers: nat, collectors: nat, states: seq<State>, actions: seq<Action>) {
    && |states| == |actions| + 1
    && states[0] == Init(readers, collectors)
    && forall i :: 0 <= i < |actions| ==> Enabled(states[i], actions[i]) && states[i+1] == Apply(w, states[i], actions[i])
  }

  // ---- inductive invariant ------------------------------------------------

  /** A reader whose candidate pair is pinned or can still validate. */
  predicate Live(s: State, r: nat)
    requires r < |s.readers|
  {
    match s.readers[r].pc
    case GotVersion(q, _, _) => q == s.sequence
    case Advertised(q, _, _) => q == s.sequence
    case Pinned(_, _) => true
    case _ => false
  }

  function LiveVersion(s: State, r: nat): nat
    requires r < |s.readers| && Live(s, r)
  {
    match s.readers[r].pc
    case GotVersion(_, _, v) => v
    case Advertised(_, _, v) => v
    case Pinned(_, v) => v
  }

  predicate PublisherInv(s: State) {
    && s.committed <= s.pubVersion <= s.lastRetired
    && match s.publisher
       case Idle => s.sequence % 2 == 0 && s.pubRoot == s.pubVersion
       case RootPending(t) => s.sequence % 2 == 1 && s.pubVersion < t == s.lastRetired
       case VersionPending(t) => s.sequence % 2 == 1 && s.pubVersion < t == s.lastRetired && s.pubRoot == t
       case ClosePending(t) => s.sequence % 2 == 1 && s.pubVersion == t == s.lastRetired && s.pubRoot == t
       case CommitPending(t) => s.sequence % 2 == 0 && s.pubVersion == t == s.lastRetired && s.pubRoot == t
  }

  predicate ReaderInv(s: State, r: nat)
    requires r < |s.readers|
  {
    match s.readers[r].pc
    case Outside => s.readers[r].slot.None?
    case Rejected => true
    case GotSequence(q) => q % 2 == 0 && q <= s.sequence
    case GotRoot(q, root) => q % 2 == 0 && q <= s.sequence && (q == s.sequence ==> root == s.pubRoot)
    case GotVersion(q, root, v) =>
      q % 2 == 0 && q <= s.sequence && (q == s.sequence ==> root == s.pubRoot && v == s.pubVersion)
    case Advertised(q, root, v) =>
      && q % 2 == 0 && q <= s.sequence && (q == s.sequence ==> root == s.pubRoot && v == s.pubVersion)
      && s.readers[r].slot == Some(v)
    case Pinned(root, v) => root == v <= s.pubVersion && s.readers[r].slot == Some(v)
  }

  /** No live reader is older than a bound. */
  ghost predicate NotBelow(s: State, bound: nat) {
    && bound <= s.pubVersion
    && forall r :: 0 <= r < |s.readers| && Live(s, r) ==> bound <= LiveVersion(s, r)
  }

  /** The scanned readers, and all unpinned ones, respect the running minimum. */
  ghost predicate ScanBound(s: State, next: nat, oldest: nat) {
    && oldest <= s.pubVersion
    && forall r :: 0 <= r < |s.readers| && Live(s, r) && (r < next || !s.readers[r].pc.Pinned?) ==> oldest <= LiveVersion(s, r)
  }

  ghost predicate CollectorInv(s: State, c: nat)
    requires c < |s.collectors|
  {
    match s.collectors[c]
    case Resting => s.lock != Some(c)
    case Scanning(next, oldest, writerSafe) =>
      s.lock != Some(c) && next <= |s.readers| && writerSafe <= s.committed && ScanBound(s, next, oldest)
    case Freeing(safe, _) => s.lock == Some(c) && safe <= s.committed && NotBelow(s, safe)
    case Releasing(_) => s.lock != Some(c)
  }

  /** Batches are exactly what their versions replaced, in version order. */
  ghost predicate Ordered(w: Forest, batches: seq<Batch>) {
    && (forall i :: 0 <= i < |batches| ==> batches[i].nodes == w.ret(batches[i].version))
    && (forall i, j :: 0 <= i < j < |batches| ==> batches[i].version < batches[j].version)
  }

  function Pending(s: State): seq<Batch> {
    s.freed + s.queue + (if s.pendingPush.Some? then [s.pendingPush.value] else [])
  }

  ghost predicate QueueInv(w: Forest, s: State) {
    && Ordered(w, Pending(s))
    && (forall i :: 0 <= i < |Pending(s)| ==> Pending(s)[i].version <= s.lastRetired)
    && (forall i :: 0 <= i < |s.freed| ==> s.freed[i].version <= s.committed && NotBelow(s, s.freed[i].version))
    && (s.pendingPush.Some? ==> s.publisher.Idle?)
  }

  function Size(batches: seq<Batch>): nat {
    if batches == [] then 0 else Size(batches[..|batches|-1]) + |batches[|batches|-1].nodes|
  }

  function InFlight(pcs: seq<CollectorPc>): nat {
    if pcs == [] then 0 else
    InFlight(pcs[..|pcs|-1]) + Carried(pcs[|pcs|-1])
  }

  function Carried(pc: CollectorPc): nat {
    match pc case Freeing(_, n) => n case Releasing(n) => n case _ => 0
  }

  ghost predicate CountInv(s: State) {
    && s.retiredCount == Size(Pending(s))
    && s.reclaimedCount + InFlight(s.collectors) == Size(s.freed)
  }

  ghost predicate Inv(w: Forest, s: State) {
    && PublisherInv(s)
    && (forall r :: 0 <= r < |s.readers| ==> ReaderInv(s, r))
    && (forall c :: 0 <= c < |s.collectors| ==> CollectorInv(s, c))
    && QueueInv(w, s)
    && CountInv(s)
  }

  // ---- counting -----------------------------------------------------------

  lemma {:induction false} SizeAppend(a: seq<Batch>, b: seq<Batch>)
    ensures Size(a + b) == Size(a) + Size(b)
  {
    if b == [] {
      assert a + b == a;
    } else {
      var last := |b| - 1;
      assert (a + b)[..|a + b| - 1] == a + b[..last];
      SizeAppend(a, b[..last]);
    }
  }

  lemma {:induction false} InFlightUpdate(pcs: seq<CollectorPc>, c: nat, pc: CollectorPc)
    requires c < |pcs|
    ensures InFlight(pcs[c := pc]) + Carried(pcs[c]) == InFlight(pcs) + Carried(pc)
  {
    var last := |pcs| - 1;
    if c == last {
      assert pcs[c := pc][..last] == pcs[..last];
    } else {
      assert pcs[c := pc][..last] == pcs[..last][c := pc];
      InFlightUpdate(pcs[..last], c, pc);
    }
  }

  lemma {:induction false} InFlightInit(n: nat)
    ensures InFlight(seq(n, _ => Resting)) == 0
  {
    if n > 0 {
      assert seq(n, _ => Resting)[..n-1] == seq(n - 1, _ => Resting);
      InFlightInit(n - 1);
    }
  }

  // ---- preservation, one lemma per conjunct -------------------------------

  lemma KeepPublisher(w: Forest, s: State, a: Action)
    requires Inv(w, s) && Enabled(s, a)
    ensures PublisherInv(Apply(w, s, a))
  {
  }

  lemma KeepReaders(w: Forest, s: State, a: Action)
    requires Inv(w, s) && Enabled(s, a)
    ensures var t := Apply(w, s, a); forall r :: 0 <= r < |t.readers| ==> ReaderInv(t, r)
  {
    hide Enabled, PublisherInv, ReaderInv, QueueInv, CountInv, CollectorInv;
    var t := Apply(w, s, a);
    SameReaders(w, s, a);
    forall r | 0 <= r < |t.readers|
      ensures ReaderInv(t, r)
    {
      KeepReader(w, s, a, r);
    }
  }

  lemma SameReaders(w: Forest, s: State, a: Action)
    requires Enabled(s, a)
    ensures |Apply(w, s, a).readers| == |s.readers|
  {
  }

  lemma KeepReader(w: Forest, s: State, a: Action, r: nat)
    requires Enabled(s, a) && PublisherInv(s) && r < |s.readers| && ReaderInv(s, r)
    ensures r < |Apply(w, s, a).readers| && ReaderInv(Apply(w, s, a), r)
  {
  }

  /** A bound on live readers survives every step: whoever becomes live holds
      the current published version. */
  lemma KeepNotBelow(w: Forest, s: State, a: Action, bound: nat)
    requires Inv(w, s) && Enabled(s, a) && NotBelow(s, bound)
    ensures NotBelow(Apply(w, s, a), bound)
  {
    var t := Apply(w, s, a);
    forall r | 0 <= r < |t.readers| && Live(t, r)
      ensures bound <= LiveVersion(t, r)
    {
      assert ReaderInv(s, r);
      assert Live(s, r) ==> bound <= LiveVersion(s, r);
    }
  }

  lemma KeepScanBound(w: Forest, s: State, a: Action, next: nat, oldest: nat)
    requires Inv(w, s) && Enabled(s, a) && ScanBound(s, next, oldest)
    ensures ScanBound(Apply(w, s, a), next, oldest)
  {
    var t := Apply(w, s, a);
    forall r | 0 <= r < |t.readers| && Live(t, r) && (r < next || !t.readers[r].pc.Pinned?)
      ensures oldest <= LiveVersion(t, r)
    {
      assert ReaderInv(s, r);
      assert Live(s, r) && (r < next || !s.readers[r].pc.Pinned?) ==> oldest <= LiveVersion(s, r);
    }
  }

  lemma KeepCollectors(w: Forest, s: State, a: Action)
    requires Inv(w, s) && Enabled(s, a)
    ensures var t := Apply(w, s, a); forall c :: 0 <= c < |t.collectors| ==> CollectorInv(t, c)
  {
    hide Inv, Apply, CollectorInv;
    CollectorsStay(w, s, a);
    forall c | 0 <= c < |s.collectors|
      ensures CollectorInv(Apply(w, s, a), c)
    {
      KeepCollector(w, s, a, c);
    }
  }

  lemma CollectorsStay(w: Forest, s: State, a: Action)
    requires Enabled(s, a)
    ensures |Apply(w, s, a).collectors| == |s.collectors|
  {
  }

  lemma KeepCollector(w: Forest, s: State, a: Action, c: nat)
    requires Inv(w, s) && Enabled(s, a) && c < |s.collectors|
    ensures CollectorInv(Apply(w, s, a), c)
  {
    KeepPublisher(w, s, a);
    assert CollectorInv(s, c);
    match s.collectors[c] {
      case Scanning(_, _, _) => KeepScanning(w, s, a, c);
      case Freeing(safe, _) =>
        KeepNotBelow(w, s, a, safe);
        assert a.DropLock? ==> CollectorInv(s, a.c);
      case _ => KeepResting(w, s, a, c);
    }
  }

  lemma KeepScanning(w: Forest, s: State, a: Action, c: nat)
    requires Inv(w, s) && Enabled(s, a) && c < |s.collectors| && s.collectors[c].Scanning?
    ensures CollectorInv(Apply(w, s, a), c)
  {
    var t := Apply(w, s, a);
    var next, oldest := s.collectors[c].next, s.collectors[c].oldest;
    assert CollectorInv(s, c);
    if a == ScanSlot(c) {
      ScanStep(s, c);
    } else if a == TakeLock(c) {
      forall r | 0 <= r < |t.readers| && Live(t, r)
        ensures t.collectors[c].safe <= LiveVersion(t, r)
      {
        assert Live(s, r) && r < next;
      }
    } else {
      KeepScanBound(w, s, a, next, oldest);
      assert t.collectors[c] == s.collectors[c];
    }
  }

  /** A collector that starts holds the published version, which no unpinned
      live reader is below. */
  lemma KeepResting(w: Forest, s: State, a: Action, c: nat)
    requires Inv(w, s) && Enabled(s, a) && c < |s.collectors|
    requires s.collectors[c].Resting? || s.collectors[c].Releasing?
    ensures CollectorInv(Apply(w, s, a), c)
  {
    assert CollectorInv(s, c);
    if a.BeginReclaim? && a.c == c {
      forall r | 0 <= r < |s.readers| && Live(s, r) && !s.readers[r].pc.Pinned?
        ensures LiveVersion(s, r) == s.pubVersion
      {
        assert ReaderInv(s, r);
      }
    }
  }

  lemma ScanStep(s: State, c: nat)
    requires c < |s.collectors| && s.collectors[c].Scanning? && s.collectors[c].next < |s.readers|
    requires forall r :: 0 <= r < |s.readers| ==> ReaderInv(s, r)
    requires ScanBound(s, s.collectors[c].next, s.collectors[c].oldest)
    ensures var pc := s.collectors[c]; var slot := s.readers[pc.next].slot;
            ScanBound(s, pc.next + 1, if slot.Some? then Min(pc.oldest, slot.value) else pc.oldest)
  {
    var pc := s.collectors[c];
    var slot := s.readers[pc.next].slot;
    var m := if slot.Some? then Min(pc.oldest, slot.value) else pc.oldest;
    forall r | 0 <= r < |s.readers| && Live(s, r) && (r < pc.next + 1 || !s.readers[r].pc.Pinned?)
      ensures m <= LiveVersion(s, r)
    {
      assert ReaderInv(s, r);
    }
  }

  /** The batches a step leaves behind, oldest first. */
  lemma PendingStep(w: Forest, s: State, a: Action)
    requires Enabled(s, a)
    ensures var t := Apply(w, s, a);
            Pending(t) == Pending(s) + (if a.CountRetired? && t.pendingPush.Some? then [t.pendingPush.value] else [])
  {
    var t := Apply(w, s, a);
    match a {
      case CountRetired =>
        assert Pending(s) == s.freed + s.queue;
      case PushRetired =>
        assert Pending(t) == Pending(s);
      case FreeFront(c) =>
        assert Pending(t) == Pending(s);
      case _ =>
        assert t.freed == s.freed && t.queue == s.queue && t.pendingPush == s.pendingPush;
    }
  }

  lemma FreedStep(w: Forest, s: State, a: Action, i: nat)
    requires Inv(w, s) && Enabled(s, a) && i < |Apply(w, s, a).freed|
    ensures var t := Apply(w, s, a); t.freed[i].version <= t.committed && NotBelow(t, t.freed[i].version)
  {
    var t := Apply(w, s, a);
    if a.FreeFront? && i == |s.freed| {
      assert CollectorInv(s, a.c);
      assert NotBelow(s, t.freed[i].version);
    } else {
      assert t.freed[i] == s.freed[i];
    }
    KeepNotBelow(w, s, a, t.freed[i].version);
  }

  lemma KeepQueue(w: Forest, s: State, a: Action)
    requires Inv(w, s) && Enabled(s, a)
    ensures QueueInv(w, Apply(w, s, a))
  {
    var t := Apply(w, s, a);
    PendingStep(w, s, a);
    forall i | 0 <= i < |t.freed|
      ensures t.freed[i].version <= t.committed && NotBelow(t, t.freed[i].version)
    {
      FreedStep(w, s, a, i);
    }
    assert t.pendingPush.Some? ==> t.publisher.Idle?;
    assert s.lastRetired <= t.lastRetired;
  }

  lemma KeepRetired(w: Forest, s: State, a: Action)
    requires Inv(w, s) && Enabled(s, a)
    ensures Apply(w, s, a).retiredCount == Size(Pending(Apply(w, s, a)))
  {
    var t := Apply(w, s, a);
    PendingStep(w, s, a);
    if a.CountRetired? && t.pendingPush.Some? {
      SizeAppend(Pending(s), [t.pendingPush.value]);
    } else {
      assert t.retiredCount == s.retiredCount;
      assert Pending(s) + [] == Pending(s);
    }
  }

  predicate ByCollector(a: Action) {
    a.BeginReclaim? || a.ScanSlot? || a.TakeLock? || a.FreeFront? || a.DropLock? || a.CountReclaimed?
  }

  /** What a collector has counted, carries and has freed moves together. */
  lemma CollectorStep(w: Forest, s: State, a: Action)
    requires ByCollector(a) && Enabled(s, a)
    ensures var t := Apply(w, s, a);
            && a.c < |s.collectors| == |t.collectors| && t.collectors == s.collectors[a.c := t.collectors[a.c]]
            && t.reclaimedCount + Carried(t.collectors[a.c]) + Size(s.freed) == s.reclaimedCount + Carried(s.collectors[a.c]) + Size(t.freed)
  {
    hide Size;
    if a.FreeFront? { FrontFreed(w, s, a); }
  }

  lemma OtherStep(w: Forest, s: State, a: Action)
    requires !ByCollector(a) && Enabled(s, a)
    ensures var t := Apply(w, s, a);
            t.collectors == s.collectors && t.freed == s.freed && t.reclaimedCount == s.reclaimedCount
  {
  }

  lemma KeepReclaimed(w: Forest, s: State, a: Action)
    requires CountInv(s) && Enabled(s, a)
    ensures var t := Apply(w, s, a); t.reclaimedCount + InFlight(t.collectors) == Size(t.freed)
  {
    hide Apply, Enabled, InFlight, Carried, Size;
    if ByCollector(a) {
      CollectorStep(w, s, a);
      InFlightUpdate(s.collectors, a.c, Apply(w, s, a).collectors[a.c]);
    } else {
      OtherStep(w, s, a);
    }
  }

  lemma FrontFreed(w: Forest, s: State, a: Action)
    requires a.FreeFront? && Enabled(s, a)
    ensures s.queue != [] && Size(Apply(w, s, a).freed) == Size(s.freed) + |s.queue[0].nodes|
  {
    SizeAppend(s.freed, [s.queue[0]]);
    assert Apply(w, s, a).freed == s.freed + [s.queue[0]];
    assert Size([s.queue[0]]) == |s.queue[0].nodes|;
  }

  lemma {:induction false} Invariant(w: Forest, readers: nat, collectors: nat, states: seq<State>, actions: seq<Action>, i: nat)
    requires Run(w, readers, collectors, states, actions) && i < |states|
    ensures Inv(w, states[i])
  {
    if i == 0 {
      InFlightInit(collectors);
    } else {
      Invariant(w, readers, collectors, states, actions, i - 1);
      var s, a := states[i-1], actions[i-1];
      KeepPublisher(w, s, a);
      KeepReaders(w, s, a);
      KeepCollectors(w, s, a);
      KeepQueue(w, s, a);
      KeepRetired(w, s, a);
      KeepReclaimed(w, s, a);
    }
  }

  // ---- main results -------------------------------------------------------

  /** No reader ever holds a torn pair, and nothing it can reach is freed
      while it is pinned, in any run with any number of readers and
      collectors. */
  lemma PinnedNodesStayAllocated(w: Forest, readers: nat, collectors: nat,
                                 states: seq<State>, actions: seq<Action>, i: nat, r: nat, k: nat)
    requires w.Sound() && Run(w, readers, collectors, states, actions)
    requires i < |states| && r < |states[i].readers| && states[i].readers[r].pc.Pinned?
    requires k < |states[i].freed|
    ensures states[i].readers[r].pc.root == states[i].readers[r].pc.version
    ensures states[i].freed[k].nodes !! w.reach(states[i].readers[r].pc.root)
  {
    Invariant(w, readers, collectors, states, actions, i);
    var s := states[i];
    assert ReaderInv(s, r) && Live(s, r);
    assert NotBelow(s, s.freed[k].version);
    assert Pending(s)[k] == s.freed[k];
  }

  /** Writers past the committed frontier never meet a freed node: a ticket
      above it copies from trees of the frontier or later. */
  lemma WriterNodesStayAllocated(w: Forest, readers: nat, collectors: nat,
                                 states: seq<State>, actions: seq<Action>, i: nat, k: nat, version: nat)
    requires w.Sound() && Run(w, readers, collectors, states, actions)
    requires i < |states| && k < |states[i].freed| && states[i].committed <= version
    ensures states[i].freed[k].nodes !! w.reach(version)
  {
    Invariant(w, readers, collectors, states, actions, i);
    assert Pending(states[i])[k] == states[i].freed[k];
  }

  /** No node is freed twice, and none is freed while it still waits. */
  lemma FreedOnce(w: Forest, readers: nat, collectors: nat,
                  states: seq<State>, actions: seq<Action>, i: nat, j: nat, k: nat)
    requires w.Sound() && Run(w, readers, collectors, states, actions)
    requires i < |states| && j < k < |states[i].freed + states[i].queue|
    ensures (states[i].freed + states[i].queue)[j].nodes !! (states[i].freed + states[i].queue)[k].nodes
  {
    Invariant(w, readers, collectors, states, actions, i);
    var s := states[i];
    var all := Pending(s);
    assert all[j] == (s.freed + s.queue)[j] && all[k] == (s.freed + s.queue)[k];
  }

  /** Conservation at every step: what was retired is what was reclaimed,
      plus what a collector has freed but not counted yet, plus what waits. */
  lemma RetiredIsReclaimedPlusPending(w: Forest, readers: nat, collectors: nat,
                                      states: seq<State>, actions: seq<Action>, i: nat)
    requires Run(w, readers, collectors, states, actions) && i < |states|
    ensures var s := states[i];
            s.retiredCount == s.reclaimedCount + InFlight(s.collectors) + Size(s.queue)
                              + (if s.pendingPush.Some? then |s.pendingPush.value.nodes| else 0)
  {
    Invariant(w, readers, collectors, states, actions, i);
    var s := states[i];
    SizeAppend(s.freed, s.queue);
    if s.pendingPush.Some? {
      SizeAppend(s.freed + s.queue, [s.pendingPush.value]);
    } else {
      assert Pending(s) == s.freed + s.queue;
    }
  }

  // ---- statistics ---------------------------------------------------------

  const WORD := 0x1_0000_0000_0000_0000

  /** get_statistics loads the two 64-bit counters one after the other, from
      states of its own, and subtracts them as words. */
  function ReportedPending(first: State, second: State): nat {
    (first.retiredCount % WORD - second.reclaimedCount % WORD) % WORD
  }

  /** Nodes retired and not yet counted as reclaimed: carried by collectors,
      queued, or about to be queued. */
  function PendingNodes(s: State): nat {
    InFlight(s.collectors) + Size(s.queue) + (if s.pendingPush.Some? then |s.pendingPush.value.nodes| else 0)
  }

  /** Nodes an action counts as retired. */
  function Retires(w: Forest, s: State, a: Action): nat {
    if a.CountRetired? then |w.ret(s.lastRetired + 1)| else 0
  }

  /** Nodes an action counts as reclaimed. */
  function Reclaims(s: State, a: Action): nat {
    if a.CountReclaimed? && a.c < |s.collectors| then Carried(s.collectors[a.c]) else 0
  }

  /** Nodes counted as retired, and as reclaimed, by the actions i..j of a run. */
  function RetiredBetween(w: Forest, states: seq<State>, actions: seq<Action>, i: nat, j: nat): nat
    requires i <= j <= |actions| && |states| == |actions| + 1
  {
    if i == j then 0 else RetiredBetween(w, states, actions, i, j - 1) + Retires(w, states[j-1], actions[j-1])
  }

  function ReclaimedBetween(states: seq<State>, actions: seq<Action>, i: nat, j: nat): nat
    requires i <= j <= |actions| && |states| == |actions| + 1
  {
    if i == j then 0 else ReclaimedBetween(states, actions, i, j - 1) + Reclaims(states[j-1], actions[j-1])
  }

  lemma StepCounts(w: Forest, s: State, a: Action)
    requires Enabled(s, a)
    ensures Apply(w, s, a).retiredCount == s.retiredCount + Retires(w, s, a)
    ensures Apply(w, s, a).reclaimedCount == s.reclaimedCount + Reclaims(s, a)
  {
  }

  lemma {:induction false} CountsGrow(w: Forest, readers: nat, collectors: nat, states: seq<State>, actions: seq<Action>, i: nat, j: nat)
    requires Run(w, readers, collectors, states, actions) && i <= j < |states|
    ensures states[j].retiredCount == states[i].retiredCount + RetiredBetween(w, states, actions, i, j)
    ensures states[j].reclaimedCount == states[i].reclaimedCount + ReclaimedBetween(states, actions, i, j)
  {
    hide Apply, Enabled;
    if i < j {
      CountsGrow(w, readers, collectors, states, actions, i, j - 1);
      StepCounts(w, states[j-1], actions[j-1]);
    }
  }

  /** What is pending moves by what is counted between two states. */
  lemma PendingMoves(w: Forest, readers: nat, collectors: nat, states: seq<State>, actions: seq<Action>, i: nat, j: nat)
    requires Run(w, readers, collectors, states, actions) && i <= j < |states|
    ensures PendingNodes(states[j]) + ReclaimedBetween(states, actions, i, j) == PendingNodes(states[i]) + RetiredBetween(w, states, actions, i, j)
    ensures states[i].retiredCount == states[i].reclaimedCount + PendingNodes(states[i])
  {
    hide Run;
    CountsGrow(w, readers, collectors, states, actions, i, j);
    RetiredIsReclaimedPlusPending(w, readers, collectors, states, actions, i);
    RetiredIsReclaimedPlusPending(w, readers, collectors, states, actions, j);
  }

  lemma WordDifference(a: nat, b: nat)
    ensures (a % WORD - b % WORD) % WORD == (a - b) % WORD
  {
    var q := a / WORD - b / WORD;
    assert a - b == a % WORD - b % WORD + q * WORD;
    SameWord(a % WORD - b % WORD, q);
  }

  lemma {:induction false} SameWord(x: int, q: int)
    ensures (x + q * WORD) % WORD == x % WORD
    decreases if q < 0 then -q else q
  {
    if q > 0 {
      SameWord(x, q - 1);
      assert (x + (q - 1) * WORD + WORD) % WORD == (x + (q - 1) * WORD) % WORD;
    } else if q < 0 {
      SameWord(x, q + 1);
      assert (x + (q + 1) * WORD - WORD) % WORD == (x + (q + 1) * WORD) % WORD;
    }
  }

  /** No update's retirement with replaced nodes falls between two states. */
  ghost predicate NoRetirement(w: Forest, states: seq<State>, actions: seq<Action>, i: nat, j: nat)
    requires i <= j <= |actions| && |states| == |actions| + 1
  {
    forall k :: i <= k < j && actions[k].CountRetired? ==> w.ret(states[k].lastRetired + 1) == {}
  }

  /** No collector's count of freed nodes does. */
  ghost predicate NoCollection(states: seq<State>, actions: seq<Action>, i: nat, j: nat)
    requires i <= j <= |actions| && |states| == |actions| + 1
  {
    forall k :: i <= k < j ==> Reclaims(states[k], actions[k]) == 0
  }

  lemma {:induction false} NothingCounted(w: Forest, states: seq<State>, actions: seq<Action>, i: nat, j: nat)
    requires i <= j <= |actions| && |states| == |actions| + 1
    ensures RetiredBetween(w, states, actions, i, j) == 0 <==> NoRetirement(w, states, actions, i, j)
    ensures ReclaimedBetween(states, actions, i, j) == 0 <==> NoCollection(states, actions, i, j)
  {
    hide Reclaims;
    if i < j {
      NothingCounted(w, states, actions, i, j - 1);
    }
  }

  /** What a report means, for loads from any two states of any run between which
      less than 2^64 nodes are counted: it is what is pending at the second load
      if and only if no update retires nodes in between; what is pending at the
      first load if and only if no collector counts nodes in between; and it
      wraps, above all that is pending at the first load, if and only if more
      nodes are counted as reclaimed in between than are pending at the first
      load. A report taken while no update is in flight is therefore right. */
  lemma StatisticsMeaning(w: Forest, readers: nat, collectors: nat, states: seq<State>, actions: seq<Action>, i: nat, j: nat)
    requires Run(w, readers, collectors, states, actions) && i <= j < |states|
    requires PendingNodes(states[i]) < WORD && PendingNodes(states[j]) < WORD
    requires RetiredBetween(w, states, actions, i, j) < WORD && ReclaimedBetween(states, actions, i, j) < WORD
    ensures var report, before, after := ReportedPending(states[i], states[j]), PendingNodes(states[i]), PendingNodes(states[j]);
            var reclaimed := ReclaimedBetween(states, actions, i, j);
            && (report == after <==> NoRetirement(w, states, actions, i, j))
            && (report == before <==> NoCollection(states, actions, i, j))
            && (report > before <==> reclaimed > before)
            && report == if reclaimed <= before then before - reclaimed else WORD - (reclaimed - before)
  {
    hide Run, PendingNodes, RetiredBetween, ReclaimedBetween, ReportedPending, NoRetirement, NoCollection;
    RunLength(w, readers, collectors, states, actions);
    PendingMoves(w, readers, collectors, states, actions, i, j);
    CountsGrow(w, readers, collectors, states, actions, i, j);
    var before, reclaimed := PendingNodes(states[i]), ReclaimedBetween(states, actions, i, j);
    ReportIs(states[i], states[j], before, reclaimed);
    InWords(before, reclaimed);
    NothingCounted(w, states, actions, i, j);
  }

  lemma ReportIs(s: State, t: State, before: nat, reclaimed: nat)
    requires s.retiredCount == s.reclaimedCount + before && t.reclaimedCount == s.reclaimedCount + reclaimed
    ensures ReportedPending(s, t) == (before - reclaimed) % WORD
  {
    WordDifference(s.retiredCount, t.reclaimedCount);
  }

  lemma InWords(a: nat, b: nat)
    requires a < WORD && b < WORD
    ensures (a - b) % WORD == if b <= a then a - b else WORD - (b - a)
  {
  }

  ghost predicate Steps(w: Forest, s: State, a: Action, t: State) {
    Enabled(s, a) && t == Apply(w, s, a)
  }

  lemma RunExtend(w: Forest, readers: nat, collectors: nat, states: seq<State>, actions: seq<Action>, a: Action, next: State)
    returns (more: seq<State>, acts: seq<Action>)
    requires Run(w, readers, collectors, states, actions) && Steps(w, states[|actions|], a, next)
    ensures Run(w, readers, collectors, more, acts)
    ensures more == states + [next] && acts == actions + [a]
  {
    more, acts := states + [next], actions + [a];
  }

  lemma RunStart(w: Forest)
    ensures Run(w, 0, 1, [Init(0, 1)], [])
  {
  }

  /** Version 1 replaces node 7 of the initial tree and is published. */
  lemma PublishOne(w: Forest) returns (states: seq<State>, actions: seq<Action>)
    requires w.ret(1) == {Built(7)}
    ensures Run(w, 0, 1, states, actions) && |actions| == 7 && states[0] == Init(0, 1)
    ensures states[7] == State(2, 1, 1, Idle, 1, 1, None, [], [Resting], None, [Batch(1, {Built(7)})], 1, 0, [])
  {
    hide Run;
    RunStart(w);
    var s0 := State(0, 0, 0, Idle, 0, 0, None, [], [Resting], None, [], 0, 0, []);
    states, actions := [Init(0, 1)], [];
    assert Init(0, 1) == s0;
    var s1 := s0.(lastRetired := 1, retiredCount := 1, pendingPush := Some(Batch(1, {Built(7)})));
    states, actions := RunExtend(w, 0, 1, states, actions, CountRetired, s1);
    var s2 := s1.(queue := [Batch(1, {Built(7)})], pendingPush := None);
    states, actions := RunExtend(w, 0, 1, states, actions, PushRetired, s2);
    var s3 := s2.(sequence := 1, publisher := RootPending(1));
    states, actions := RunExtend(w, 0, 1, states, actions, OpenPublication(1), s3);
    var s4 := s3.(pubRoot := 1, publisher := VersionPending(1));
    states, actions := RunExtend(w, 0, 1, states, actions, StoreRoot, s4);
    var s5 := s4.(pubVersion := 1, publisher := ClosePending(1));
    states, actions := RunExtend(w, 0, 1, states, actions, StoreVersion, s5);
    var s6 := s5.(sequence := 2, publisher := CommitPending(1));
    states, actions := RunExtend(w, 0, 1, states, actions, ClosePublication, s6);
    var s7 := s6.(committed := 1, publisher := Idle);
    states, actions := RunExtend(w, 0, 1, states, actions, StoreCommitted, s7);
  }

  /** Version 1 is published, and one node waits in the queue, while nodes of
      version 2 may already be counted. */
  function OneQueued(retired: nat, counted: nat, next: Option<Batch>): State {
    State(2, 1, 1, Idle, 1, retired, next, [], [Resting], None, [Batch(1, {Built(7)})], counted, 0, [])
  }

  /** A collector then frees it. */
  lemma ReclaimOne(w: Forest, states: seq<State>, actions: seq<Action>, retired: nat, counted: nat, next: Option<Batch>)
    returns (more: seq<State>, acts: seq<Action>)
    requires Run(w, 0, 1, states, actions) && states[|actions|] == OneQueued(retired, counted, next)
    ensures Run(w, 0, 1, more, acts) && |acts| == |actions| + 5 && states <= more
    ensures more[|acts|].reclaimedCount == 1
    ensures forall k :: |states| <= k < |more| ==> more[k].retiredCount == counted && more[k].reclaimedCount <= 1
  {
    hide Apply, Enabled, Steps, Run;
    RunLength(w, 0, 1, states, actions);
    var s0 := states[|actions|];
    var s1 := s0.(collectors := [Scanning(0, 1, 1)]);
    var s2 := s1.(collectors := [Freeing(1, 0)], lock := Some(0));
    var s3 := s2.(collectors := [Freeing(1, 1)], queue := [], freed := [Batch(1, {Built(7)})]);
    var s4 := s3.(collectors := [Releasing(1)], lock := None);
    var s5 := s4.(collectors := [Resting], reclaimedCount := 1);
    CollectsOne(w, s0, s1, s2);
    more, acts := RunExtend(w, 0, 1, states, actions, BeginReclaim(0, 1), s1);
    more, acts := RunExtend(w, 0, 1, more, acts, TakeLock(0), s2);
    FreesOne(w, s2, s3);
    more, acts := RunExtend(w, 0, 1, more, acts, FreeFront(0), s3);
    CountsOne(w, s3, s4, s5);
    more, acts := RunExtend(w, 0, 1, more, acts, DropLock(0), s4);
    more, acts := RunExtend(w, 0, 1, more, acts, CountReclaimed(0), s5);
    assert more == states + [s1, s2, s3, s4, s5];
  }

  lemma RunLength(w: Forest, readers: nat, collectors: nat, states: seq<State>, actions: seq<Action>)
    requires Run(w, readers, collectors, states, actions)
    ensures |states| == |actions| + 1
  {
  }

  lemma CollectsOne(w: Forest, s: State, t: State, u: State)
    requires s.readers == [] && s.collectors == [Resting] && s.pubVersion == 1 && s.committed == 1 && s.lock == None
    requires t == s.(collectors := [Scanning(0, 1, 1)]) && u == t.(collectors := [Freeing(1, 0)], lock := Some(0))
    ensures Steps(w, s, BeginReclaim(0, 1), t) && Steps(w, t, TakeLock(0), u)
  {
  }

  lemma FreesOne(w: Forest, s: State, t: State)
    requires s.collectors == [Freeing(1, 0)] && s.queue == [Batch(1, {Built(7)})] && s.freed == []
    requires t == s.(collectors := [Freeing(1, 1)], queue := [], freed := [Batch(1, {Built(7)})])
    ensures Steps(w, s, FreeFront(0), t)
  {
  }

  lemma CountsOne(w: Forest, s: State, t: State, u: State)
    requires s.collectors == [Freeing(1, 1)] && s.queue == [] && s.reclaimedCount == 0
    requires t == s.(collectors := [Releasing(1)], lock := None) && u == t.(collectors := [Resting], reclaimedCount := 1)
    ensures Steps(w, s, DropLock(0), t) && Steps(w, t, CountReclaimed(0), u)
  {
  }

  /** A collector that reclaims between the two loads makes the reported
      number of pending nodes wrap around. */
  lemma StatisticsMayWrap() returns (w: Forest, states: seq<State>, actions: seq<Action>)
    ensures w.Sound() && Run(w, 0, 1, states, actions) && |actions| == 12
    ensures ReportedPending(states[0], states[12]) == WORD - 1
  {
    w := Forest(_ => {}, v => if v == 1 then {Built(7)} else {});
    states, actions := PublishOne(w);
    states, actions := ReclaimOne(w, states, actions, 1, 1, None);
  }

  /** An update that retires between the loads makes it miss nodes: none is
      reported, though one is pending from the first load to the second. */
  lemma StatisticsMayMiss() returns (w: Forest, states: seq<State>, actions: seq<Action>)
    ensures w.Sound() && Run(w, 0, 1, states, actions) && |actions| == 13
    ensures ReportedPending(states[7], states[13]) == 0
    ensures forall k :: 7 <= k <= 13 ==> PendingNodes(states[k]) >= 1
  {
    w := Forest(_ => {}, v => if v == 1 then {Built(7)} else if v == 2 then {Built(8)} else {});
    states, actions := PublishOne(w);
    var s8 := OneQueued(2, 2, Some(Batch(2, {Built(8)})));
    states, actions := RunExtend(w, 0, 1, states, actions, CountRetired, s8);
    ghost var first := states;
    states, actions := ReclaimOne(w, states, actions, 2, 2, Some(Batch(2, {Built(8)})));
    assert states[7] == first[7];
    forall k | 7 <= k <= 13 ensures PendingNodes(states[k]) >= 1 {
      RetiredIsReclaimedPlusPending(w, 0, 1, states, actions, k);
      if k == 7 {
        assert states[7].reclaimedCount == 0 && states[7].retiredCount == 1;
      }
    }
  }
}
