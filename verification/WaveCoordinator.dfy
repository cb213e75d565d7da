/** The coordinator of the ordered-wave controller over a B+Tree: batches in,
    one published root per wave out. */
module WaveCoordinator {
  import opened Options
  import opened Records
  import opened Nodes
  import opened BTree
  import opened BTreeCow
  import opened BTreeHistory
  import opened BTreeMerge
  import opened BTreeMergeIds
  import opened WaveRun
  import opened WaveExec
  import opened WavePool
  import opened WaveOk
  import P = WavePlan

  /** A root as published: readers pin it together with its version. */
  datatype Published = Published(tree: Tree, version: nat)

  /** A tree answers a key, at a version, as the first n updates of the log. */
  ghost predicate Answers(t: Tree, side: Side, version: nat, start: Tree, log: seq<P.Op>, n: nat, k: Key)
    requires n <= |log|
  {
    Get(t, side, version, k) == Latest(log, 0, n, k, Get(start, map[], 0, k))
  }

  /** A pinned root keeps answering as its own version. */
  ghost predicate Snapshot(p: Published, side: Side, start: Tree, log: seq<P.Op>, limit: nat) {
    p.version <= |log| && forall k: Key | k < limit :: Answers(p.tree, side, p.version, start, log, p.version, k)
  }

  ghost predicate Ticketed(log: seq<P.Op>, limit: nat) {
    forall i :: 0 <= i < |log| ==> log[i].ticket == i + 1 && log[i].key < limit
  }

  ghost predicate Consistent(t: Tree, h: nat, side: Side, start: Tree, log: seq<P.Op>, limit: nat) {
    && Ticketed(log, limit)
    && Good(World(t, h, side), |log|, limit)
    && Snapshot(Published(t, |log|), side, start, log, limit)
  }

  /** Every node ever published is either reachable or retired, not both, and
      no node is retired twice. */
  ghost predicate Accounted(ever: set<Id>, live: set<Id>, retired: seq<Id>) {
    ever == live + Elements(retired) && live !! Elements(retired) && Once(retired)
  }

  ghost predicate NoneLater(ids: set<Id>, n: nat) {
    forall x :: x in ids ==> x.Version() <= n
  }

  // ---- composing histories --------------------------------------------------

  lemma {:induction false} LatestAppend(log: seq<P.Op>, ops: seq<P.Op>, first: nat, p: nat, k: Key, prior: Option<Val>)
    requires first <= p <= |ops|
    ensures Latest(log + ops[first..p], 0, |log| + (p - first), k, prior)
            == Latest(ops, first, p, k, Latest(log, 0, |log|, k, prior))
    decreases p
  {
    var all := log + ops[first..p];
    if p == first {
      assert all == log;
    } else {
      var shorter := log + ops[first..p-1];
      assert all == shorter + [ops[p-1]];
      LatestAppend(log, ops, first, p - 1, k, prior);
      LatestPrefix(all, shorter, |shorter|, k, prior);
    }
  }

  lemma {:induction false} LatestPrefix(a: seq<P.Op>, b: seq<P.Op>, n: nat, k: Key, prior: Option<Val>)
    requires n <= |a| && n <= |b| && forall i :: 0 <= i < n ==> a[i] == b[i]
    ensures Latest(a, 0, n, k, prior) == Latest(b, 0, n, k, prior)
  {
    if n > 0 {
      LatestPrefix(a, b, n - 1, k, prior);
    }
  }

  /** More updates do not change what an older version stands for. */
  lemma SnapshotLater(p: Published, side: Side, side': Side, start: Tree, log: seq<P.Op>, more: seq<P.Op>, limit: nat)
    requires Snapshot(p, side, start, log, limit)
    requires forall k: Key :: Get(p.tree, side', p.version, k) == Get(p.tree, side, p.version, k)
    ensures Snapshot(p, side', start, log + more, limit)
  {
    hide Get, Latest;
    forall k: Key | k < limit ensures Answers(p.tree, side', p.version, start, log + more, p.version, k) {
      assert Answers(p.tree, side, p.version, start, log, p.version, k);
      LatestPrefix(log + more, log, p.version, k, Get(start, map[], 0, k));
    }
  }

  lemma SnapshotMore(t: Tree, side: Side, t': Tree, side': Side, start: Tree, log: seq<P.Op>, ops: seq<P.Op>, first: nat, p: nat, n: nat, limit: nat)
    requires Snapshot(Published(t, |log|), side, start, log, limit) && first <= p <= |ops|
    requires SlotsUpTo(side, |log|) && n == |log| + (p - first)
    requires forall k: Key | k < limit :: Get(t', side', n, k) == Latest(ops, first, p, k, Get(t, side, n, k))
    ensures Snapshot(Published(t', n), side', start, log + ops[first..p], limit)
  {
    hide Get, Latest, SlotsUpTo;
    var all := log + ops[first..p];
    forall k: Key | k < limit ensures Answers(t', side', n, start, all, n, k) {
      assert Answers(t, side, |log|, start, log, |log|, k);
      GetSettled(t, side, |log|, n, k);
      LatestAppend(log, ops, first, p, k, Get(start, map[], 0, k));
    }
  }

  ghost predicate SlotsUpTo(side: Side, n: nat) {
    forall id, i :: id in side && 0 <= i < |side[id]| ==> side[id][i].version <= n
  }

  /** Past the newest slot, the version no longer matters. */
  lemma {:induction false} GetSettled(t: Tree, side: Side, n: nat, v: nat, k: Key)
    requires SlotsUpTo(side, n) && n <= v
    ensures Get(t, side, v, k) == Get(t, side, n, k)
    decreases t
  {
    match t {
      case Leaf(id, _, keys, vals) =>
        if |keys| == |vals| {
          OverlayAll(Base(keys, vals), SlotsAt(side, id), n, v);
        }
      case Node(_, _, kids) =>
        var i := FindCh(kids.keys, k);
        if i < |kids.chs| {
          GetSettled(kids.chs[i], side, n, v, k);
        }
    }
  }

  lemma TicketedMore(log: seq<P.Op>, ops: seq<P.Op>, first: nat, p: nat, limit: nat)
    requires Ticketed(log, limit) && first <= p <= |ops|
    requires forall q :: first <= q < p ==> ops[q].ticket == |log| + 1 + (q - first) && ops[q].key < limit
    ensures Ticketed(log + ops[first..p], limit)
  {
  }

  lemma {:induction false} WfBounded(t: Tree, side: Side, lo: nat, hi: nat, h: nat)
    requires Wf(t, side, lo, hi, h)
    ensures Bounded(t)
    decreases t
  {
    if t.Node? {
      forall i | 0 <= i < |t.kids.chs| ensures Bounded(t.kids.chs[i]) {
        WfBounded(t.kids.chs[i], side, LoAt(t.kids.keys, lo, i), HiAt(t.kids.keys, hi, i), h - 1);
      }
    }
  }

  lemma RetiredMore(ever: set<Id>, live: set<Id>, retired: seq<Id>, live': set<Id>, more: seq<Id>, n: nat)
    requires Accounted(ever, live, retired) && NoneLater(ever, n)
    requires Once(more) && Elements(more) == live - live' && forall x :: x in live' - live ==> x.Version() > n
    ensures Accounted(ever + live', live', retired + more)
  {
    Appended(retired, more);
  }

  // ---- one published step ---------------------------------------------------

  /** The root and height a wave publishes. */
  function WaveRoot(t: Tree, cs: seq<Change>, version: nat): Tree
    requires AllShaped(cs)
  {
    if cs == [] then t else MergedRoot(t, cs, version)
  }

  function WaveHeight(t: Tree, h: nat, cs: seq<Change>, version: nat): nat
    requires AllShaped(cs)
  {
    if cs == [] then h else MergedHeight(t, h, cs, version)
  }

  lemma WavePublishes(c: Conf, h: nat, end: nat, cs: seq<Change>, at: seq<nat>, start: Tree, log: seq<P.Op>, limit: nat)
    requires c.Planned(end) && c.first < end && Carries(c, end, cs, at) && Ascends(cs)
    requires Consistent(c.tree, h, c.side, start, log, limit) && Start(c, h, |log|, limit) && limit > 0
    ensures AllShaped(cs) && Accepted(c.tree, cs, 0, |cs|)
    ensures var version := |log| + (end - c.first);
            && Consistent(WaveRoot(c.tree, cs, version), WaveHeight(c.tree, h, cs, version), SideAt(c, end, end), start,
                          log + c.ops[c.first..end], limit)
            && Once(Replaced(c.tree, cs, 0, |cs|))
            && Elements(Replaced(c.tree, cs, 0, |cs|)) == Ids(c.tree) - Ids(WaveRoot(c.tree, cs, version))
            && (forall x :: x in Ids(WaveRoot(c.tree, cs, version)) - Ids(c.tree) ==> x.Version() > |log|)
  {
    hide Good, Conf.Planned, Carries, SideAt, Start, Latest, Get, Replaced, Accepted, MergedRoot, MergedHeight, Ids, Snapshot, Ticketed;
    PlannedIn(c, end);
    var n := |log|;
    var version := n + (end - c.first);
    var side := SideAt(c, end, end);
    StartFacts(c, h, n, limit);
    TicketedMore(log, c.ops, c.first, end, limit);
    GoodSlots(World(c.tree, h, c.side), n, limit);
    if cs == [] {
      NoneReplaced(c.tree, cs);
      forall k: Key | k < limit
        ensures Get(c.tree, side, version, k) == Latest(c.ops, c.first, end, k, Get(c.tree, c.side, version, k))
      {
        AppendWave(c, h, end, at, n, limit, version, k);
      }
      AppendWave(c, h, end, at, n, limit, version, 0);
      SnapshotMore(c.tree, c.side, c.tree, side, start, log, c.ops, c.first, end, version, limit);
    } else {
      MergedWave(c, h, end, cs, at, n, limit, 0);
      forall k: Key | k < limit
        ensures Get(MergedRoot(c.tree, cs, version), side, version, k) == Latest(c.ops, c.first, end, k, Get(c.tree, c.side, version, k))
      {
        MergedWave(c, h, end, cs, at, n, limit, k);
      }
      SnapshotMore(c.tree, c.side, MergedRoot(c.tree, cs, version), side, start, log, c.ops, c.first, end, version, limit);
    }
  }

  lemma GoodSlots(w: World, n: nat, limit: nat)
    requires Good(w, n, limit)
    ensures SlotsUpTo(w.side, n)
  {
    hide Wf, Distinct;
  }

  lemma NoneReplaced(t: Tree, cs: seq<Change>)
    requires cs == []
    ensures AllShaped(cs) && Accepted(t, cs, 0, |cs|) && Replaced(t, cs, 0, |cs|) == [] && Elements([]) == {}
  {
  }

  /** A path copy of the coordinator, for an update whose leaf takes none. */
  lemma CopyPublishes(t: Tree, h: nat, side: Side, start: Tree, log: seq<P.Op>, op: P.Op, limit: nat)
    requires Consistent(t, h, side, start, log, limit) && op.ticket == |log| + 1 && op.key < limit
    ensures var t' := Cow(t, h, side, op.ticket, op.key, op.value);
            && Consistent(t', CowHeight(t, h, side, op.ticket, op.key, op.value), side, start, log + [op], limit)
            && Once(Path(t, op.key)) && Elements(Path(t, op.key)) == Ids(t) - Ids(t')
            && (forall x :: x in Ids(t') - Ids(t) ==> x.Version() > |log|)
  {
    hide Cow, CowHeight, Wf, Get, Latest;
    var n, m := |log|, |log| + 1;
    StepGood(World(t, h, side), n, Ticket(op.key, op.value, false), 0, limit);
    GoodBelow(World(t, h, side), n, limit);
    CowShares(t, h, side, op.ticket, op.key, op.value, limit);
    PathOnce(t, op.key);
    PathIn(t, op.key);
    GoodSlots(World(t, h, side), n, limit);
    assert [op][0..1] == [op];
    TicketedMore(log, [op], 0, 1, limit);
    forall k: Key | k < limit
      ensures Get(Cow(t, h, side, op.ticket, op.key, op.value), side, m, k) == Latest([op], 0, 1, k, Get(t, side, m, k))
    {
      StepGet(World(t, h, side), n, Ticket(op.key, op.value, false), 0, limit, n + 1, k);
      LatestOne(op, k, Get(t, side, n + 1, k));
    }
    SnapshotMore(t, side, Cow(t, h, side, op.ticket, op.key, op.value), side, start, log, [op], 0, 1, m, limit);
  }

  lemma LatestOne(op: P.Op, k: Key, prior: Option<Val>)
    ensures Latest([op], 0, 1, k, prior) == if op.key == k then Some(op.value) else prior
  {
  }

  // ---- the coordinator ------------------------------------------------------

  lemma InitialConsistent(root: Tree, h: nat, limit: nat)
    requires Initial(World(root, h, map[]), limit)
    ensures Consistent(root, h, map[], root, [], limit) && Snapshot(Published(root, 0), map[], root, [], limit)
    ensures Accounted(Ids(root), Ids(root), []) && NoneLater(Ids(root), 0)
  {
    assert Elements([]) == {};
  }

  ghost predicate SnapshotsHold(published: seq<Published>, side: Side, start: Tree, log: seq<P.Op>, limit: nat) {
    forall i :: 0 <= i < |published| ==> Snapshot(published[i], side, start, log, limit)
  }

  lemma SnapshotsLater(published: seq<Published>, side: Side, side': Side, start: Tree, log: seq<P.Op>, more: seq<P.Op>, limit: nat)
    requires SnapshotsHold(published, side, start, log, limit)
    requires forall t: Tree, v: nat, k: Key | v <= |log| :: Get(t, side', v, k) == Get(t, side, v, k)
    ensures SnapshotsHold(published, side', start, log + more, limit)
  {
    hide Get, Latest;
    forall i | 0 <= i < |published| ensures Snapshot(published[i], side', start, log + more, limit) {
      assert published[i].version <= |log|;
      SnapshotLater(published[i], side, side', start, log, more, limit);
    }
  }

  /** The smallest power of two that is at least n, from p on. */
  function BitCeil(n: nat, p: nat): (r: nat)
    requires p > 0
    ensures r >= n && r >= p
    decreases if p < n then n - p else 0
  {
    if p >= n then p else BitCeil(n, 2 * p)
  }

  lemma PlannedBy(c: Conf, ops: seq<P.Op>, end: nat)
    requires c.first <= end <= |c.ops| && c.extra <= 1
    requires forall p :: c.first <= p < end ==> P.Fits(c.Routing(), c.ops, c.first, p, c.extra)
    ensures c.Planned(end)
  {
    hide P.Fits;
  }

  /** Runs the planned groups and puts the replacements in route order. */
  method Execute(c: Conf, batch: seq<P.Task>, groups: seq<P.Group<Id>>, ghost tags: seq<P.Tag<Id>>, ghost end: nat, workers: nat, minGroups: nat)
    returns (cs: seq<Change>, side: Side, ghost at: seq<nat>)
    requires Plan(c, batch, groups, tags, end) && workers > 0
    ensures Carries(c, end, cs, at) && Ascends(cs) && c.first <= end <= |c.ops| && side == SideAt(c, end, end)
  {
    hide Plan, Settled, Aligned, Replacing, SideAt;
    var executor := new Executor(c, batch, groups, tags, end);
    var ok, spread := RunWave(executor, workers, minGroups);
    cs, at := executor.Collect();
    cs, at := SortByRoute(c, end, cs, at);
    side := executor.side;
    RunSide(c, end, executor.run);
  }

  lemma WaveResults(c: Conf, h: nat, end: nat, cs: seq<Change>, at: seq<nat>, start: Tree, log: seq<P.Op>, limit: nat)
    requires c.Planned(end) && c.first < end <= |c.ops| && Carries(c, end, cs, at) && Ascends(cs)
    requires Consistent(c.tree, h, c.side, start, log, limit) && Start(c, h, |log|, limit) && limit > 0
    ensures AllShaped(cs) && Accepted(c.tree, cs, 0, |cs|)
    ensures WaveResult(c.tree, h, cs, SideAt(c, end, end), start, log, c.ops[c.first..end], limit)
  {
    hide Consistent, Conf.Planned, Carries, SideAt, Start, Accepted, Replaced, Ids, WaveRoot, WaveHeight;
    WavePublishes(c, h, end, cs, at, start, log, limit);
  }

  class Coordinator {
    const slots: nat
    const parallel: bool
    const batchSize: nat
    const workers: nat
    const minGroups: nat
    const address: Id -> nat
    ghost const start: Tree
    ghost const limit: nat

    var root: Tree
    var height: nat
    var side: Side
    var committed: nat
    var retired: seq<Id>
    var published: seq<Published>
    ghost var log: seq<P.Op>
    ghost var ever: set<Id>

    constructor (root: Tree, height: nat, slots: nat, parallel: bool, batchSize: nat, workers: nat, minGroups: nat, address: Id -> nat, ghost limit: nat)
      requires Initial(World(root, height, map[]), limit) && slots <= MAX_SLOTS && limit > 0 && batchSize > 0 && workers > 0
      ensures this.root == root && this.start == root && this.limit == limit && this.batchSize == batchSize
      ensures log == [] && published == [Published(root, 0)] && Valid()
    {
      this.root, this.height, this.slots, this.parallel, this.batchSize := root, height, slots, parallel, batchSize;
      this.workers, this.minGroups, this.address := workers, minGroups, address;
      this.start, this.limit := root, limit;
      side, committed, retired := map[], 0, [];
      log, ever, published := [], Ids(root), [Published(root, 0)];
      new;
      InitialConsistent(root, height, limit);
    }

    /** Every root ever published still answers as its own version, and every
        node ever published is live or retired, once. */
    ghost predicate Valid()
      reads this
    {
      && slots <= MAX_SLOTS && limit > 0 && batchSize > 0 && workers > 0 && committed == |log|
      && Consistent(root, height, side, start, log, limit)
      && SnapshotsHold(published, side, start, log, limit)
      && Accounted(ever, Ids(root), retired) && NoneLater(ever, committed)
    }

    /** The updates a batch may hold. */
    ghost predicate Continues(ops: seq<P.Op>)
      reads this
    {
      |ops| <= batchSize && forall i :: 0 <= i < |ops| ==> ops[i].ticket == committed + 1 + i && ops[i].key < limit
    }

    /** cow_update: one path copy, published on its own. */
    method CowUpdate(op: P.Op)
      requires Valid() && op.ticket == committed + 1 && op.key < limit
      modifies this
      ensures Valid() && log == old(log) + [op] && published == old(published) + [Published(root, op.ticket)]
    {
      hide Consistent, Snapshot, Cow, Path, Ids, Accounted, SnapshotsHold, NoneLater;
      CopyPublishes(root, height, side, start, log, op, limit);
      SnapshotsLater(published, side, side, start, log, [op], limit);
      var next := Cow(root, height, side, op.ticket, op.key, op.value);
      var path := Path(root, op.key);
      RetiredMore(ever, Ids(root), retired, Ids(next), path, committed);
      ConsistentGood(next, CowHeight(root, height, side, op.ticket, op.key, op.value), side, start, log + [op], limit);
      EverLater(ever, Ids(next), committed, op.ticket);
      height := CowHeight(root, height, side, op.ticket, op.key, op.value);
      ever := ever + Ids(next);
      root := next;
      retired := retired + path;
      log := log + [op];
      committed := op.ticket;
      CurrentSnapshot(root, height, side, start, log, limit, published);
      published := published + [Published(root, committed)];
    }

    /** Plans, runs and publishes a wave from `first` on; nothing is published
        when the first update finds its leaf full. */
    method RunWave(ops: seq<P.Op>, first: nat) returns (end: nat)
      requires Valid() && first < |ops| <= batchSize
      requires forall i :: first <= i < |ops| ==> ops[i].ticket == committed + 1 + (i - first) && ops[i].key < limit
      modifies this
      ensures first <= end <= |ops| && Valid() && log == old(log) + ops[first..end]
      ensures old(published) <= published
      ensures end > first ==> |published| > |old(published)| && published[|published|-1] == Published(root, committed)
    {
      hide Consistent, Snapshot, Ids, Accounted, SnapshotsHold, NoneLater, Conf.Planned, P.Grouped, Plan, Carries, Start, WaveResult, P.Hits, P.Fits, Get, Accepted, SideAt;
      var c := Conf(root, side, slots, if parallel then 1 else 0, ops, first, address);
      var batch := seq(|ops|, i requires 0 <= i < |ops| => P.Task(ops[i], None));
      assert P.Ops(batch) == ops;
      var planner := new P.Planner<Id>(c.Routing(), c.extra, BitCeil(2 * batchSize, 1), batch);
      end := planner.PlanWave(first);
      if end == first {
        assert log + ops[first..first] == log;
        return;
      }
      PlannedBy(c, ops, end);
      PlanOf(c, planner.batch, planner.groups, planner.tags, end);
      StartHere(c, height, start, log, limit);
      var cs, newSide;
      ghost var at;
      cs, newSide, at := Execute(c, planner.batch, planner.groups, planner.tags, end, workers, minGroups);
      WaveResults(c, height, end, cs, at, start, log, limit);
      OlderAnswers(c, height, end, log, limit);
      FinishWave(c, end, cs, newSide);
    }

    /** The merge, if a leaf was replaced, and the publication. */
    method FinishWave(c: Conf, end: nat, cs: seq<Change>, newSide: Side)
      requires Valid() && c.first < end <= |c.ops| && c.tree == root && c.side == side
      requires c.ops[end-1].ticket == committed + (end - c.first) && c.ops[end-1].ticket > committed
      requires AllShaped(cs) && Accepted(root, cs, 0, |cs|)
      requires WaveResult(root, height, cs, newSide, start, log, c.ops[c.first..end], limit)
      requires forall t: Tree, v: nat, k: Key | v <= |log| :: Get(t, newSide, v, k) == Get(t, side, v, k)
      modifies this
      ensures Valid() && log == old(log) + c.ops[c.first..end] && published == old(published) + [Published(root, committed)]
    {
      hide Consistent, Snapshot, Ids, Accounted, SnapshotsHold, NoneLater, Accepted, Replaced, Get;
      ghost var ops := c.ops[c.first..end];
      var version := c.ops[end-1].ticket;
      SnapshotsLater(published, side, newSide, start, log, ops, limit);
      var next, replaced := root, [];
      RootBounded(root, height, side, start, log, limit);
      if cs != [] {
        var merged := new FatMerge();
        var ok;
        ok, next := merged.Build(root, cs, version);
        replaced := merged.retired;
        assert [] + Replaced(root, cs, 0, |cs|) == Replaced(root, cs, 0, |cs|);
      } else {
        NoneReplaced(root, cs);
      }
      RetiredMore(ever, Ids(root), retired, Ids(next), replaced, committed);
      ConsistentGood(next, WaveHeight(root, height, cs, version), newSide, start, log + ops, limit);
      EverLater(ever, Ids(next), committed, version);
      height := WaveHeight(root, height, cs, version);
      ever := ever + Ids(next);
      root := next;
      side := newSide;
      retired := retired + replaced;
      log := log + ops;
      committed := version;
      CurrentSnapshot(root, height, side, start, log, limit, published);
      published := published + [Published(root, committed)];
    }

    /** coordinator_main on one batch: waves, and single path copies where a
        leaf takes no update; every update is published in order. */
    method Process(ops: seq<P.Op>)
      requires Valid() && Continues(ops)
      modifies this
      ensures Valid() && log == old(log) + ops && committed == old(committed) + |ops|
      ensures old(published) <= published
    {
      hide Consistent, Snapshot, Ids, Accounted, SnapshotsHold, NoneLater;
      var first := 0;
      assert ops[..0] == [] && log + [] == log;
      while first < |ops|
        invariant first <= |ops| && Valid() && log == old(log) + ops[..first] && old(published) <= published
      {
        assert ops[..first+1] == ops[..first] + [ops[first]];
        var end := first;
        if slots > 0 || parallel {
          end := RunWave(ops, first);
          assert ops[..end] == ops[..first] + ops[first..end];
        }
        if end == first {
          CowUpdate(ops[first]);
          end := first + 1;
        }
        first := end;
      }
      assert ops[..|ops|] == ops;
    }

    /** query: pins the newest root; its answer is the log's. */
    method Query(key: Key) returns (found: Option<Val>)
      requires Valid() && key < limit
      ensures found == Latest(log, 0, |log|, key, Get(start, map[], 0, key))
    {
      hide Latest;
      found := Get(root, side, committed, key);
      assert Answers(root, side, committed, start, log, committed, key);
    }
  }

  /** What a wave leaves to publish. */
  ghost predicate WaveResult(t: Tree, h: nat, cs: seq<Change>, side: Side, start: Tree, log: seq<P.Op>, ops: seq<P.Op>, limit: nat)
    requires AllShaped(cs)
  {
    var version := |log| + |ops|;
    var next := WaveRoot(t, cs, version);
    && Consistent(next, WaveHeight(t, h, cs, version), side, start, log + ops, limit)
    && Once(Replaced(t, cs, 0, |cs|))
    && Elements(Replaced(t, cs, 0, |cs|)) == Ids(t) - Ids(next)
    && (forall x :: x in Ids(next) - Ids(t) ==> x.Version() > |log|)
  }

  lemma PlanOf(c: Conf, batch: seq<P.Task>, groups: seq<P.Group<Id>>, tags: seq<P.Tag<Id>>, end: nat)
    requires c.Planned(end) && P.Ops(batch) == c.ops && |batch| == |c.ops| && c.first <= end <= |batch|
    requires P.Grouped(c.Routing(), batch, groups, tags, c.first, end)
    ensures Plan(c, batch, groups, tags, end)
  {
  }

  lemma StartHere(c: Conf, h: nat, start: Tree, log: seq<P.Op>, limit: nat)
    requires Consistent(c.tree, h, c.side, start, log, limit) && c.slots <= MAX_SLOTS
    requires forall i :: c.first <= i < |c.ops| ==> c.ops[i].ticket == |log| + 1 + (i - c.first) && c.ops[i].key < limit
    ensures Start(c, h, |log|, limit)
  {
    hide Good, Snapshot;
  }

  lemma RunSide(c: Conf, end: nat, r: Run)
    requires c.first <= end <= |c.ops| && Settled(c, end, r) && r.done == All(c.first, end)
    ensures r.side == SideAt(c, end, end)
  {
    hide SideOf, All;
  }

  lemma OlderAnswers(c: Conf, h: nat, end: nat, log: seq<P.Op>, limit: nat)
    requires c.Planned(end) && c.first <= end <= |c.ops| && Start(c, h, |log|, limit)
    ensures forall t: Tree, v: nat, k: Key | v <= |log| :: Get(t, SideAt(c, end, end), v, k) == Get(t, c.side, v, k)
  {
    hide Start, Conf.Planned, SideOf, Get, OnlyLater;
    StartFacts(c, h, |log|, limit);
    forall t: Tree, v: nat, k: Key | v <= |log| ensures Get(t, SideAt(c, end, end), v, k) == Get(t, c.side, v, k) {
      PartialSides(c, end, All(c.first, end), |log|, v);
      GetOlder(t, c.side, SideAt(c, end, end), v, k);
    }
  }

  lemma RootBounded(t: Tree, h: nat, side: Side, start: Tree, log: seq<P.Op>, limit: nat)
    requires Consistent(t, h, side, start, log, limit)
    ensures Bounded(t)
  {
    hide Wf, Bounded, Snapshot;
    WfBounded(t, side, 0, limit, h);
  }

  lemma ConsistentGood(t: Tree, h: nat, side: Side, start: Tree, log: seq<P.Op>, limit: nat)
    requires Consistent(t, h, side, start, log, limit)
    ensures NoneLater(Ids(t), |log|)
  {
    hide Wf, Distinct, Snapshot;
  }

  lemma EverLater(ever: set<Id>, live: set<Id>, n: nat, version: nat)
    requires NoneLater(ever, n) && NoneLater(live, version) && n <= version
    ensures NoneLater(ever + live, version)
  {
  }

  lemma CurrentSnapshot(t: Tree, h: nat, side: Side, start: Tree, log: seq<P.Op>, limit: nat, published: seq<Published>)
    requires Consistent(t, h, side, start, log, limit) && SnapshotsHold(published, side, start, log, limit)
    ensures SnapshotsHold(published + [Published(t, |log|)], side, start, log, limit)
  {
    hide Snapshot, Good;
  }
}
