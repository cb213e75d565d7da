/** BeTrees over whole runs of tickets: appends to leaves, path copies and
    checkpoints, with a supply of names that never repeats. */
module BeHistory {
  import opened Options
  import opened Records
  import opened Nodes
  import opened BeTree
  import opened BeUpdate
  import opened BeRebuild
  import opened BeFull
  import opened BeShares
  import opened BeAppend
  import opened BeRun
  import BTree
  import BTreeCow
  import Ok = BeUpdateOk
  import Scan = BTreeScan
  import Check = BeCheckpoint
  import H = BTreeHistory
  import M = BTreeMergeIds
  import Reclaimer

  /** The root, all sidecars, and the next name for a rebuilt node. */
  datatype World = World(t: Node, side: Side, next: nat)

  /** An update, and whether the entry lets it append. */
  datatype Op = Op(key: Key, val: Val, open: bool)

  predicate Appends(w: World, op: Op, capacity: nat) {
    op.open && |BTree.SlotsAt(w.side, Route(w.t, op.key).id)| < capacity
  }

  /** A bound above the numbers of all rebuilt nodes of a tree. */
  function Above(t: Node): (n: nat)
    decreases t, 0
  {
    var own := if t.id.Built? then t.id.index + 1 else 0;
    if t.Leaf? then own else Max(own, AllAbove(t.chs))
  }

  function AllAbove(ts: seq<Node>): nat
    decreases ts, |ts|
  {
    if ts == [] then 0 else Max(Above(ts[0]), AllAbove(ts[1..]))
  }

  function Max(a: nat, b: nat): nat {
    if a < b then b else a
  }

  function Asked(ticket: nat, op: Op): Request {
    Request(ticket, op.key, op.val)
  }

  /** The tree of the path copy, before any checkpoint. */
  function Copy(w: World, ticket: nat, op: Op): Node {
    Update(w.t, w.side, Asked(ticket, op), 0).t
  }

  /** One ticket: a slot, or a path copy and the checkpoint it asks for; none
      where that checkpoint is undefined. */
  function Step(w: World, ticket: nat, op: Op, capacity: nat): Option<World> {
    if Appends(w, op, capacity) then
      Some(w.(side := H.Append(w.side, Route(w.t, op.key).id, Slot(ticket, op.key, op.val))))
    else
      match CopyStep(w.t, w.side, Asked(ticket, op), w.next)
      case None => None
      case Some(t) => Some(World(t, w.side, Max(w.next, Above(t))))
  }

  function AfterOps(w: World, ops: seq<Op>, capacity: nat, n: nat): Option<World>
    requires n <= |ops|
  {
    if n == 0 then Some(w) else
    match AfterOps(w, ops, capacity, n - 1)
    case None => None
    case Some(u) => Step(u, n, ops[n-1], capacity)
  }

  /** The map the tickets stand for. */
  function Model(w: World, ops: seq<Op>, n: nat, k: Key): Option<Val>
    requires n <= |ops|
  {
    if n == 0 then Get(w.t, w.side, 0, k) else if ops[n-1].key == k then Some(ops[n-1].val) else Model(w, ops, n - 1, k)
  }

  /** Nodes known after n tickets: rebuilt ones below the supply, others of those
      tickets. */
  ghost predicate Known(ids: set<Id>, n: nat, next: nat) {
    forall x :: x in ids ==> if x.Built? then x.index < next else x.ticket <= n
  }

  ghost predicate Slotted(side: Side, n: nat) {
    forall x, i :: x in side && 0 <= i < |side[x]| ==> side[x][i].version <= n
  }

  ghost predicate Good(w: World, n: nat, limit: nat) {
    && Ordered(w.t, w.side, 0, limit) && Distinct(w.t)
    && Known(Ids(w.t), n, w.next) && Known(w.side.Keys, n, w.next) && Slotted(w.side, n)
  }

  // ---- one ticket -----------------------------------------------------------

  lemma {:induction false} AboveIs(t: Node)
    ensures forall x :: x in Ids(t) && x.Built? ==> x.index < Above(t)
    decreases t, 0
  {
    hide AllIds, AllAbove;
    if t.Inner? { AllAboveIs(t.chs); }
  }

  lemma {:induction false} AllAboveIs(ts: seq<Node>)
    ensures forall x :: x in AllIds(ts) && x.Built? ==> x.index < AllAbove(ts)
    decreases ts, |ts|
  {
    hide Ids, AllIds, Above;
    if ts == [] {
      Check.NoIds();
    } else {
      AboveIs(ts[0]);
      AllAboveIs(ts[1..]);
      assert ts == [ts[0]] + ts[1..];
      JoinIds([ts[0]], ts[1..]);
      OneIds(ts[0]);
    }
  }

  lemma GoodFacts(w: World, n: nat, limit: nat)
    requires Good(w, n, limit)
    ensures BTreeCow.Below(w.side, n + 1) && Old(Ids(w.t), n + 1) && NoSlots(w.side, w.next) && Formed(w.t) && NamedBelow(Ids(w.t), w.next)
  {
    hide Ordered, Distinct, Ids, Formed;
    OrderedFormed(w.t, w.side, 0, limit);
  }

  lemma AppendGood(w: World, n: nat, op: Op, capacity: nat, limit: nat, v: nat, k: Key)
    requires Good(w, n, limit) && Appends(w, op, capacity) && capacity <= MAX_SLOTS && op.key < limit && k < limit
    ensures var u := Step(w, n + 1, op, capacity);
            && u.Some? && u.value.t == w.t && u.value.next == w.next && Good(u.value, n + 1, limit)
            && (n < v ==> Get(u.value.t, u.value.side, v, k) == if k == op.key then Some(op.val) else Get(w.t, w.side, v, k))
  {
    hide Ordered, Distinct, Ids, Get;
    var s := Slot(n + 1, op.key, op.val);
    AppendOk(w.t, w.side, 0, limit, s, v, k);
    RouteIn(w.t, op.key);
    SlottedMore(w.side, Route(w.t, op.key).id, s, n);
  }

  lemma SlottedMore(side: Side, x: Id, s: Slot, n: nat)
    requires Slotted(side, n) && s.version == n + 1
    ensures Slotted(H.Append(side, x, s), n + 1)
  {
    var b: Side := H.Append(side, x, s);
    forall y: Id, i: int | y in b && 0 <= i < |b[y]| ensures b[y][i].version <= n + 1 {
      if y != x { assert b[y] == side[y]; }
    }
  }

  lemma KnownMore(ids: set<Id>, n: nat, next: nat, n': nat, next': nat)
    requires Known(ids, n, next) && n <= n' && next <= next'
    ensures Known(ids, n', next')
  {
  }

  /** The path copy, with what it shares. */
  lemma CopyGood(w: World, n: nat, op: Op, limit: nat, v: nat, k: Key)
    requires Good(w, n, limit) && op.key < limit && k < limit && n < v
    ensures var m := Copy(w, n + 1, op);
            && Ordered(m, w.side, 0, limit) && Distinct(m) && NamedBelow(Ids(m), w.next) && Known(Ids(m), n + 1, w.next)
            && Shares(Ids(m), Ids(w.t), H.Elements(Path(w.t, op.key)), n + 1, 0)
            && Get(m, w.side, v, k) == if k == op.key then Some(op.val) else Get(w.t, w.side, v, k)
  {
    hide Ordered, Distinct, Ids, Get, Update, Path, Formed;
    GoodFacts(w, n, limit);
    Ok.UpdateOk(w.t, w.side, Asked(n + 1, op), 0, 0, limit, v, k);
    UpdateShares(w.t, w.side, Asked(n + 1, op), 0);
  }

  /** What a copying ticket gives up: the path, and what its checkpoint does not
      take over. */
  function Gives(w: World, ticket: nat, op: Op, capacity: nat): seq<Id> {
    if Appends(w, op, capacity) then []
    else Path(w.t, op.key) + if Update(w.t, w.side, Asked(ticket, op), 0).checkpoint then VisitRetired(Copy(w, ticket, op)) else []
  }

  /** The nodes after a ticket, and those it gives up: the old ones and new ones,
      each on one side, none given up twice. */
  ghost predicate Divided(ids: set<Id>, given: seq<Id>, was: set<Id>, n: nat, next: nat) {
    && M.Once(given) && ids !! H.Elements(given) && was <= ids + H.Elements(given)
    && forall x :: x in ids + H.Elements(given) ==> x in was || (if x.Built? then x.index >= next else x.ticket == n + 1)
  }

  lemma CopyStepGood(w: World, n: nat, op: Op, capacity: nat, limit: nat, v: nat, k: Key)
    requires Good(w, n, limit) && op.key < limit && k < limit && n < v && !Appends(w, op, capacity)
    ensures var u := Step(w, n + 1, op, capacity);
            u.Some? ==>
              && Good(u.value, n + 1, limit) && w.next <= u.value.next && u.value.side == w.side
              && Get(u.value.t, u.value.side, v, k) == (if k == op.key then Some(op.val) else Get(w.t, w.side, v, k))
              && Divided(Ids(u.value.t), Gives(w, n + 1, op, capacity), Ids(w.t), n, w.next)
  {
    hide Ordered, Distinct, Ids, Get, Update, Path, Pairs, Rebuild, VisitRetired, NoSlots, Meets, LeafAbove, Above, Shares, Divided, Known, Slotted, NamedBelow, Appends;
    CopyGood(w, n, op, limit, v, k);
    GoodFacts(w, n, limit);
    var m := Copy(w, n + 1, op);
    PathOnce(w.t, op.key);
    KnownMore(w.side.Keys, n, w.next, n + 1, w.next);
    SlottedLater(w.side, n);
    if Update(w.t, w.side, Asked(n + 1, op), 0).checkpoint {
      CheckGood(w, n, op, limit, v, k);
      var r := Rebuild(m, w.side, n + 1, w.next);
      if r.Some? {
        KnownAbove(r.value, m, n + 1, w.next);
        KnownMore(w.side.Keys, n + 1, w.next, n + 1, Max(w.next, Above(r.value)));
      }
    } else {
      KnownMore(Ids(m), n + 1, w.next, n + 1, Max(w.next, Above(m)));
      KnownMore(w.side.Keys, n + 1, w.next, n + 1, Max(w.next, Above(m)));
      assert Path(w.t, op.key) + [] == Path(w.t, op.key);
      PathDivides(Ids(m), Ids(w.t), Path(w.t, op.key), n, w.next);
    }
  }

  lemma SlottedLater(side: Side, n: nat)
    requires Slotted(side, n)
    ensures Slotted(side, n + 1)
  {
  }

  lemma PathDivides(ids: set<Id>, was: set<Id>, path: seq<Id>, n: nat, next: nat)
    requires Shares(ids, was, H.Elements(path), n + 1, 0) && M.Once(path) && Old(was, n + 1)
    ensures Divided(ids, path, was, n, next)
  {
  }

  /** A checkpoint on top of a path copy. */
  lemma CheckGood(w: World, n: nat, op: Op, limit: nat, v: nat, k: Key)
    requires Good(w, n, limit) && op.key < limit && k < limit && n < v
    ensures var m := Copy(w, n + 1, op);
            var r := Rebuild(m, w.side, n + 1, w.next);
            r.Some? ==>
              && Ordered(r.value, w.side, 0, limit) && Distinct(r.value)
              && Get(r.value, w.side, v, k) == Get(m, w.side, v, k)
              && (forall x :: x in Ids(r.value) - Ids(m) ==> x.Built? && x.index >= w.next)
              && Divided(Ids(r.value), Path(w.t, op.key) + VisitRetired(m), Ids(w.t), n, w.next)
  {
    hide Ordered, Distinct, Ids, Get, Update, Path, Pairs, Rebuild, VisitRetired, NoSlots, Meets, LeafAbove, Shares, Divided, Known, Slotted, NamedBelow;
    CopyGood(w, n, op, limit, v, k);
    GoodFacts(w, n, limit);
    var m := Copy(w, n + 1, op);
    var r := Rebuild(m, w.side, n + 1, w.next);
    CheckpointKeeps(m, w.side, n + 1, w.next, limit, k);
    CheckpointNames(m, w.side, n + 1, w.next);
    if r.Some? {
      SettledBoth(m, r.value, w, n, v, k);
      PathOnce(w.t, op.key);
      CheckDivides(Ids(r.value), Ids(m), Ids(w.t), Path(w.t, op.key), VisitRetired(m), n, w.next);
    }
  }

  lemma SettledBoth(m: Node, r: Node, w: World, n: nat, v: nat, k: Key)
    requires Slotted(w.side, n) && n < v && Get(r, w.side, n + 1, k) == Get(m, w.side, n + 1, k)
    ensures Get(r, w.side, v, k) == Get(m, w.side, v, k)
  {
    hide Get;
    SlottedLater(w.side, n);
    GetSettled(m, w.side, n + 1, v, k);
    GetSettled(r, w.side, n + 1, v, k);
  }

  lemma CheckDivides(ids: set<Id>, mid: set<Id>, was: set<Id>, path: seq<Id>, visited: seq<Id>, n: nat, next: nat)
    requires Shares(mid, was, H.Elements(path), n + 1, 0) && M.Once(path) && Old(was, n + 1) && NamedBelow(mid, next)
    requires M.Once(visited) && H.Elements(visited) == mid - ids && NamedBelow(was, next)
    requires forall x :: x in ids - mid ==> x.Built? && x.index >= next
    ensures Divided(ids, path + visited, was, n, next)
  {
    M.Appended(path, visited);
  }

  lemma KnownAbove(r: Node, m: Node, n: nat, next: nat)
    requires Known(Ids(m), n, next) && forall x :: x in Ids(r) - Ids(m) ==> x.Built?
    ensures Known(Ids(r), n, Max(next, Above(r)))
  {
    hide Ids, Above;
    AboveIs(r);
  }

  /** New nodes of a checkpoint have names from the supply. */
  lemma CheckpointNames(t: Node, side: Side, v: nat, next: nat)
    requires Distinct(t) && NamedBelow(Ids(t), next)
    ensures Rebuild(t, side, v, next).Some? ==> forall x :: x in Ids(Rebuild(t, side, v, next).value) - Ids(t) ==> x.Built? && x.index >= next
  {
    hide Distinct, Ids, RebuildUpper, Meets, UnfoldUpper, LeafAbove, BuildSorted, Pairs;
    RebuildDefined(t, side, v, next);
    if LeafAbove(t, t.verge) {
      BuildSortedIds(t.verge, Pairs(t, side, v), next);
    } else {
      Check.RebuildShares(t, t.verge, next);
    }
  }

  // ---- whole runs -----------------------------------------------------------

  ghost predicate Legal(w: World, ops: seq<Op>, capacity: nat, limit: nat) {
    Good(w, 0, limit) && capacity <= MAX_SLOTS && forall i :: 0 <= i < |ops| ==> ops[i].key < limit
  }

  lemma {:induction false} EarlierSome(w: World, ops: seq<Op>, capacity: nat, v: nat, n: nat)
    requires v <= n <= |ops| && AfterOps(w, ops, capacity, n).Some?
    ensures AfterOps(w, ops, capacity, v).Some?
    decreases n
  {
    hide Step;
    if v < n { EarlierSome(w, ops, capacity, v, n - 1); }
  }

  lemma StepKeeps(w: World, n: nat, op: Op, capacity: nat, limit: nat, k: Key)
    requires Good(w, n, limit) && op.key < limit && k < limit && capacity <= MAX_SLOTS && Step(w, n + 1, op, capacity).Some?
    ensures var u := Step(w, n + 1, op, capacity).value;
            && Good(u, n + 1, limit) && w.next <= u.next
            && Get(u.t, u.side, n + 1, k) == (if k == op.key then Some(op.val) else Get(w.t, w.side, n, k))
            && Divided(Ids(u.t), Gives(w, n + 1, op, capacity), Ids(w.t), n, w.next)
  {
    hide Good, Get, Step, Gives, Divided;
    if Appends(w, op, capacity) {
      AppendGood(w, n, op, capacity, limit, n + 1, k);
      NothingGiven(w, n, op, capacity);
    } else {
      CopyStepGood(w, n, op, capacity, limit, n + 1, k);
    }
    ReadSettled(w, n, limit, k);
  }

  lemma NothingGiven(w: World, n: nat, op: Op, capacity: nat)
    requires Appends(w, op, capacity)
    ensures Divided(Ids(w.t), Gives(w, n + 1, op, capacity), Ids(w.t), n, w.next)
  {
  }

  lemma ReadSettled(w: World, n: nat, limit: nat, k: Key)
    requires Good(w, n, limit)
    ensures Get(w.t, w.side, n + 1, k) == Get(w.t, w.side, n, k)
  {
    hide Get, Ordered, Distinct, Ids;
    GetSettled(w.t, w.side, n, n + 1, k);
  }

  lemma {:induction false} RunGood(w: World, ops: seq<Op>, capacity: nat, limit: nat, n: nat, k: Key)
    requires Legal(w, ops, capacity, limit) && n <= |ops| && k < limit && AfterOps(w, ops, capacity, n).Some?
    ensures var u := AfterOps(w, ops, capacity, n).value;
            Good(u, n, limit) && Get(u.t, u.side, n, k) == Model(w, ops, n, k)
  {
    hide Good, Get, Step;
    if n > 0 {
      RunGood(w, ops, capacity, limit, n - 1, k);
      StepKeeps(AfterOps(w, ops, capacity, n - 1).value, n - 1, ops[n-1], capacity, limit, k);
    }
  }

  lemma StepOlder(w: World, n: nat, op: Op, capacity: nat, t: Node, v: nat, k: Key)
    requires v <= n && Step(w, n + 1, op, capacity).Some?
    ensures var b := Step(w, n + 1, op, capacity).value.side;
            Get(t, b, v, k) == Get(t, w.side, v, k) && Pairs(t, b, v) == Pairs(t, w.side, v)
  {
    hide Get, Pairs, H.Append;
    if Appends(w, op, capacity) {
      LaterAppend(t, w.side, Route(w.t, op.key).id, Slot(n + 1, op.key, op.val), v, k);
    }
  }

  lemma {:induction false} RunOlder(w: World, ops: seq<Op>, capacity: nat, v: nat, n: nat, k: Key)
    requires v <= n <= |ops| && AfterOps(w, ops, capacity, n).Some? && AfterOps(w, ops, capacity, v).Some?
    ensures var t, a, b := AfterOps(w, ops, capacity, v).value.t, AfterOps(w, ops, capacity, v).value.side, AfterOps(w, ops, capacity, n).value.side;
            Get(t, b, v, k) == Get(t, a, v, k) && Pairs(t, b, v) == Pairs(t, a, v)
    decreases n
  {
    hide Get, Pairs, Step;
    if v < n {
      EarlierSome(w, ops, capacity, n - 1, n);
      RunOlder(w, ops, capacity, v, n - 1, k);
      StepOlder(AfterOps(w, ops, capacity, n - 1).value, n - 1, ops[n-1], capacity, AfterOps(w, ops, capacity, v).value.t, v, k);
    }
  }

  /** Snapshots of BeTrees: whatever later tickets append, copy or rebuild, the
      root of version v, read at v, finds what tickets 1..v leave under each key,
      and lists the pairs they leave in key order. */
  lemma SnapshotReads(w: World, ops: seq<Op>, capacity: nat, limit: nat, v: nat, n: nat, k: Key)
    requires Legal(w, ops, capacity, limit) && v <= n <= |ops| && k < limit && AfterOps(w, ops, capacity, n).Some?
    ensures AfterOps(w, ops, capacity, v).Some?
    ensures var t, side := AfterOps(w, ops, capacity, v).value.t, AfterOps(w, ops, capacity, n).value.side;
            && Get(t, side, v, k) == Model(w, ops, v, k)
            && Scan.InOrder(Pairs(t, side, v), 0, limit) && Scan.Assoc(Pairs(t, side, v), k) == Model(w, ops, v, k)
  {
    hide Get, Pairs, Scan.InOrder, Scan.Assoc, Legal, AfterOps, Model;
    EarlierSome(w, ops, capacity, v, n);
    RunGood(w, ops, capacity, limit, v, k);
    RunOlder(w, ops, capacity, v, n, k);
    GoodPairs(AfterOps(w, ops, capacity, v).value, v, limit, k);
  }

  lemma GoodPairs(w: World, n: nat, limit: nat, k: Key)
    requires Good(w, n, limit) && k < limit
    ensures Scan.InOrder(Pairs(w.t, w.side, n), 0, limit) && Scan.Assoc(Pairs(w.t, w.side, n), k) == Get(w.t, w.side, n, k)
  {
    hide Ordered, Distinct, Ids, Get, Pairs, Scan.InOrder, Scan.Assoc;
    PairsAre(w.t, w.side, n, 0, limit, k);
  }

  // ---- retirement -----------------------------------------------------------

  /** All nodes given up by tickets 1..n, in order. */
  function Retired(w: World, ops: seq<Op>, capacity: nat, n: nat): seq<Id>
    requires n <= |ops|
  {
    if n == 0 then [] else
    match AfterOps(w, ops, capacity, n - 1)
    case None => []
    case Some(u) => Retired(w, ops, capacity, n - 1) + Gives(u, n, ops[n-1], capacity)
  }

  ghost predicate Balanced(ids: set<Id>, given: seq<Id>, n: nat, next: nat) {
    M.Once(given) && ids !! H.Elements(given) && Known(H.Elements(given), n, next)
  }

  lemma BalancedMore(ids: set<Id>, given: seq<Id>, n: nat, next: nat, ids': set<Id>, more: seq<Id>, next': nat)
    requires Balanced(ids, given, n, next) && Known(ids, n, next) && Divided(ids', more, ids, n, next)
    requires Known(ids', n + 1, next') && next <= next'
    requires forall x :: x in more ==> x in ids || x.New? || x.index < next'
    ensures Balanced(ids', given + more, n + 1, next')
  {
    M.Appended(given, more);
  }

  lemma GivenKnown(w: World, n: nat, op: Op, capacity: nat, limit: nat)
    requires Good(w, n, limit) && op.key < limit
    ensures forall x :: x in Gives(w, n + 1, op, capacity) ==> x in Ids(w.t) || x.New?
  {
    hide Ordered, Distinct, Ids, Get, Update, Path, Known, Slotted, VisitRetired, Shares, LeafAbove;
    if !Appends(w, op, capacity) {
      PathOnce(w.t, op.key);
      CopyGood(w, n, op, limit, n + 1, 0);
      var m := Copy(w, n + 1, op);
      VisitedIn(m);
      PathGiven(w.t, op.key, Ids(m), n);
    }
  }

  lemma PathGiven(t: Node, key: Key, mid: set<Id>, n: nat)
    requires H.Elements(Path(t, key)) <= Ids(t) && Shares(mid, Ids(t), H.Elements(Path(t, key)), n + 1, 0)
    ensures (forall x :: x in Path(t, key) ==> x in Ids(t)) && (forall x :: x in mid ==> x in Ids(t) || x.New?)
  {
    hide Ids, Path;
    forall x | x in Path(t, key) ensures x in Ids(t) {
      assert x in H.Elements(Path(t, key));
    }
  }

  lemma VisitedIn(t: Node)
    requires Distinct(t)
    ensures forall x :: x in VisitRetired(t) ==> x in Ids(t)
  {
    hide Distinct, Ids, AllIds, Visit, VisitEntire, Unfold, AllDistinct, LeafAbove;
    EntireExact(t);
    VisitExact(t, true);
    forall x | x in VisitRetired(t) ensures x in Ids(t) {
      assert x in H.Elements(VisitRetired(t));
    }
  }

  /** Conservation over whole runs, appends and checkpoints included: no node is
      retired twice, none of the newest tree is retired, and every node of every
      earlier tree is in the newest one or retired. */
  lemma {:induction false} RunRetires(w: World, ops: seq<Op>, capacity: nat, limit: nat, v: nat, n: nat)
    requires Legal(w, ops, capacity, limit) && v <= n <= |ops| && AfterOps(w, ops, capacity, n).Some? && limit > 0
    ensures AfterOps(w, ops, capacity, v).Some?
    ensures var u, given := AfterOps(w, ops, capacity, n).value, Retired(w, ops, capacity, n);
            && Balanced(Ids(u.t), given, n, u.next)
            && Ids(AfterOps(w, ops, capacity, v).value.t) <= Ids(u.t) + H.Elements(given)
    decreases n
  {
    hide Good, Ids, Step, Gives, Balanced, Divided, Get;
    if n == 0 {
      NoneYet(Ids(w.t), w.next);
    } else {
      EarlierSome(w, ops, capacity, n - 1, n);
      EarlierSome(w, ops, capacity, v, n);
      RunRetires(w, ops, capacity, limit, if v < n then v else n - 1, n - 1);
      RunGood(w, ops, capacity, limit, n - 1, 0);
      var p, u := AfterOps(w, ops, capacity, n - 1).value, AfterOps(w, ops, capacity, n).value;
      StepKeeps(p, n - 1, ops[n-1], capacity, limit, 0);
      GivenKnown(p, n - 1, ops[n-1], capacity, limit);
      GoodKnown(p, n - 1, limit);
      GoodKnown(u, n, limit);
      BalancedMore(Ids(p.t), Retired(w, ops, capacity, n - 1), n - 1, p.next, Ids(u.t), Gives(p, n, ops[n-1], capacity), u.next);
      CoverMore(Ids(p.t), Retired(w, ops, capacity, n - 1), n - 1, p.next, Ids(u.t), Gives(p, n, ops[n-1], capacity));
    }
  }

  lemma NoneYet(ids: set<Id>, next: nat)
    ensures Balanced(ids, [], 0, next)
  {
  }

  lemma GoodKnown(w: World, n: nat, limit: nat)
    requires Good(w, n, limit)
    ensures Known(Ids(w.t), n, w.next)
  {
    hide Ordered, Distinct, Ids;
  }

  lemma CoverMore(ids: set<Id>, given: seq<Id>, n: nat, next: nat, ids': set<Id>, more: seq<Id>)
    requires Divided(ids', more, ids, n, next)
    ensures ids + H.Elements(given) <= ids' + H.Elements(given + more)
  {
    M.Appended(given, more);
  }

  /** The nodes ticket v gives up. */
  function GivenAt(w: World, ops: seq<Op>, capacity: nat, v: nat): set<Id> {
    if 0 < v <= |ops| && AfterOps(w, ops, capacity, v - 1).Some?
    then H.Elements(Gives(AfterOps(w, ops, capacity, v - 1).value, v, ops[v-1], capacity)) else {}
  }

  /** What the reclaimer needs to know of the trees a run publishes. */
  ghost function ForestOf(w: World, ops: seq<Op>, capacity: nat): Reclaimer.Forest {
    Reclaimer.Forest((v: nat) => var o := AfterOps(w, ops, capacity, if v <= |ops| then v else |ops|); if o.Some? then Ids(o.value.t) else {},
                     (v: nat) => GivenAt(w, ops, capacity, v))
  }

  lemma {:induction false} GivenStays(w: World, ops: seq<Op>, capacity: nat, v: nat, n: nat)
    requires v <= n <= |ops| && AfterOps(w, ops, capacity, n).Some?
    ensures GivenAt(w, ops, capacity, v) <= H.Elements(Retired(w, ops, capacity, n))
    decreases n
  {
    hide Step, Gives;
    if n > 0 {
      EarlierSome(w, ops, capacity, n - 1, n);
      var u := AfterOps(w, ops, capacity, n - 1).value;
      M.Appended(Retired(w, ops, capacity, n - 1), Gives(u, n, ops[n-1], capacity));
      if v < n { GivenStays(w, ops, capacity, v, n - 1); }
    }
  }

  /** Every defined run retires soundly, so that a pinned root keeps all its
      nodes: what a ticket gives up is out of reach of its own and all later
      roots, and given up once. */
  lemma RunRetiresSoundly(w: World, ops: seq<Op>, capacity: nat, limit: nat)
    requires Legal(w, ops, capacity, limit) && AfterOps(w, ops, capacity, |ops|).Some? && limit > 0
    ensures ForestOf(w, ops, capacity).Sound()
  {
    hide AfterOps, Retired, GivenAt, Ids, Legal;
    var f := ForestOf(w, ops, capacity);
    forall v: nat, u: nat | v <= u ensures f.ret(v) !! f.reach(u) {
      GivenNotReached(w, ops, capacity, limit, v, if u <= |ops| then u else |ops|);
    }
    forall v: nat, u: nat | v < u ensures f.ret(v) !! f.ret(u) {
      GivenApart(w, ops, capacity, limit, v, u);
    }
  }

  lemma GivenNone(w: World, ops: seq<Op>, capacity: nat, v: nat)
    requires v == 0 || v > |ops|
    ensures GivenAt(w, ops, capacity, v) == {}
  {
  }

  lemma GivenNotReached(w: World, ops: seq<Op>, capacity: nat, limit: nat, v: nat, u: nat)
    requires Legal(w, ops, capacity, limit) && AfterOps(w, ops, capacity, |ops|).Some? && limit > 0 && u <= |ops| && (v <= u || u == |ops|)
    ensures AfterOps(w, ops, capacity, u).Some? && GivenAt(w, ops, capacity, v) !! Ids(AfterOps(w, ops, capacity, u).value.t)
  {
    hide AfterOps, Retired, GivenAt, Ids, Legal;
    EarlierSome(w, ops, capacity, u, |ops|);
    if v <= u {
      RunRetires(w, ops, capacity, limit, u, u);
      GivenStays(w, ops, capacity, v, u);
    } else {
      GivenNone(w, ops, capacity, v);
    }
  }

  lemma GivenApart(w: World, ops: seq<Op>, capacity: nat, limit: nat, v: nat, u: nat)
    requires Legal(w, ops, capacity, limit) && AfterOps(w, ops, capacity, |ops|).Some? && limit > 0 && v < u
    ensures GivenAt(w, ops, capacity, v) !! GivenAt(w, ops, capacity, u)
  {
    hide AfterOps, Gives, Ids, Legal;
    if u > |ops| {
      GivenNone(w, ops, capacity, u);
    } else {
      EarlierSome(w, ops, capacity, u, |ops|);
      EarlierSome(w, ops, capacity, u - 1, |ops|);
      RunRetires(w, ops, capacity, limit, u, u);
      GivenStays(w, ops, capacity, v, u - 1);
      OncePieces(Retired(w, ops, capacity, u - 1), Gives(AfterOps(w, ops, capacity, u - 1).value, u, ops[u-1], capacity));
    }
  }

  lemma OncePieces(a: seq<Id>, b: seq<Id>)
    requires M.Once(a + b)
    ensures H.Elements(a) !! H.Elements(b)
  {
    forall x | x in H.Elements(a) ensures x !in H.Elements(b) {
      var i :| 0 <= i < |a| && a[i] == x;
      forall j | 0 <= j < |b| ensures b[j] != x {
        assert (a + b)[i] == x && (a + b)[|a| + j] == b[j];
      }
    }
  }

  // ---- shape over runs ------------------------------------------------------

  lemma StepShape(w: World, h: nat, ticket: nat, op: Op, capacity: nat)
    requires Published(w.t, h)
    ensures Step(w, ticket, op, capacity).Some? && Published(Step(w, ticket, op, capacity).value.t, h)
  {
    hide Published, CopyStep, Above;
    StepPublishes(w.t, h, w.side, Asked(ticket, op), w.next);
  }

  /** From a tree with a full boundary no run ever meets an undefined checkpoint,
      and every tree has h upper levels over elastic subtrees no higher than E. */
  lemma {:induction false} RunShape(w: World, h: nat, ops: seq<Op>, capacity: nat, n: nat)
    requires Published(w.t, h) && n <= |ops|
    ensures AfterOps(w, ops, capacity, n).Some? && Published(AfterOps(w, ops, capacity, n).value.t, h)
  {
    hide Published, Step;
    if n > 0 {
      RunShape(w, h, ops, capacity, n - 1);
      StepShape(AfterOps(w, ops, capacity, n - 1).value, h, n, ops[n-1], capacity);
    }
  }
}
