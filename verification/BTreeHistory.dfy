/** The sequential meaning of a ticket sequence over a B+Tree with fat leaves:
    each ticket either appends to the leaf its key routes to, or copies the
    path. Snapshots, retirement and lost appends are settled here; the
    concurrent controller is shown to follow this history elsewhere. */
module BTreeHistory {
  import opened Options
  import opened Records
  import opened Nodes
  import opened BTree
  import opened BTreeCow
  import Reclaimer

  /** `open` is what the readiness probe of the entry stage found. */
  datatype Ticket = Ticket(key: Key, val: Val, open: bool)

  datatype World = World(tree: Tree, h: nat, side: Side)

  /** The entry appends without copying exactly when the path is complete and
      the leaf has a slot left. */
  predicate Appends(w: World, op: Ticket, capacity: nat) {
    op.open && |SlotsAt(w.side, Route(w.tree, op.key).id)| < capacity
  }

  function Append(side: Side, id: Id, s: Slot): Side {
    side[id := SlotsAt(side, id) + [s]]
  }

  function Step(w: World, ticket: nat, op: Ticket, capacity: nat): World {
    if Appends(w, op, capacity) then
      w.(side := Append(w.side, Route(w.tree, op.key).id, Slot(ticket, op.key, op.val)))
    else
      World(Cow(w.tree, w.h, w.side, ticket, op.key, op.val), CowHeight(w.tree, w.h, w.side, ticket, op.key, op.val), w.side)
  }

  /** The state after tickets 1..n. */
  function AfterOps(w: World, ops: seq<Ticket>, capacity: nat, n: nat): World
    requires n <= |ops|
  {
    if n == 0 then w else Step(AfterOps(w, ops, capacity, n - 1), n, ops[n-1], capacity)
  }

  /** The map the tickets stand for. */
  function Model(w: World, ops: seq<Ticket>, n: nat, k: Key): Option<Val>
    requires n <= |ops|
  {
    if n == 0 then Get(w.tree, w.side, 0, k)
    else if ops[n-1].key == k then Some(ops[n-1].val)
    else Model(w, ops, n - 1, k)
  }

  /** A freshly built tree, owned by one controller. */
  ghost predicate Initial(w: World, limit: nat) {
    && w.side == map[] && Wf(w.tree, w.side, 0, limit, w.h) && Distinct(w.tree)
    && (forall x :: x in Ids(w.tree) ==> x.Built?)
  }

  ghost predicate Good(w: World, n: nat, limit: nat) {
    && Wf(w.tree, w.side, 0, limit, w.h)
    && Distinct(w.tree)
    && (forall x :: x in Ids(w.tree) ==> x.Version() <= n)
    && (forall x :: x in w.side ==> x.Version() <= n)
    && (forall x, i :: x in w.side && 0 <= i < |w.side[x]| ==> w.side[x][i].version <= n)
  }

  // ---- appending ----------------------------------------------------------

  ghost predicate SameOn(a: Side, b: Side, ids: set<Id>) {
    forall x :: x in ids ==> SlotsAt(a, x) == SlotsAt(b, x)
  }

  lemma {:induction false} WfFrame(t: Tree, a: Side, b: Side, lo: nat, hi: nat, h: nat)
    requires Wf(t, a, lo, hi, h) && SameOn(a, b, Ids(t))
    ensures Wf(t, b, lo, hi, h)
    decreases t
  {
    if t.Node? {
      SegFrame(t.kids, a, b, lo, hi, h - 1);
    }
  }

  lemma {:induction false} SegFrame(s: Seg, a: Side, b: Side, lo: nat, hi: nat, h: nat)
    requires Fits(s, a, lo, hi, h) && SameOn(a, b, SegIds(s))
    ensures Fits(s, b, lo, hi, h)
    decreases s
  {
    forall i | 0 <= i < |s.chs|
      ensures Wf(s.chs[i], b, LoAt(s.keys, lo, i), HiAt(s.keys, hi, i), h)
    {
      ChildIds(s, i);
      WfFrame(s.chs[i], a, b, LoAt(s.keys, lo, i), HiAt(s.keys, hi, i), h);
    }
  }

  lemma {:induction false} RouteIn(t: Tree, k: Key)
    ensures Route(t, k).id in Ids(t)
    ensures t.Node? && FindCh(t.kids.keys, k) < |t.kids.chs| ==> Route(t, k).id in SegIds(t.kids)
    decreases t
  {
    if t.Node? {
      var i := FindCh(t.kids.keys, k);
      if i < |t.kids.chs| {
        RouteIn(t.kids.chs[i], k);
        ChildIds(t.kids, i);
      }
    }
  }

  lemma {:induction false} RouteLeaf(t: Tree, side: Side, lo: nat, hi: nat, h: nat, k: Key)
    requires Wf(t, side, lo, hi, h)
    ensures Route(t, k).Leaf?
    decreases t
  {
    if t.Node? {
      var i := FindCh(t.kids.keys, k);
      RouteLeaf(t.kids.chs[i], side, LoAt(t.kids.keys, lo, i), HiAt(t.kids.keys, hi, i), h - 1, k);
    }
  }

  /** A newer slot on the routed leaf keeps the tree well-formed. */
  lemma {:induction false} AppendWf(t: Tree, side: Side, lo: nat, hi: nat, h: nat, s: Slot)
    requires Wf(t, side, lo, hi, h) && Distinct(t) && lo <= s.key < hi
    requires |SlotsAt(side, Route(t, s.key).id)| < MAX_SLOTS
    requires forall x, i :: x in side && 0 <= i < |side[x]| ==> side[x][i].version < s.version
    requires forall x :: x in Ids(t) ==> x.Version() < s.version
    ensures Wf(t, Append(side, Route(t, s.key).id, s), lo, hi, h)
    decreases t
  {
    hide Wf, Distinct, Fits;
    if t.Node? {
      NodeParts(t, side, lo, hi, h, s.key);
      var kids, i := t.kids, FindCh(t.kids.keys, s.key);
      RouteIn(kids.chs[i], s.key);
      ChildIds(kids, i);
      AppendWf(kids.chs[i], side, LoAt(kids.keys, lo, i), HiAt(kids.keys, hi, i), h - 1, s);
      AppendKids(t, side, Append(side, Route(t, s.key).id, s), lo, hi, h, i, Route(t, s.key).id);
    } else {
      LeafLevel(t, side, lo, hi, h);
      AppendLeafWf(t, side, lo, hi, s);
    }
  }

  /** The child a key is routed to. */
  lemma NodeParts(t: Tree, side: Side, lo: nat, hi: nat, h: nat, k: Key)
    requires t.Node? && Wf(t, side, lo, hi, h) && Distinct(t) && lo <= k < hi
    ensures var kids, i := t.kids, FindCh(t.kids.keys, k);
            && i < |kids.chs| == |kids.keys| + 1 && h > 0 && Distinct(kids.chs[i])
            && LoAt(kids.keys, lo, i) <= k < HiAt(kids.keys, hi, i)
            && Wf(kids.chs[i], side, LoAt(kids.keys, lo, i), HiAt(kids.keys, hi, i), h - 1)
            && Route(t, k) == Route(kids.chs[i], k)
            && (forall x :: x in SegIds(kids) ==> x in Ids(t))
  {
  }

  /** The siblings do not see the slot. */
  lemma AppendKids(t: Tree, side: Side, side': Side, lo: nat, hi: nat, h: nat, i: nat, leaf: Id)
    requires t.Node? && h > 0 && i < |t.kids.chs| == |t.kids.keys| + 1 && Wf(t, side, lo, hi, h) && Distinct(t)
    requires leaf in Ids(t.kids.chs[i]) && forall x :: x != leaf ==> SlotsAt(side', x) == SlotsAt(side, x)
    requires Wf(t.kids.chs[i], side', LoAt(t.kids.keys, lo, i), HiAt(t.kids.keys, hi, i), h - 1)
    ensures Wf(t, side', lo, hi, h)
  {
    var kids := t.kids;
    forall j | 0 <= j < |kids.chs|
      ensures Wf(kids.chs[j], side', LoAt(kids.keys, lo, j), HiAt(kids.keys, hi, j), h - 1)
    {
      if j != i {
        SiblingWf(t, side, side', lo, hi, h, i, j, leaf);
      }
    }
  }

  lemma SiblingWf(t: Tree, side: Side, side': Side, lo: nat, hi: nat, h: nat, i: nat, j: nat, leaf: Id)
    requires t.Node? && h > 0 && |t.kids.chs| == |t.kids.keys| + 1 && i < |t.kids.chs| && j < |t.kids.chs| && i != j
    requires Wf(t, side, lo, hi, h) && Distinct(t)
    requires leaf in Ids(t.kids.chs[i]) && forall x :: x != leaf ==> SlotsAt(side', x) == SlotsAt(side, x)
    ensures Wf(t.kids.chs[j], side', LoAt(t.kids.keys, lo, j), HiAt(t.kids.keys, hi, j), h - 1)
  {
    assert if i < j then Ids(t.kids.chs[i]) !! Ids(t.kids.chs[j]) else Ids(t.kids.chs[j]) !! Ids(t.kids.chs[i]);
    WfFrame(t.kids.chs[j], side, side', LoAt(t.kids.keys, lo, j), HiAt(t.kids.keys, hi, j), h - 1);
  }

  lemma LeafLevel(t: Tree, side: Side, lo: nat, hi: nat, h: nat)
    requires t.Leaf? && Wf(t, side, lo, hi, h)
    ensures h == 0
  {
  }

  lemma AppendLeafWf(t: Tree, side: Side, lo: nat, hi: nat, s: Slot)
    requires t.Leaf? && Wf(t, side, lo, hi, 0) && lo <= s.key < hi && |SlotsAt(side, t.id)| < MAX_SLOTS
    requires forall x, i :: x in side && 0 <= i < |side[x]| ==> side[x][i].version < s.version
    requires t.id.Version() < s.version
    ensures Wf(t, Append(side, t.id, s), lo, hi, 0)
  {
    var slots := SlotsAt(side, t.id);
    assert SlotsAt(Append(side, t.id, s), t.id) == slots + [s];
    assert forall i :: 0 <= i < |slots| ==> slots[i].version < s.version;
  }

  /** Snapshots before the slot do not see it; snapshots from it on see it at
      its key, and only there. */
  lemma {:induction false} AppendGet(t: Tree, side: Side, lo: nat, hi: nat, h: nat, s: Slot, version: nat, k: Key)
    requires Wf(t, side, lo, hi, h) && Distinct(t) && lo <= s.key < hi && lo <= k < hi && s.version <= version
    ensures Get(t, Append(side, Route(t, s.key).id, s), version, k)
            == if k == s.key then Some(s.value) else Get(t, side, version, k)
    decreases t
  {
    var leaf := Route(t, s.key).id;
    var side' := Append(side, leaf, s);
    if t.Leaf? {
      var slots := SlotsAt(side, t.id);
      OverlayAppend(Base(t.keys, t.vals), slots, s, version);
    } else {
      var kids := t.kids;
      var i, j := FindCh(kids.keys, s.key), FindCh(kids.keys, k);
      if i == j {
        AppendGet(kids.chs[i], side, LoAt(kids.keys, lo, i), HiAt(kids.keys, hi, i), h - 1, s, version, k);
      } else {
        RouteIn(kids.chs[i], s.key);
        assert Ids(kids.chs[i]) !! Ids(kids.chs[j]);
        GetFrame(kids.chs[j], side, side', version, k);
      }
    }
  }

  lemma {:induction false} GetFrame(t: Tree, a: Side, b: Side, version: nat, k: Key)
    requires SameOn(a, b, Ids(t))
    ensures Get(t, a, version, k) == Get(t, b, version, k)
    decreases t
  {
    if t.Node? {
      var i := FindCh(t.kids.keys, k);
      if i < |t.kids.chs| {
        ChildIds(t.kids, i);
        GetFrame(t.kids.chs[i], a, b, version, k);
      }
    }
  }

  lemma {:induction false} LaterAppendInvisible(t: Tree, side: Side, id: Id, s: Slot, version: nat, k: Key)
    requires version < s.version
    ensures Get(t, Append(side, id, s), version, k) == Get(t, side, version, k)
    decreases t
  {
    match t {
      case Leaf(_, _, keys, vals) =>
        if t.id == id && |keys| == |vals| {
          OverlayPrefix(Base(keys, vals), SlotsAt(side, id), [s], version);
        }
      case Node(_, _, kids) =>
        var i := FindCh(kids.keys, k);
        if i < |kids.chs| {
          LaterAppendInvisible(kids.chs[i], side, id, s, version, k);
        }
    }
  }

  // ---- one ticket ---------------------------------------------------------

  lemma StepGood(w: World, n: nat, op: Ticket, capacity: nat, limit: nat)
    requires Good(w, n, limit) && op.key < limit && capacity <= MAX_SLOTS
    ensures Good(Step(w, n + 1, op, capacity), n + 1, limit)
  {
    var t := n + 1;
    if Appends(w, op, capacity) {
      var leaf := Route(w.tree, op.key).id;
      RouteIn(w.tree, op.key);
      AppendWf(w.tree, w.side, 0, limit, w.h, Slot(t, op.key, op.val));
      var side: Side := Append(w.side, leaf, Slot(t, op.key, op.val));
      forall x: Id, i: int | x in side && 0 <= i < |side[x]|
        ensures side[x][i].version <= t
      {
        if x != leaf { assert side[x] == w.side[x]; }
      }
    } else {
      CowOk(w.tree, w.h, w.side, t, op.key, op.val, limit, t, op.key);
      CowShares(w.tree, w.h, w.side, t, op.key, op.val, limit);
      var c := Cow(w.tree, w.h, w.side, t, op.key, op.val);
      assert forall x :: x in Ids(c) ==> x in Ids(w.tree) || x in Ids(c) - Ids(w.tree);
    }
  }

  lemma GoodBelow(w: World, n: nat, limit: nat)
    requires Good(w, n, limit)
    ensures Below(w.side, n + 1) && NoneOf(Ids(w.tree), n + 1)
  {
  }

  lemma StepGet(w: World, n: nat, op: Ticket, capacity: nat, limit: nat, version: nat, k: Key)
    requires Good(w, n, limit) && op.key < limit && k < limit && capacity <= MAX_SLOTS && n < version
    ensures var w' := Step(w, n + 1, op, capacity);
            Get(w'.tree, w'.side, version, k) == if k == op.key then Some(op.val) else Get(w.tree, w.side, version, k)
  {
    hide Cow, Get, Wf;
    GoodBelow(w, n, limit);
    if Appends(w, op, capacity) {
      AppendGet(w.tree, w.side, 0, limit, w.h, Slot(n + 1, op.key, op.val), version, k);
    } else {
      CowOk(w.tree, w.h, w.side, n + 1, op.key, op.val, limit, version, k);
    }
  }

  // ---- whole histories ----------------------------------------------------

  ghost predicate Legal(w: World, ops: seq<Ticket>, capacity: nat, limit: nat) {
    Initial(w, limit) && capacity <= MAX_SLOTS && forall i :: 0 <= i < |ops| ==> ops[i].key < limit
  }

  lemma {:induction false} AfterGood(w: World, ops: seq<Ticket>, capacity: nat, limit: nat, n: nat)
    requires Legal(w, ops, capacity, limit) && n <= |ops|
    ensures Good(AfterOps(w, ops, capacity, n), n, limit)
  {
    hide Step;
    if n > 0 {
      AfterGood(w, ops, capacity, limit, n - 1);
      StepGood(AfterOps(w, ops, capacity, n - 1), n - 1, ops[n-1], capacity, limit);
    }
  }

  lemma {:induction false} AfterGet(w: World, ops: seq<Ticket>, capacity: nat, limit: nat, n: nat, version: nat, k: Key)
    requires Legal(w, ops, capacity, limit) && n <= |ops| && n <= version && k < limit
    ensures Get(AfterOps(w, ops, capacity, n).tree, AfterOps(w, ops, capacity, n).side, version, k) == Model(w, ops, n, k)
  {
    hide Step;
    if n == 0 {
      NoSlots(w.tree, version, k);
    } else {
      AfterGet(w, ops, capacity, limit, n - 1, version, k);
      AfterGood(w, ops, capacity, limit, n - 1);
      StepGet(AfterOps(w, ops, capacity, n - 1), n - 1, ops[n-1], capacity, limit, version, k);
    }
  }

  lemma {:induction false} NoSlots(t: Tree, version: nat, k: Key)
    ensures Get(t, map[], version, k) == Get(t, map[], 0, k)
    decreases t
  {
    if t.Node? {
      var i := FindCh(t.kids.keys, k);
      if i < |t.kids.chs| {
        NoSlots(t.kids.chs[i], version, k);
      }
    }
  }

  /** Snapshot isolation: the root of version v, read at snapshot v, answers
      every lookup as the map of tickets 1..v, and keeps doing so whatever
      tickets append to or copy from its nodes later. */
  lemma {:induction false} SnapshotStable(w: World, ops: seq<Ticket>, capacity: nat, limit: nat, v: nat, n: nat, k: Key)
    requires Legal(w, ops, capacity, limit) && v <= n <= |ops| && k < limit
    ensures Get(AfterOps(w, ops, capacity, v).tree, AfterOps(w, ops, capacity, n).side, v, k) == Model(w, ops, v, k)
    decreases n
  {
    hide Cow, CowHeight, Get, Wf;
    if n == v {
      AfterGet(w, ops, capacity, limit, n, v, k);
    } else {
      SnapshotStable(w, ops, capacity, limit, v, n - 1, k);
      var p := AfterOps(w, ops, capacity, n - 1);
      if Appends(p, ops[n-1], capacity) {
        LaterAppendInvisible(AfterOps(w, ops, capacity, v).tree, p.side, Route(p.tree, ops[n-1].key).id,
                             Slot(n, ops[n-1].key, ops[n-1].val), v, k);
      }
    }
  }

  /** A node that has left the tree does not come back. */
  lemma {:induction false} GoneForever(w: World, ops: seq<Ticket>, capacity: nat, limit: nat, u: nat, n: nat, x: Id)
    requires Legal(w, ops, capacity, limit) && u <= n <= |ops|
    requires x !in Ids(AfterOps(w, ops, capacity, u).tree) && x.Version() <= u
    ensures x !in Ids(AfterOps(w, ops, capacity, n).tree)
    decreases n
  {
    hide Cow, CowHeight, Get, Wf, Model;
    if u < n {
      GoneForever(w, ops, capacity, limit, u, n - 1, x);
      AfterGood(w, ops, capacity, limit, n - 1);
      var p := AfterOps(w, ops, capacity, n - 1);
      if !Appends(p, ops[n-1], capacity) {
        CowShares(p.tree, p.h, p.side, n, ops[n-1].key, ops[n-1].val, limit);
      }
    }
  }

  function Elements(ids: seq<Id>): set<Id> {
    set x | x in ids
  }

  /** The nodes ticket v replaced. */
  function Retired(w: World, ops: seq<Ticket>, capacity: nat, v: nat): set<Id> {
    if 0 < v <= |ops| && !Appends(AfterOps(w, ops, capacity, v - 1), ops[v-1], capacity)
    then Elements(Path(AfterOps(w, ops, capacity, v - 1).tree, ops[v-1].key))
    else {}
  }

  /** No lost append: once a ticket has replaced a leaf, no later ticket gets a
      slot on it, so the replacement has seen every slot it will ever have. */
  lemma NoAppendAfterReplacement(w: World, ops: seq<Ticket>, capacity: nat, limit: nat, u: nat, n: nat, x: Id)
    requires Legal(w, ops, capacity, limit) && 0 < u < n <= |ops| && x in Retired(w, ops, capacity, u)
    ensures Route(AfterOps(w, ops, capacity, n - 1).tree, ops[n-1].key).id != x
    ensures SlotsAt(AfterOps(w, ops, capacity, n).side, x) == SlotsAt(AfterOps(w, ops, capacity, u).side, x)
    decreases n
  {
    hide Cow, CowHeight, Get, Wf, Model;
    RetiredGone(w, ops, capacity, limit, u, x);
    GoneForever(w, ops, capacity, limit, u, n - 1, x);
    RouteIn(AfterOps(w, ops, capacity, n - 1).tree, ops[n-1].key);
    if u < n - 1 {
      NoAppendAfterReplacement(w, ops, capacity, limit, u, n - 1, x);
    }
  }

  lemma RetiredGone(w: World, ops: seq<Ticket>, capacity: nat, limit: nat, u: nat, x: Id)
    requires Legal(w, ops, capacity, limit) && 0 < u <= |ops| && x in Retired(w, ops, capacity, u)
    ensures x in Ids(AfterOps(w, ops, capacity, u - 1).tree) && x !in Ids(AfterOps(w, ops, capacity, u).tree) && x.Version() < u
  {
    hide Cow, CowHeight, Get, Wf, Model;
    AfterGood(w, ops, capacity, limit, u - 1);
    var p := AfterOps(w, ops, capacity, u - 1);
    CowShares(p.tree, p.h, p.side, u, ops[u-1].key, ops[u-1].val, limit);
    PathIn(p.tree, ops[u-1].key);
  }

  /** What the reclaimer needs to know of the trees a history publishes. */
  ghost function ForestOf(w: World, ops: seq<Ticket>, capacity: nat): Reclaimer.Forest {
    Reclaimer.Forest((v: nat) => Ids(AfterOps(w, ops, capacity, if v <= |ops| then v else |ops|).tree),
                     (v: nat) => Retired(w, ops, capacity, v))
  }

  /** Every history retires soundly: replaced nodes are out of reach of all
      later roots, and are retired once. */
  lemma HistoryRetiresSoundly(w: World, ops: seq<Ticket>, capacity: nat, limit: nat)
    requires Legal(w, ops, capacity, limit)
    ensures ForestOf(w, ops, capacity).Sound()
  {
    hide Step;
    var f := ForestOf(w, ops, capacity);
    forall v: nat, u: nat | v <= u
      ensures f.ret(v) !! f.reach(u)
    {
      forall x | x in f.ret(v)
        ensures x !in f.reach(u)
      {
        RetiredGone(w, ops, capacity, limit, v, x);
        GoneForever(w, ops, capacity, limit, v, if u <= |ops| then u else |ops|, x);
      }
    }
    forall v: nat, u: nat | v < u
      ensures f.ret(v) !! f.ret(u)
    {
      forall x | x in f.ret(v) && x in f.ret(u)
        ensures false
      {
        RetiredGone(w, ops, capacity, limit, u, x);
        RetiredGone(w, ops, capacity, limit, v, x);
        GoneForever(w, ops, capacity, limit, v, u - 1, x);
      }
    }
  }
}
