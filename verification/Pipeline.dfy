/** The shared heap of the cyclic pipeline: which nodes are finished when, what
    each ticket's context says, and which stages may run. */
module Pipeline {
  import opened Options
  import opened Records
  import opened Nodes
  import opened BTree
  import opened BTreeCow
  import opened BTreeLevels
  import opened BTreeHistory
  import opened StagedCow
  import opened StagedCowOk

  /** One controller's run: the tree it starts from, the tickets in order, the
      slots per leaf, whether workers fill in values, and whether the entry tests
      readiness node by node or waits for the last path copy to be committed. */
  datatype Setup = Setup(w: World, ops: seq<Ticket>, capacity: nat, limit: nat, worker: bool, local: bool)
  {
    ghost predicate Ok() {
      && Legal(w, ops, capacity, limit)
      && (worker ==> capacity > 0)
    }

    function At(t: nat): World {
      AfterOps(w, ops, capacity, if t <= |ops| then t else |ops|)
    }

    /** The ticket appends to a leaf instead of copying the path. */
    predicate Appending(t: nat)
      requires 1 <= t <= |ops|
    {
      Appends(At(t - 1), ops[t-1], capacity)
    }

    function Req(t: nat): Request
      requires 1 <= t <= |ops|
    {
      Request(t, ops[t-1].key, ops[t-1].val, worker)
    }

    function Stages(t: nat): (n: nat)
      ensures n >= 1
    {
      if 1 <= t <= |ops| && !Appending(t) then (if At(t - 1).h == 0 then 1 else At(t - 1).h) else 1
    }

    /** The node ticket t copies at stage j. */
    function Source(t: nat, j: nat): Tree
      requires 1 <= t <= |ops|
    {
      PathNode(At(t - 1).tree, ops[t-1].key, j)
    }
  }

  /** How far the tickets are: stages passed, and worker tasks done. */
  datatype Progress = Progress(counts: map<nat, nat>, tasks: set<nat>)
  {
    function Passed(t: nat): nat {
      if t in counts then counts[t] else 0
    }

    predicate Done(t: nat) {
      t in tasks
    }
  }

  datatype Memory = Memory(heap: Heap, side: HSide, ctxs: seq<Context>)

  // ---- steps ----------------------------------------------------------------

  datatype Found = Blocked | At(leaf: Id) | Lost

  /** The entry's probe: it goes below an internal node only when the node is
      committed or ready. */
  function Probe(heap: Heap, committed: nat, id: Id, key: Key, fuel: nat): Found
    decreases fuel
  {
    if id !in heap then Lost else
    match heap[id]
    case HLeaf(_, _, _) => At(id)
    case HInner(ver, keys, chs, ready) =>
      if ver > committed && !ready then Blocked
      else
        var i := FindCh(keys, key);
        if fuel == 0 || i >= |chs| then Lost else Probe(heap, committed, chs[i], key, fuel - 1)
  }

  /** The entry's walk behind the gate: no node is tested. */
  function Walk(heap: Heap, id: Id, key: Key, fuel: nat): Found
    decreases fuel
  {
    if id !in heap then Lost else
    match heap[id]
    case HLeaf(_, _, _) => At(id)
    case HInner(_, keys, chs, _) =>
      var i := FindCh(keys, key);
      if fuel == 0 || i >= |chs| then Lost else Walk(heap, chs[i], key, fuel - 1)
  }

  /** The last of tickets 1..t that has a root of its own. */
  function LastCopy(ctxs: seq<Context>, t: nat): (v: nat)
    requires t < |ctxs|
    ensures v <= t
  {
    if t == 0 then 0 else if ctxs[t].root != ctxs[t-1].root then t else LastCopy(ctxs, t - 1)
  }

  /** What the entry finds: workers' reservations and the local test probe; the
      gate is closed until the last copy before the ticket is committed. */
  function Sought(u: Setup, m: Memory, t: nat, committed: nat): Found
    requires 1 <= t <= |u.ops| && t <= |m.ctxs|
  {
    var root, key, h := m.ctxs[t-1].root, u.ops[t-1].key, u.At(t - 1).h;
    if u.local || u.worker then Probe(m.heap, committed, root, key, h)
    else if committed < LastCopy(m.ctxs, t - 1) then Blocked
    else Walk(m.heap, root, key, h)
  }

  function AppendSlot(side: HSide, id: Id, s: HSlot): HSide {
    side[id := HSlotsAt(side, id) + [s]]
  }

  /** The entry stage: append or reserve where the probe ends, or start the
      path copy. */
  function Enter(u: Setup, m: Memory, t: nat, committed: nat): Memory
    requires 1 <= t <= |u.ops| && t <= |m.ctxs|
  {
    var prev := m.ctxs[t-1].root;
    var r := u.Req(t);
    var found := Sought(u, m, t, committed);
    if u.capacity > 0 && found.At? && |HSlotsAt(m.side, found.leaf)| < u.capacity then
      var slots := HSlotsAt(m.side, found.leaf);
      var x := Context(prev, found.leaf, prev, if u.worker then FatAppend else Done, |slots|, false, []);
      Memory(m.heap, AppendSlot(m.side, found.leaf, HSlot(t, r.key, if u.worker then None else Some(r.val))), m.ctxs + [x])
    else
      var (heap, x) := HandleInitCow(m.heap, m.side, prev, r);
      Memory(heap, m.side, m.ctxs + [x])
  }

  /** A later structural stage. */
  function Descend(u: Setup, m: Memory, t: nat, j: nat): Memory
    requires 1 <= t <= |u.ops| && t < |m.ctxs|
  {
    var x := m.ctxs[t];
    var (heap, x') :=
      if x.op == SearchDown then HandleSearchDown(m.heap, m.side, x, j, u.Req(t))
      else if x.op == SearchSplit then HandleSearchSplit(m.heap, m.side, x, j, u.Req(t))
      else (m.heap, x);
    Memory(heap, m.side, m.ctxs[t := x'])
  }

  function PublishSlot(side: HSide, id: Id, i: nat, v: Val): HSide {
    var slots := HSlotsAt(side, id);
    if i < |slots| then side[id := slots[i := slots[i].(value := Some(v))]] else side
  }

  /** The worker's task. */
  function RunTask(u: Setup, m: Memory, t: nat): Memory
    requires 1 <= t <= |u.ops| && t < |m.ctxs|
  {
    var x := m.ctxs[t];
    if x.op == FatAppend then
      Memory(m.heap, PublishSlot(m.side, x.cur, x.idx, u.Req(t).val), m.ctxs[t := x.(op := Done)])
    else if x.op == Materialize then
      var (heap, x') := HandleMaterialize(m.heap, m.side, x, u.Req(t));
      Memory(heap, m.side, m.ctxs[t := x'])
    else m
  }

  // ---- finished nodes -------------------------------------------------------

  predicate LeafRole(id: Id) {
    id.New? && (id.role == WholeLeaf || id.role == LeftLeaf || id.role == RightLeaf)
  }

  function Level(id: Id): nat {
    if id.New? then id.stage else 0
  }

  /** The node's owner has built it: an internal node at the stage of its
      level, a leaf at the stage above. */
  predicate Complete(pr: Progress, id: Id) {
    match id
    case Built(_) => true
    case New(t, stage, role) => if LeafRole(id) then pr.Passed(t) >= 1 && pr.Passed(t) >= stage else pr.Passed(t) > stage
  }

  /** The values of a ticket's leaf or slot are there. */
  predicate Filled(u: Setup, pr: Progress, t: nat) {
    !u.worker || t == 0 || pr.Done(t)
  }

  /** Static facts of a node. */
  ghost predicate Placed(u: Setup, x: Tree) {
    && x.ver == x.id.Version()
    && (x.id.New? ==> (LeafRole(x.id) <==> x.Leaf?) && x.id.stage <= u.Stages(x.id.ticket) && (x.Node? ==> x.id.stage < u.Stages(x.id.ticket)))
    && (x.Node? ==> forall i :: 0 <= i < |x.kids.chs| ==> Level(x.kids.chs[i].id) <= Level(x.id) + 1)
    && (x.Leaf? ==> |x.keys| == |x.vals|)
  }

  /** The node has been exposed, but not filled. */
  predicate Header(heap: Heap, id: Id) {
    id in heap && heap[id].HInner? && heap[id].ver == id.Version() && !heap[id].ready
  }

  /** A finished node is in the heap as the sequential update has it, and so are
      its children, except for those its own ticket has only exposed yet. */
  ghost predicate Settled(u: Setup, heap: Heap, pr: Progress, x: Tree) {
    Complete(pr, x.id) ==>
      && NodeHolds(heap, x, Filled(u, pr, x.id.Version()))
      && (x.Node? ==> KidsSettled(heap, pr, x))
  }

  ghost predicate KidsSettled(heap: Heap, pr: Progress, x: Tree)
    requires x.Node?
  {
    forall i :: 0 <= i < |x.kids.chs| ==> KidSettled(heap, pr, x.kids.chs[i].id, x.id.Version())
  }

  predicate KidSettled(heap: Heap, pr: Progress, id: Id, version: nat) {
    Complete(pr, id) || (id.Version() == version && Header(heap, id))
  }

  ghost function PlacedQ(u: Setup): Tree -> bool {
    (x: Tree) => Placed(u, x)
  }

  ghost function SettledQ(u: Setup, heap: Heap, pr: Progress): Tree -> bool {
    (x: Tree) => Settled(u, heap, pr, x)
  }

  // ---- the sequential trees -------------------------------------------------

  lemma TreesGood(u: Setup, t: nat)
    requires u.Ok() && t <= |u.ops|
    ensures Good(u.At(t), t, u.limit)
  {
    AfterGood(u.w, u.ops, u.capacity, u.limit, t);
  }

  lemma TreePath(u: Setup, t: nat)
    requires u.Ok() && 1 <= t <= |u.ops|
    ensures PathOk(u.At(t - 1).tree, u.ops[t-1].key, u.At(t - 1).h)
  {
    hide PathOk, Wf, Distinct;
    TreesGood(u, t - 1);
    WfPath(u.At(t - 1).tree, u.At(t - 1).side, 0, u.limit, u.At(t - 1).h, u.ops[t-1].key);
  }

  lemma TreeStep(u: Setup, t: nat)
    requires 1 <= t <= |u.ops|
    ensures u.Appending(t) ==> u.At(t) == u.At(t - 1).(side := Append(u.At(t - 1).side, Route(u.At(t - 1).tree, u.ops[t-1].key).id,
                                                                      Slot(t, u.ops[t-1].key, u.ops[t-1].val)))
    ensures !u.Appending(t) ==>
              && u.At(t).side == u.At(t - 1).side
              && u.At(t).tree == Cow(u.At(t - 1).tree, u.At(t - 1).h, u.At(t - 1).side, t, u.ops[t-1].key, u.ops[t-1].val)
  {
    hide Cow, CowHeight;
  }

  /** The run that replaces level k of ticket t's path. */
  ghost function Run(u: Setup, t: nat, k: nat): Seg
    requires u.Ok() && 1 <= t <= |u.ops| && k <= u.At(t - 1).h
  {
    TreePath(u, t);
    LevelRun(u.At(t - 1).tree, u.At(t - 1).h, u.At(t - 1).side, t, u.ops[t-1].key, u.ops[t-1].val, k)
  }

  /** All new nodes of a path copy, level by level, and the root. */
  ghost predicate Own(u: Setup, t: nat, q: Tree -> bool)
    requires u.Ok() && 1 <= t <= |u.ops|
  {
    (forall k :: 0 <= k <= u.At(t - 1).h ==> Tops(Run(u, t, k), q)) && q(u.At(t).tree)
  }

  /** Facts of the first tree and of every ticket's own nodes are facts of
      every tree. */
  lemma {:induction false} TreeAll(u: Setup, t: nat, q: Tree -> bool)
    requires u.Ok() && t <= |u.ops| && AllNodes(u.w.tree, q)
    requires forall v :: 1 <= v <= t && !u.Appending(v) ==> Own(u, v, q)
    ensures AllNodes(u.At(t).tree, q)
  {
    hide Cow, LevelRun, PathOk, Good, Legal, Appends;
    if t > 0 {
      TreeAll(u, t - 1, q);
      TreeStep(u, t);
      if !u.Appending(t) {
        TreePath(u, t);
        var p, key, val := u.At(t - 1), u.ops[t-1].key, u.ops[t-1].val;
        assert Own(u, t, q);
        assert OwnFrom(p.tree, p.h, p.side, t, key, val, q, 0) by {
          forall j: nat | j <= p.h
            ensures Tops(LevelRun(p.tree, p.h, p.side, t, key, val, j), q)
          {
            assert Tops(Run(u, t, j), q);
          }
        }
        CowAll(p.tree, p.h, p.side, t, key, val, q);
      }
    }
  }

  // ---- static facts ---------------------------------------------------------

  lemma RunKinds(past: Tree, h: nat, side: Side, ticket: nat, stage: nat, key: Key, val: Val, y: nat)
    requires Shaped(past, h) && y < |RunFor(past, h, side, ticket, stage, key, val).chs|
    ensures var x := RunFor(past, h, side, ticket, stage, key, val).chs[y];
            && OwnAt(x.id, ticket, stage) && x.ver == ticket && x.id.role != Root && (LeafRole(x.id) <==> x.Leaf?)
            && (x.Leaf? <==> past.Leaf?) && (x.Leaf? ==> |x.keys| == |x.vals|)
  {
    hide Grow, LeafView, Ascending, ValuesOf;
    if past.Leaf? {
      LeafRoles(past, side, ticket, stage, key, val, y);
    }
  }

  /** The children of a new node are new themselves, or those of the copied
      node. */
  lemma RunKids(past: Tree, h: nat, side: Side, ticket: nat, stage: nat, key: Key, val: Val, y: nat, c: nat)
    requires past.Node? && Shaped(past, h + 1) && Shaped(Toward(past, key), h)
    requires y < |RunFor(past, h + 1, side, ticket, stage, key, val).chs|
    requires RunFor(past, h + 1, side, ticket, stage, key, val).chs[y].Node?
    requires c < |RunFor(past, h + 1, side, ticket, stage, key, val).chs[y].kids.chs|
    ensures var kid := RunFor(past, h + 1, side, ticket, stage, key, val).chs[y].kids.chs[c];
            kid in RunFor(Toward(past, key), h, side, ticket, stage + 1, key, val).chs || kid in past.kids.chs
  {
    hide RunFor, Toward;
    var kids := past.kids;
    if |kids.keys| == MAX_KEYS {
      HalfToward(past, key);
      var half := HalfFor(kids, key);
      assert forall i :: 0 <= i < |half.chs| ==> half.chs[i] in kids.chs;
      HalvesKids(past, h, side, ticket, stage, key, val, y);
      GrownKids(half, h, side, ticket, stage, key, val, c);
    } else {
      TowardIs(past, key);
      CopyKids(past, h, side, ticket, stage, key, val, y);
      GrownKids(kids, h, side, ticket, stage, key, val, c);
    }
  }

  lemma CopyKids(past: Tree, h: nat, side: Side, ticket: nat, stage: nat, key: Key, val: Val, y: nat)
    requires past.Node? && Shaped(past, h + 1) && |past.kids.keys| < MAX_KEYS && y < |RunFor(past, h + 1, side, ticket, stage, key, val).chs|
    ensures var x := RunFor(past, h + 1, side, ticket, stage, key, val).chs[y];
            x.Node? && x.kids == Grow(past.kids, h, side, ticket, stage, key, val)
  {
    hide Grow;
  }

  lemma HalvesKids(past: Tree, h: nat, side: Side, ticket: nat, stage: nat, key: Key, val: Val, y: nat)
    requires past.Node? && Shaped(past, h + 1) && |past.kids.keys| == MAX_KEYS && y < |RunFor(past, h + 1, side, ticket, stage, key, val).chs|
    ensures var x := RunFor(past, h + 1, side, ticket, stage, key, val).chs[y];
            && x.Node?
            && (x.kids == Grow(HalfFor(past.kids, key), h, side, ticket, stage, key, val)
                || forall i :: 0 <= i < |x.kids.chs| ==> x.kids.chs[i] in past.kids.chs)
  {
    hide Grow;
  }

  lemma GrownKids(kids: Seg, h: nat, side: Side, ticket: nat, stage: nat, key: Key, val: Val, c: nat)
    requires |kids.chs| == |kids.keys| + 1 && Shaped(kids.chs[FindCh(kids.keys, key)], h)
    ensures var g := Grow(kids, h, side, ticket, stage, key, val);
            c < |g.chs| ==> g.chs[c] in RunFor(kids.chs[FindCh(kids.keys, key)], h, side, ticket, stage + 1, key, val).chs || g.chs[c] in kids.chs
  {
    hide Grow, RunFor;
    var i := FindCh(kids.keys, key);
    GrowIsSplice(kids, h, side, ticket, stage, key, val);
    var run := RunFor(kids.chs[i], h, side, ticket, stage + 1, key, val);
    RunShape(kids.chs[i], h, side, ticket, stage + 1, key, val);
    SpliceSlices(kids, i, run);
    var g := Grow(kids, h, side, ticket, stage, key, val);
    if c < |g.chs| {
      if c < i {
        assert g.chs[c] == kids.chs[c];
      } else if c < i + |run.chs| {
        assert g.chs[c] == run.chs[c - i];
      } else {
        assert g.chs[c] == kids.chs[c - |run.chs| + 1];
      }
    }
  }

  lemma {:induction false} PathLevel(u: Setup, t: Tree, key: Key, k: nat)
    requires AllNodes(t, PlacedQ(u))
    ensures Level(PathNode(t, key, k).id) <= Level(t.id) + k
    decreases k
  {
    if k > 0 && t.Node? {
      var i := FindCh(t.kids.keys, key);
      if i < |t.kids.chs| {
        assert Placed(u, t) by { assert PlacedQ(u)(t); }
        PathLevel(u, t.kids.chs[i], key, k - 1);
      }
    }
  }

  lemma RunPlaced(u: Setup, t: nat, k: nat, y: nat)
    requires u.Ok() && 1 <= t <= |u.ops| && k <= u.At(t - 1).h && !u.Appending(t)
    requires AllNodes(u.At(t - 1).tree, PlacedQ(u)) && Level(u.At(t - 1).tree.id) == 0
    requires y < |Run(u, t, k).chs|
    ensures Placed(u, Run(u, t, k).chs[y])
  {
    hide Wf, Good, Legal, Appends, RunFor, PathOk, AllNodes, PathNode;
    var p, op := u.At(t - 1), u.ops[t-1];
    TreePath(u, t);
    ShapedAt(p.tree, op.key, p.h, k);
    var past := PathNode(p.tree, op.key, k);
    PathLevel(u, p.tree, op.key, k);
    PathAll(p.tree, op.key, k, PlacedQ(u));
    RunKinds(past, p.h - k, p.side, t, k, op.key, op.val, y);
    var x := Run(u, t, k).chs[y];
    if x.Node? {
      PathStep(p.tree, op.key, k);
      ShapedAt(p.tree, op.key, p.h, k + 1);
      AllHere(past, PlacedQ(u));
      assert Placed(u, past) by { assert PlacedQ(u)(past); }
      forall c | 0 <= c < |x.kids.chs|
        ensures Level(x.kids.chs[c].id) <= k + 1
      {
        RunKids(past, p.h - k - 1, p.side, t, k, op.key, op.val, y, c);
        var next := Toward(past, op.key);
        var kid := x.kids.chs[c];
        if kid in past.kids.chs {
          var i :| 0 <= i < |past.kids.chs| && past.kids.chs[i] == kid;
        } else {
          var run := RunFor(next, p.h - k - 1, p.side, t, k + 1, op.key, op.val);
          var z :| 0 <= z < |run.chs| && run.chs[z] == kid;
          RunKinds(next, p.h - k - 1, p.side, t, k + 1, op.key, op.val, z);
        }
      }
    }
  }

  lemma AllHere(t: Tree, q: Tree -> bool)
    requires AllNodes(t, q)
    ensures q(t)
  {
  }

  lemma OwnPlaced(u: Setup, t: nat)
    requires u.Ok() && 1 <= t <= |u.ops| && !u.Appending(t)
    requires AllNodes(u.At(t - 1).tree, PlacedQ(u)) && Level(u.At(t - 1).tree.id) == 0
    ensures Own(u, t, PlacedQ(u)) && Level(u.At(t).tree.id) == 0
  {
    hide Wf, Good, Legal, Appends, AllNodes, Placed, AfterOps, Run;
    forall k: nat | k <= u.At(t - 1).h
      ensures Tops(Run(u, t, k), PlacedQ(u))
    {
      forall y | 0 <= y < |Run(u, t, k).chs|
        ensures PlacedQ(u)(Run(u, t, k).chs[y])
      {
        RunPlaced(u, t, k, y);
      }
    }
    RootPlaced(u, t);
    assert PlacedQ(u)(u.At(t).tree);
  }

  /** The new root is the new top node, or sits over the two of them. */
  lemma RootIs(u: Setup, t: nat)
    requires u.Ok() && 1 <= t <= |u.ops| && !u.Appending(t)
    ensures var run := Run(u, t, 0);
            && 1 <= |run.chs| <= 2 && |run.chs| == |run.keys| + 1
            && u.At(t).tree == (if |run.chs| == 1 then run.chs[0] else Node(New(t, 0, Root), t, run))
            && (forall y :: 0 <= y < |run.chs| ==> OwnAt(run.chs[y].id, t, 0))
  {
    hide Wf, Good, Legal, Appends, RunFor, PathOk;
    var p, op := u.At(t - 1), u.ops[t-1];
    TreePath(u, t);
    TreeStep(u, t);
    CowIsTopRun(p.tree, p.h, p.side, t, op.key, op.val);
    RunShape(p.tree, p.h, p.side, t, 0, op.key, op.val);
    forall y | 0 <= y < |Run(u, t, 0).chs|
      ensures OwnAt(Run(u, t, 0).chs[y].id, t, 0)
    {
      RunKinds(p.tree, p.h, p.side, t, 0, op.key, op.val, y);
    }
  }

  lemma RootPlaced(u: Setup, t: nat)
    requires u.Ok() && 1 <= t <= |u.ops| && !u.Appending(t)
    requires AllNodes(u.At(t - 1).tree, PlacedQ(u)) && Level(u.At(t - 1).tree.id) == 0
    ensures Placed(u, u.At(t).tree) && Level(u.At(t).tree.id) == 0
  {
    hide Wf, Good, Legal, Appends, AllNodes, Run, AfterOps, Placed;
    RootIs(u, t);
    if |Run(u, t, 0).chs| == 1 {
      RunPlaced(u, t, 0, 0);
    } else {
      NewRootPlaced(u, t, Run(u, t, 0));
    }
  }

  lemma NewRootPlaced(u: Setup, t: nat, run: Seg)
    requires forall y :: 0 <= y < |run.chs| ==> OwnAt(run.chs[y].id, t, 0)
    ensures Placed(u, Node(New(t, 0, Root), t, run))
  {
    hide AfterOps, Setup.Appending;
  }

  ghost predicate BuiltOnly(t: Tree) {
    forall x :: x in Ids(t) ==> x.Built?
  }

  lemma {:induction false} BuiltPlaced(u: Setup, t: Tree, lo: nat, hi: nat, h: nat)
    requires Wf(t, u.w.side, lo, hi, h) && BuiltOnly(t)
    ensures AllNodes(t, PlacedQ(u))
    decreases t
  {
    if t.Node? {
      forall i | 0 <= i < |t.kids.chs|
        ensures AllNodes(t.kids.chs[i], PlacedQ(u)) && t.kids.chs[i].id.Built?
      {
        ChildIds(t.kids, i);
        assert t.kids.chs[i].id in Ids(t.kids.chs[i]);
        BuiltPlaced(u, t.kids.chs[i], LoAt(t.kids.keys, lo, i), HiAt(t.kids.keys, hi, i), h - 1);
      }
    }
    assert t.id in Ids(t);
    assert Placed(u, t);
    assert PlacedQ(u)(t);
  }

  /** Levels, stamps and leaf roles are right in every tree of the history. */
  lemma {:induction false} TreePlaced(u: Setup, t: nat)
    requires u.Ok() && t <= |u.ops|
    ensures AllNodes(u.At(t).tree, PlacedQ(u)) && Level(u.At(t).tree.id) == 0
    ensures forall v :: 1 <= v <= t && !u.Appending(v) ==> Own(u, v, PlacedQ(u))
  {
    hide Good, Appends, AllNodes, Own, AfterOps;
    if t == 0 {
      assert u.At(0) == u.w by { AtZero(u); }
      assert u.w.tree.id in Ids(u.w.tree);
      BuiltPlaced(u, u.w.tree, 0, u.limit, u.w.h);
    } else {
      TreePlaced(u, t - 1);
      if u.Appending(t) {
        TreeStep(u, t);
      } else {
        OwnPlaced(u, t);
        assert u.At(0) == u.w by { AtZero(u); }
        BuiltPlaced(u, u.w.tree, 0, u.limit, u.w.h);
        TreeAll(u, t, PlacedQ(u));
      }
    }
  }

  lemma AtZero(u: Setup)
    ensures u.At(0) == u.w
  {
  }
}
