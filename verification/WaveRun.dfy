/** One append wave over a B+Tree: what executing its groups, in any order,
    leaves behind. */
module WaveRun {
  import opened Options
  import opened Records
  import opened Nodes
  import opened BTree
  import opened BTreeCow
  import opened BTreeHistory
  import opened BTreeMerge
  import P = WavePlan

  /** The tree a wave starts from, and the batch it takes a prefix of. */
  datatype Conf = Conf(tree: Tree, side: Side, slots: nat, extra: nat, ops: seq<P.Op>, first: nat, address: Id -> nat)
  {
    /** concurrent_fat_available: a leaf without a block takes all slots. */
    function Room(id: Id): nat {
      if |SlotsAt(side, id)| < slots then slots - |SlotsAt(side, id)| else 0
    }

    function Routing(): P.Routing<Id> {
      P.Routing((key: Key) => Some(Route(tree, key).id), (leaf: Option<Id>) => if leaf.Some? then Room(leaf.value) else slots, address)
    }

    function LeafAt(p: nat): Id
      requires p < |ops|
    {
      Route(tree, ops[p].key).id
    }

    /** Updates of the wave ahead of p on p's leaf. */
    function Ahead(p: nat): nat
      requires first <= p < |ops|
    {
      |P.Hits(Routing(), ops, first, p, P.AtLeaf(LeafAt(p)))|
    }

    /** The update that replaces its leaf instead of taking a slot. */
    predicate Replaces(p: nat)
      requires first <= p < |ops|
    {
      Ahead(p) == Room(LeafAt(p))
    }

    function SlotFor(p: nat): Slot
      requires p < |ops|
    {
      Slot(ops[p].ticket, ops[p].key, ops[p].value)
    }

    /** The planner admitted the updates of [first, end). */
    ghost predicate Planned(end: nat) {
      && first <= end <= |ops| && extra <= 1
      && forall p :: first <= p < end ==> P.Fits(Routing(), ops, first, p, extra)
    }
  }

  lemma AheadFits(c: Conf, end: nat, p: nat)
    requires c.Planned(end) && c.first <= p < end
    ensures c.Ahead(p) < c.Room(c.LeafAt(p)) + c.extra
  {
    assert P.Fits(c.Routing(), c.ops, c.first, p, c.extra);
  }

  lemma {:induction false} HitsGrow(c: Conf, p: nat, q: nat, id: Id)
    requires c.first <= p <= q <= |c.ops|
    ensures |P.Hits(c.Routing(), c.ops, c.first, p, P.AtLeaf(id))| <= |P.Hits(c.Routing(), c.ops, c.first, q, P.AtLeaf(id))|
    decreases q
  {
    if p < q {
      HitsGrow(c, p, q - 1, id);
    }
  }

  lemma AheadGrows(c: Conf, p: nat, q: nat)
    requires c.first <= p < q < |c.ops| && c.LeafAt(p) == c.LeafAt(q)
    ensures c.Ahead(p) < c.Ahead(q)
  {
    HitsGrow(c, p + 1, q, c.LeafAt(p));
  }

  /** A replaced leaf gets no further update in its wave. */
  lemma ReplacesLast(c: Conf, end: nat, p: nat, q: nat)
    requires c.Planned(end) && c.first <= p < q < end && c.Replaces(p)
    ensures c.LeafAt(q) != c.LeafAt(p)
  {
    if c.LeafAt(q) == c.LeafAt(p) {
      AheadGrows(c, p, q);
      AheadFits(c, end, q);
    }
  }

  // ---- the slots taken ------------------------------------------------------

  /** The slots of a leaf taken by the updates in `done`, in ticket order. */
  function Taken(c: Conf, p: nat, done: set<nat>, id: Id): seq<Slot>
    requires c.first <= p <= |c.ops|
    decreases p
  {
    if p == c.first then []
    else Taken(c, p - 1, done, id) + (if p - 1 in done && c.LeafAt(p - 1) == id && !c.Replaces(p - 1) then [c.SlotFor(p - 1)] else [])
  }

  function Touched(c: Conf, end: nat, done: set<nat>): set<Id>
    requires c.first <= end <= |c.ops|
  {
    set p | p in done && c.first <= p < end && !c.Replaces(p) :: c.LeafAt(p)
  }

  /** The sidecars once the updates in `done` have run. */
  function SideOf(c: Conf, end: nat, done: set<nat>): Side
    requires c.first <= end <= |c.ops|
  {
    map id | id in c.side.Keys + Touched(c, end, done) :: SlotsAt(c.side, id) + Taken(c, end, done, id)
  }

  /** Updates of one leaf run in ticket order. */
  ghost predicate InOrder(c: Conf, end: nat, done: set<nat>)
    requires c.first <= end <= |c.ops|
  {
    && (forall p :: p in done ==> c.first <= p < end)
    && (forall p, q :: q in done && c.first <= p < q && c.LeafAt(p) == c.LeafAt(q) ==> p in done)
  }

  /** The next update of its leaf. */
  ghost predicate Next(c: Conf, end: nat, done: set<nat>, p: nat)
    requires c.first <= end <= |c.ops|
  {
    && c.first <= p < end && p !in done
    && (forall q :: c.first <= q < p && c.LeafAt(q) == c.LeafAt(p) ==> q in done)
  }

  lemma {:induction false} TakenNone(c: Conf, p: nat, q: nat, done: set<nat>, id: Id)
    requires c.first <= p <= q <= |c.ops|
    requires forall x :: p <= x < q && c.LeafAt(x) == id ==> x !in done
    ensures Taken(c, q, done, id) == Taken(c, p, done, id)
    decreases q
  {
    if p < q {
      TakenNone(c, p, q - 1, done, id);
    }
  }

  lemma {:induction false} TakenSame(c: Conf, p: nat, a: set<nat>, b: set<nat>, id: Id)
    requires c.first <= p <= |c.ops|
    requires forall x :: c.first <= x < p && c.LeafAt(x) == id ==> (x in a <==> x in b)
    ensures Taken(c, p, a, id) == Taken(c, p, b, id)
    decreases p
  {
    if c.first < p {
      TakenSame(c, p - 1, a, b, id);
    }
  }

  /** Running the next update of a leaf appends its slot behind the others. */
  lemma TakenStep(c: Conf, end: nat, done: set<nat>, p: nat, id: Id)
    requires c.first <= end <= |c.ops| && InOrder(c, end, done) && Next(c, end, done, p)
    ensures Taken(c, end, done + {p}, id)
            == Taken(c, end, done, id) + (if c.LeafAt(p) == id && !c.Replaces(p) then [c.SlotFor(p)] else [])
  {
    hide Conf.Replaces, Conf.SlotFor, Conf.LeafAt;
    var done' := done + {p};
    if c.LeafAt(p) == id {
      TakenNone(c, p + 1, end, done', id);
      TakenNone(c, p, end, done, id);
      TakenSame(c, p, done, done', id);
    } else {
      TakenSame(c, end, done, done', id);
    }
  }

  lemma SideStep(c: Conf, end: nat, done: set<nat>, p: nat)
    requires c.first <= end <= |c.ops| && InOrder(c, end, done) && Next(c, end, done, p)
    ensures InOrder(c, end, done + {p})
    ensures SideOf(c, end, done + {p})
            == if c.Replaces(p) then SideOf(c, end, done) else Append(SideOf(c, end, done), c.LeafAt(p), c.SlotFor(p))
  {
    hide Taken, Conf.Replaces, SideOf, Touched, Next, InOrder, Append;
    var a, b := SideOf(c, end, done), SideOf(c, end, done + {p});
    OrderStep(c, end, done, p);
    forall id: Id
      ensures SlotsAt(b, id) == SlotsAt(a, id) + (if c.LeafAt(p) == id && !c.Replaces(p) then [c.SlotFor(p)] else [])
    {
      OneStep(c, end, done, p, id);
    }
    TouchedStep(c, end, done, p);
    if c.Replaces(p) {
      SameSide(a, b);
    } else {
      AppendedSide(a, b, c.LeafAt(p), c.SlotFor(p));
    }
  }

  lemma OrderStep(c: Conf, end: nat, done: set<nat>, p: nat)
    requires c.first <= end <= |c.ops| && InOrder(c, end, done) && Next(c, end, done, p)
    ensures InOrder(c, end, done + {p}) && c.first <= p < end
  {
    hide Conf.LeafAt;
  }

  lemma OneStep(c: Conf, end: nat, done: set<nat>, p: nat, id: Id)
    requires c.first <= end <= |c.ops| && InOrder(c, end, done) && Next(c, end, done, p)
    ensures SlotsAt(SideOf(c, end, done + {p}), id)
            == SlotsAt(SideOf(c, end, done), id) + (if c.LeafAt(p) == id && !c.Replaces(p) then [c.SlotFor(p)] else [])
  {
    hide Taken, Conf.Replaces, SideOf;
    TakenStep(c, end, done, p, id);
    SlotsOfSide(c, end, done, id);
    SlotsOfSide(c, end, done + {p}, id);
  }

  lemma TouchedStep(c: Conf, end: nat, done: set<nat>, p: nat)
    requires c.first <= end <= |c.ops| && c.first <= p < end
    ensures SideOf(c, end, done + {p}).Keys == SideOf(c, end, done).Keys + (if c.Replaces(p) then {} else {c.LeafAt(p)})
  {
    hide Taken, Conf.Replaces, Conf.LeafAt;
    assert Touched(c, end, done + {p}) == Touched(c, end, done) + if c.Replaces(p) then {} else {c.LeafAt(p)};
  }

  lemma SameSide(a: Side, b: Side)
    requires b.Keys == a.Keys + {} && forall id: Id :: SlotsAt(b, id) == SlotsAt(a, id) + []
    ensures a == b
  {
    forall id | id in a ensures a[id] == b[id] {
      assert SlotsAt(b, id) == SlotsAt(a, id) + [];
    }
  }

  lemma AppendedSide(a: Side, b: Side, leaf: Id, s: Slot)
    requires b.Keys == a.Keys + {leaf} && forall id: Id :: SlotsAt(b, id) == SlotsAt(a, id) + (if leaf == id then [s] else [])
    ensures b == Append(a, leaf, s)
  {
    forall id | id in b ensures b[id] == Append(a, leaf, s)[id] {
      assert SlotsAt(b, id) == SlotsAt(a, id) + (if leaf == id then [s] else []);
    }
  }

  lemma SlotsOfSide(c: Conf, end: nat, done: set<nat>, id: Id)
    requires c.first <= end <= |c.ops|
    ensures SlotsAt(SideOf(c, end, done), id) == SlotsAt(c.side, id) + Taken(c, end, done, id)
  {
    if id !in SideOf(c, end, done) {
      Untouched(c, end, end, done, id);
    }
  }

  lemma {:induction false} Untouched(c: Conf, end: nat, p: nat, done: set<nat>, id: Id)
    requires c.first <= p <= end <= |c.ops| && id !in Touched(c, end, done)
    ensures Taken(c, p, done, id) == []
    decreases p
  {
    if c.first < p {
      Untouched(c, end, p - 1, done, id);
    }
  }

  /** As many slots as updates ahead, when those have run. */
  lemma {:induction false} TakenCount(c: Conf, end: nat, done: set<nat>, p: nat, id: Id)
    requires c.first <= p <= |c.ops|
    requires forall q :: c.first <= q < p && c.LeafAt(q) == id ==> q in done && !c.Replaces(q)
    ensures |Taken(c, p, done, id)| == |P.Hits(c.Routing(), c.ops, c.first, p, P.AtLeaf(id))|
    decreases p
  {
    hide Conf.Replaces, Conf.SlotFor;
    if c.first < p {
      TakenCount(c, end, done, p - 1, id);
    }
  }

  /** The reserved capacity is never lost: an update that does not replace its
      leaf finds a slot, whatever else of the wave has run. */
  lemma CapacityKept(c: Conf, end: nat, done: set<nat>, p: nat)
    requires c.Planned(end) && InOrder(c, end, done) && Next(c, end, done, p)
    ensures |SlotsAt(SideOf(c, end, done), c.LeafAt(p))| == |SlotsAt(c.side, c.LeafAt(p))| + c.Ahead(p)
    ensures !c.Replaces(p) ==> |SlotsAt(SideOf(c, end, done), c.LeafAt(p))| < c.slots
  {
    hide Conf.Replaces;
    var id := c.LeafAt(p);
    SlotsOfSide(c, end, done, id);
    forall q | c.first <= q < p && c.LeafAt(q) == id ensures q in done && !c.Replaces(q) {
      if c.Replaces(q) { ReplacesLast(c, end, q, p); }
    }
    TakenCount(c, end, done, p, id);
    TakenNone(c, p, end, done, id);
    NotFull(c, end, p);
  }

  lemma NotFull(c: Conf, end: nat, p: nat)
    requires c.Planned(end) && c.first <= p < end
    ensures !c.Replaces(p) ==> |SlotsAt(c.side, c.LeafAt(p))| + c.Ahead(p) < c.slots
  {
    AheadFits(c, end, p);
  }

  // ---- executing the groups -------------------------------------------------

  /** What the leaf's replacement is built from at update p. */
  function ChangeAt(c: Conf, p: nat, side: Side): Change
    requires p < |c.ops|
  {
    var leaf := Route(c.tree, c.ops[p].key);
    var op := c.ops[p];
    Change(leaf, op.key, op.ticket, op.value,
           if leaf.Leaf? && |leaf.keys| == |leaf.vals| then ReplaceLeaf(leaf, side, op.ticket, 0, op.key, op.value) else One(leaf))
  }

  /** The shared state of a wave: sidecars, what has run, the replacements, and
      whether the exception was raised. */
  datatype Run = Run(side: Side, done: set<nat>, prepared: map<nat, Change>, failed: bool)

  /** One turn of execute_group's loop. */
  function Turn(c: Conf, r: Run, p: nat): Run
    requires c.first <= p < |c.ops|
  {
    if c.Replaces(p) then r.(done := r.done + {p}, prepared := r.prepared[p := ChangeAt(c, p, r.side)])
    else if |SlotsAt(r.side, c.LeafAt(p))| < c.slots then
      r.(side := Append(r.side, c.LeafAt(p), c.SlotFor(p)), done := r.done + {p})
    else r.(failed := true)
  }

  /** Any interleaving of the groups. */
  ghost predicate Schedule(c: Conf, end: nat, sched: seq<nat>)
    requires c.first <= end <= |c.ops|
  {
    forall i :: 0 <= i < |sched| ==> c.first <= sched[i] < end && Next(c, end, Before(sched, i), sched[i])
  }

  function Before(sched: seq<nat>, i: nat): set<nat>
    requires i <= |sched|
  {
    set j | 0 <= j < i :: sched[j]
  }

  function After(c: Conf, sched: seq<nat>, i: nat): Run
    requires i <= |sched| && forall j :: 0 <= j < |sched| ==> c.first <= sched[j] < |c.ops|
  {
    if i == 0 then Run(c.side, {}, map[], false) else Turn(c, After(c, sched, i - 1), sched[i-1])
  }

  /** The wave's state depends only on which updates have run. */
  ghost predicate Settled(c: Conf, end: nat, r: Run)
    requires c.first <= end <= |c.ops|
  {
    && !r.failed && InOrder(c, end, r.done) && r.side == SideOf(c, end, r.done)
    && (forall p :: p in r.prepared <==> p in r.done && c.first <= p < end && c.Replaces(p))
    && (forall p :: p in r.prepared && c.first <= p < end ==> r.prepared[p] == ChangeAt(c, p, SideOf(c, end, All(c.first, p))))
  }

  predicate From(first: nat, p: nat) {
    first <= p
  }

  function All(first: nat, end: nat): set<nat> {
    set p | 0 <= p < end && From(first, p)
  }

  lemma ChangeSame(c: Conf, end: nat, done: set<nat>, p: nat)
    requires c.Planned(end) && InOrder(c, end, done) && Next(c, end, done, p)
    ensures ChangeAt(c, p, SideOf(c, end, done)) == ChangeAt(c, p, SideOf(c, end, All(c.first, p)))
  {
    hide ReplaceLeaf;
    var leaf, id := Route(c.tree, c.ops[p].key), c.LeafAt(p);
    SlotsOfSide(c, end, done, id);
    SlotsOfSide(c, end, All(c.first, p), id);
    TakenNone(c, p, end, done, id);
    TakenNone(c, p, end, All(c.first, p), id);
    TakenSame(c, p, done, All(c.first, p), id);
    if leaf.Leaf? && |leaf.keys| == |leaf.vals| {
      SameReplacement(leaf, SideOf(c, end, done), SideOf(c, end, All(c.first, p)), c.ops[p]);
    }
  }

  lemma SameReplacement(leaf: Tree, a: Side, b: Side, op: P.Op)
    requires leaf.Leaf? && |leaf.keys| == |leaf.vals| && SlotsAt(a, leaf.id) == SlotsAt(b, leaf.id)
    ensures ReplaceLeaf(leaf, a, op.ticket, 0, op.key, op.value) == ReplaceLeaf(leaf, b, op.ticket, 0, op.key, op.value)
  {
  }

  lemma TurnSettles(c: Conf, end: nat, r: Run, p: nat)
    requires c.Planned(end) && Settled(c, end, r) && Next(c, end, r.done, p)
    ensures Settled(c, end, Turn(c, r, p)) && Turn(c, r, p).done == r.done + {p}
  {
    hide SideOf, Conf.Replaces, ChangeAt, InOrder;
    SideStep(c, end, r.done, p);
    CapacityKept(c, end, r.done, p);
    ChangeSame(c, end, r.done, p);
  }

  /** No order of running the groups raises the lost-capacity exception, and
      every order leaves the same sidecars and the same replacements. */
  lemma {:induction false} OrderIsIrrelevant(c: Conf, end: nat, sched: seq<nat>, i: nat)
    requires c.Planned(end) && Schedule(c, end, sched) && i <= |sched|
    ensures Settled(c, end, After(c, sched, i)) && After(c, sched, i).done == Before(sched, i)
  {
    hide Settled, Turn, Next;
    if i == 0 {
      StartSettled(c, end);
    } else {
      OrderIsIrrelevant(c, end, sched, i - 1);
      assert Next(c, end, Before(sched, i - 1), sched[i-1]);
      TurnSettles(c, end, After(c, sched, i - 1), sched[i-1]);
      assert Before(sched, i) == Before(sched, i - 1) + {sched[i-1]};
    }
  }

  lemma StartSettled(c: Conf, end: nat)
    requires c.Planned(end)
    ensures Settled(c, end, Run(c.side, {}, map[], false))
  {
    forall id ensures Taken(c, end, {}, id) == [] {
      Untouched(c, end, end, {}, id);
    }
    assert Touched(c, end, {}) == {};
    assert forall id :: id in c.side ==> c.side[id] + [] == c.side[id];
    assert SideOf(c, end, {}) == c.side;
  }
}
