/** Reading a snapshot of the concurrent heap over time: finds and ordered scans
    whose looks at the nodes happen one by one, while tickets go on. */
module SnapshotScans {
  import opened Options
  import opened Records
  import opened Nodes
  import opened BTree
  import opened BTreeCow
  import opened BTreeHistory
  import opened BTreeLevels
  import opened BTreeScan
  import opened LeafScan
  import opened StagedCow
  import opened StagedCowOk
  import opened Pipeline
  import opened PipelineState
  import opened PipelineRun
  import opened Snapshots
  import C = Cyclic
  import Safety = CyclicSafety

  // ---- readers --------------------------------------------------------------

  /** A look at one node, with the slots of its sidecar. */
  datatype Look = Missing | Seen(node: HNode, slots: seq<HSlot>)

  /** What a reader sees at each node when it gets there. */
  type Reading = Id -> Look

  function LookAt(m: Memory, id: Id): Look {
    if id in m.heap then Seen(m.heap[id], HSlotsAt(m.side, id)) else Missing
  }

  function LeafPairs(keys: seq<Key>, vals: seq<Val>, slots: seq<HSlot>, version: nat): seq<(Key, Val)>
    requires |keys| == |vals|
  {
    Items(Overlay(Base(keys, vals), Visible(slots), version))
  }

  /** find: down to the leaf, then the newest visible value. */
  function FindIn(see: Reading, id: Id, version: nat, key: Key, fuel: nat): Option<Val>
    decreases fuel
  {
    match see(id)
    case Missing => None
    case Seen(HLeaf(_, keys, vals), slots) =>
      if vals.Some? && |keys| == |vals.value| then Lookup(Overlay(Base(keys, vals.value), Visible(slots), version), key) else None
    case Seen(HInner(_, keys, chs, _), _) =>
      var i := FindCh(keys, key);
      if fuel == 0 || i >= |chs| then None else FindIn(see, chs[i], version, key, fuel - 1)
  }

  /** scan_visible_append: the leading pairs of a subtree, until n are found. */
  function AppendIn(see: Reading, id: Id, version: nat, n: nat, before: seq<(Key, Val)>, fuel: nat): seq<(Key, Val)>
    decreases fuel, 0
  {
    match see(id)
    case Missing => before
    case Seen(HLeaf(_, keys, vals), slots) =>
      if vals.Some? && |keys| == |vals.value| then before + Take(LeafPairs(keys, vals.value, slots, version), n - |before|) else before
    case Seen(HInner(_, _, chs, _), _) => if fuel == 0 then before else AppendKids(see, chs, 0, version, n, before, fuel - 1)
  }

  /** The children from i on, as long as pairs are wanted. */
  function AppendKids(see: Reading, chs: seq<Id>, i: nat, version: nat, n: nat, before: seq<(Key, Val)>, fuel: nat): seq<(Key, Val)>
    decreases fuel, |chs| - i + 1
  {
    if i >= |chs| || |before| >= n then before
    else AppendKids(see, chs, i + 1, version, n, AppendIn(see, chs[i], version, n, before, fuel), fuel)
  }

  /** scan_visible_search: from a key on. */
  function SearchIn(see: Reading, id: Id, version: nat, key: Key, n: nat, fuel: nat): seq<(Key, Val)>
    decreases fuel
  {
    match see(id)
    case Missing => []
    case Seen(HLeaf(_, keys, vals), slots) =>
      if vals.Some? && |keys| == |vals.value| then Take(From(LeafPairs(keys, vals.value, slots, version), key), n) else []
    case Seen(HInner(_, keys, chs, _), _) =>
      var i := FindCh(keys, key);
      if fuel == 0 || i >= |chs| then []
      else AppendKids(see, chs, i + 1, version, n, SearchIn(see, chs[i], version, key, n, fuel - 1), fuel - 1)
  }

  function ScanIn(see: Reading, root: Id, version: nat, key: Key, n: nat, fuel: nat): seq<(Key, Val)> {
    if n == 0 then [] else SearchIn(see, root, version, key, n, fuel)
  }

  // ---- a reading of a finished tree -----------------------------------------

  /** The look at a node shows it as it stands in the tree, and every slot of
      the version with its value. */
  ghost predicate Shows(see: Reading, side: Side, v: nat, t: Tree) {
    see(t.id).Seen? &&
    match t
    case Leaf(id, _, keys, vals) =>
      && see(id).node.HLeaf? && see(id).node.keys == keys && see(id).node.vals == Some(vals)
      && forall m :: Overlay(m, Visible(see(id).slots), v) == Overlay(m, SlotsAt(side, id), v)
    case Node(id, _, kids) => see(id).node.HInner? && see(id).node.keys == kids.keys && see(id).node.chs == KidIds(kids)
  }

  ghost function ShowsQ(see: Reading, side: Side, v: nat): Tree -> bool {
    (x: Tree) => Shows(see, side, v, x)
  }

  lemma LeafShown(see: Reading, side: Side, v: nat, t: Tree)
    requires t.Leaf? && AllNodes(t, ShowsQ(see, side, v)) && |t.keys| == |t.vals|
    ensures see(t.id).Seen? && see(t.id).node.HLeaf? && see(t.id).node.keys == t.keys && see(t.id).node.vals == Some(t.vals)
    ensures Overlay(Base(t.keys, t.vals), Visible(see(t.id).slots), v) == LeafView(t.keys, t.vals, SlotsAt(side, t.id), v)
    ensures LeafPairs(t.keys, t.vals, see(t.id).slots, v) == Entries(t, side, v)
  {
    hide Overlay, Base, Visible, Items;
    assert ShowsQ(see, side, v)(t);
    assert Shows(see, side, v, t);
  }

  lemma NodeShown(see: Reading, side: Side, v: nat, t: Tree)
    requires t.Node? && AllNodes(t, ShowsQ(see, side, v))
    ensures see(t.id).Seen? && see(t.id).node.HInner? && see(t.id).node.keys == t.kids.keys && see(t.id).node.chs == KidIds(t.kids)
    ensures AllKids(t.kids, ShowsQ(see, side, v))
  {
    hide Overlay, Visible;
    assert ShowsQ(see, side, v)(t);
    assert Shows(see, side, v, t);
  }

  lemma {:induction false} FindInIs(see: Reading, side: Side, v: nat, t: Tree, s: Side, lo: nat, hi: nat, h: nat, key: Key, fuel: nat)
    requires Wf(t, s, lo, hi, h) && AllNodes(t, ShowsQ(see, side, v)) && lo <= key < hi && h <= fuel
    ensures FindIn(see, t.id, v, key, fuel) == Get(t, side, v, key)
    decreases t
  {
    hide AllNodes, Overlay, Base, Visible, Entries, LeafPairs;
    if t.Leaf? {
      LeafShown(see, side, v, t);
    } else {
      NodeShown(see, side, v, t);
      var i := FindCh(t.kids.keys, key);
      assert t.kids.chs[i].id == KidIds(t.kids)[i];
      FindInIs(see, side, v, t.kids.chs[i], s, LoAt(t.kids.keys, lo, i), HiAt(t.kids.keys, hi, i), h - 1, key, fuel - 1);
    }
  }

  lemma {:induction false} AppendInIs(see: Reading, side: Side, v: nat, t: Tree, s: Side, lo: nat, hi: nat, h: nat, n: nat, before: seq<(Key, Val)>, fuel: nat)
    requires Wf(t, s, lo, hi, h) && AllNodes(t, ShowsQ(see, side, v)) && |before| <= n && h <= fuel
    ensures AppendIn(see, t.id, v, n, before, fuel) == before + Take(Entries(t, side, v), n - |before|)
    decreases t, 1
  {
    hide AllNodes, Take, Entries, LeafPairs, AppendKids, Listed;
    if t.Leaf? {
      LeafShown(see, side, v, t);
    } else {
      NodeShown(see, side, v, t);
      AppendKidsIs(see, side, v, t.kids, 0, s, lo, hi, h - 1, n, before, fuel - 1);
      ListedNone(t, side, v, n, before);
    }
  }

  lemma {:induction false} AppendKidsIs(see: Reading, side: Side, v: nat, c: Seg, i: nat, s: Side, lo: nat, hi: nat, h: nat, n: nat,
                                        before: seq<(Key, Val)>, fuel: nat)
    requires Fits(c, s, lo, hi, h) && AllKids(c, ShowsQ(see, side, v)) && |before| <= n && h <= fuel
    ensures AppendKids(see, KidIds(c), i, v, n, before, fuel) == Listed(c, i, side, v, n, before)
    decreases c, 0, |c.chs| - i
  {
    hide AllNodes, Take, Entries, SegEntries, AppendIn, Listed;
    if i >= |c.chs| || |before| >= n {
      ListedAll(c, i, side, v, n, before);
    } else {
      assert c.chs[i].id == KidIds(c)[i];
      AppendInIs(see, side, v, c.chs[i], s, LoAt(c.keys, lo, i), HiAt(c.keys, hi, i), h, n, before, fuel);
      ListedStep(c, i, side, v, n, before);
      AppendKidsIs(see, side, v, c, i + 1, s, lo, hi, h, n, before + Take(Entries(c.chs[i], side, v), n - |before|), fuel);
    }
  }

  lemma {:induction false} SearchInIs(see: Reading, side: Side, v: nat, t: Tree, lo: nat, hi: nat, h: nat, key: Key, n: nat, fuel: nat)
    requires Wf(t, side, lo, hi, h) && AllNodes(t, ShowsQ(see, side, v)) && lo <= key < hi && h <= fuel
    ensures SearchIn(see, t.id, v, key, n, fuel) == Take(From(Entries(t, side, v), key), n)
    decreases t
  {
    hide AllNodes, Take, From, Entries, LeafPairs, AppendKids, Listed, SegEntries;
    if t.Leaf? {
      LeafShown(see, side, v, t);
    } else {
      NodeShown(see, side, v, t);
      var i := FindCh(t.kids.keys, key);
      assert t.kids.chs[i].id == KidIds(t.kids)[i];
      SearchInIs(see, side, v, t.kids.chs[i], LoAt(t.kids.keys, lo, i), HiAt(t.kids.keys, hi, i), h - 1, key, n, fuel - 1);
      SearchListed(t, side, v, key, n, lo, hi, h);
      AppendKidsIs(see, side, v, t.kids, i + 1, side, lo, hi, h - 1, n, Take(From(Entries(t.kids.chs[i], side, v), key), n), fuel - 1);
    }
  }

  // ---- the map of a version -------------------------------------------------

  /** The map that tickets 1..v leave. */
  ghost function ModelMap(u: Setup, v: nat): map<Key, Val>
    requires v <= |u.ops|
  {
    map k: Key | 0 <= k < u.limit && Model(u.w, u.ops, v, k).Some? :: Model(u.w, u.ops, v, k).value
  }

  /** A sorted list is determined by what it lists. */
  lemma {:induction false} ListedIsItems(s: seq<(Key, Val)>, m: map<Key, Val>, limit: nat)
    requires InOrder(s, 0, limit) && (forall k :: k in m ==> k < limit)
    requires forall k: Key :: k < limit ==> Assoc(s, k) == Lookup(m, k)
    ensures s == Items(m)
  {
    hide Assoc, Ascending;
    var ks := seq(|s|, i requires 0 <= i < |s| => s[i].0);
    forall i | 0 <= i < |s| ensures s[i].0 in m && m[s[i].0] == s[i].1 {
      AssocAt(s, i);
      assert Assoc(s, s[i].0) == Lookup(m, s[i].0);
    }
    forall k | k in m ensures k in KeySet(ks) {
      assert Assoc(s, k) == Lookup(m, k);
      var i := AssocWhere(s, k);
      assert ks[i] == k;
    }
    assert KeySet(ks) == m.Keys;
    SortedUnique(ks, Ascending(m.Keys));
    forall i | 0 <= i < |s| ensures s[i] == Items(m)[i] {
      assert ks[i] == Ascending(m.Keys)[i];
    }
  }

  lemma {:induction false} AssocAt(s: seq<(Key, Val)>, i: nat)
    requires i < |s| && forall a, b :: 0 <= a < b < |s| ==> s[a].0 < s[b].0
    ensures Assoc(s, s[i].0) == Some(s[i].1)
  {
    if i > 0 {
      assert s[1..][i-1] == s[i];
      AssocAt(s[1..], i - 1);
    }
  }

  lemma {:induction false} AssocWhere(s: seq<(Key, Val)>, k: Key) returns (i: nat)
    requires Assoc(s, k).Some?
    ensures i < |s| && s[i].0 == k
  {
    if s[0].0 == k {
      i := 0;
    } else {
      i := AssocWhere(s[1..], k);
      i := i + 1;
    }
  }

  lemma EntriesAreModel(u: Setup, v: nat)
    requires u.Ok() && v <= |u.ops|
    ensures Entries(u.At(v).tree, u.At(v).side, v) == Items(ModelMap(u, v))
  {
    hide Entries, Assoc, AfterOps, Model, Items, InOrder, Legal;
    var s, m := Entries(u.At(v).tree, u.At(v).side, v), ModelMap(u, v);
    forall k: Key | k < u.limit ensures InOrder(s, 0, u.limit) && Assoc(s, k) == Lookup(m, k) {
      EntriesModel(u.w, u.ops, u.capacity, u.limit, v, k);
    }
    LimitPositive(u, v);
    assert InOrder(s, 0, u.limit) by {
      EntriesModel(u.w, u.ops, u.capacity, u.limit, v, 0);
    }
    ListedIsItems(s, m, u.limit);
  }

  lemma LimitPositive(u: Setup, v: nat)
    requires u.Ok() && v <= |u.ops|
    ensures u.limit > 0
  {
    hide AfterOps, Legal, Distinct;
    TreesGood(u, v);
    WfRange(u.At(v).tree, u.At(v).side, 0, u.limit, u.At(v).h);
  }

  lemma {:induction false} WfRange(t: Tree, side: Side, lo: nat, hi: nat, h: nat)
    requires Wf(t, side, lo, hi, h)
    ensures lo < hi
    decreases t
  {
    if t.Node? {
      assert lo < t.kids.keys[0] < hi;
    }
  }

  // ---- the looks of a run ---------------------------------------------------

  /** A reader that looks at node id in state when(id). */
  ghost function ReadingOf(u: Setup, x: Joint, when: Id -> nat): Reading
    requires Joined(u, x) && forall id :: when(id) <= |x.actions|
  {
    (id: Id) => LookAt(MemAfter(u, x, when(id)), id)
  }

  /** Slots after version v do not change what a snapshot of v sees. */
  lemma {:induction false} OverlayStable(u: Setup, v: nat, e: nat, id: Id, m: map<Key, Val>)
    requires v <= e <= |u.ops|
    ensures Overlay(m, SlotsAt(u.At(e).side, id), v) == Overlay(m, SlotsAt(u.At(v).side, id), v)
    decreases e
  {
    hide Cow, CowHeight, Overlay, Appends;
    if v < e {
      OverlayStable(u, v, e - 1, id, m);
      var p, op := u.At(e - 1), u.ops[e-1];
      if Appends(p, op, u.capacity) && Route(p.tree, op.key).id == id {
        OverlayPrefix(m, SlotsAt(p.side, id), [Slot(e, op.key, op.val)], v);
      }
    }
  }

  /** What a look shows, in a state that has committed version v. */
  lemma LookShows(u: Setup, m: Memory, e: nat, v: nat, see: Reading, t: Tree)
    requires v <= e <= |u.ops| && SeenQ(u, m.side, e, v) && HoldsQ(m.heap)(t) && see(t.id) == LookAt(m, t.id)
    ensures Shows(see, u.At(v).side, v, t)
  {
    hide AfterOps, Overlay, Visible;
    assert NodeHolds(m.heap, t, true);
    if t.Leaf? {
      var hs := HSlotsAt(m.side, t.id);
      forall b: map<Key, Val> ensures Overlay(b, Visible(hs), v) == Overlay(b, SlotsAt(u.At(v).side, t.id), v) {
        VisibleOverlay(b, hs, SlotsAt(u.At(e).side, t.id), v);
        OverlayStable(u, v, e, t.id, b);
      }
    }
  }

  /** A state that has published version v holds its tree and its slots. */
  lemma StateShows(u: Setup, x: Joint, k: nat, v: nat)
    requires Joined(u, x) && k <= |x.actions| && v <= C.Published(x.states[k]) && v <= |u.ops|
    ensures var m := MemAfter(u, x, k);
            && v < |m.ctxs| <= |u.ops| + 1 && m.ctxs[v].root == u.At(v).tree.id
            && AllNodes(u.At(v).tree, HoldsQ(m.heap)) && SeenQ(u, m.side, |m.ctxs| - 1, v)
  {
    hide AfterOps, PipeInv, Safety.Inv, MemAfter, AllDone, AllNodes, SeenQ, Entered, C.Execution, StartsFrom, EntersWell;
    var m, s := MemAfter(u, x, k), x.states[k];
    MemoryInvariant(u, x, k);
    CommittedDone(u, x.c, s, v);
    SetupOk(u, m, ProgressOf(s), |m.ctxs| - 1);
    EnteredBefore(u, ProgressOf(s), |m.ctxs| - 1, v);
    CtxCount(u, m, ProgressOf(s), |m.ctxs| - 1);
    TreeInMemory(u, m, ProgressOf(s), |m.ctxs| - 1, v);
    SlotsSeen(u, m, ProgressOf(s), |m.ctxs| - 1, v);
    RootHere(u, m, ProgressOf(s), |m.ctxs| - 1, v);
  }

  /** Every state from n on holds the nodes below t. */
  ghost predicate HeldFrom(u: Setup, x: Joint, n: nat, v: nat, t: Tree)
    requires Joined(u, x) && v <= |u.ops|
  {
    forall k: nat :: n <= k <= |x.actions| ==>
      var m := MemAfter(u, x, k);
      v < |m.ctxs| <= |u.ops| + 1 && AllNodes(t, HoldsQ(m.heap)) && SeenQ(u, m.side, |m.ctxs| - 1, v)
  }

  lemma HeldAt(u: Setup, x: Joint, n: nat, v: nat, t: Tree, k: nat)
    requires Joined(u, x) && v <= |u.ops| && HeldFrom(u, x, n, v, t) && n <= k <= |x.actions|
    ensures var m := MemAfter(u, x, k);
            v < |m.ctxs| <= |u.ops| + 1 && AllNodes(t, HoldsQ(m.heap)) && SeenQ(u, m.side, |m.ctxs| - 1, v)
  {
    hide C.Execution, StartsFrom, EntersWell, EntersAt, AfterOps, Legal, MemAfter, SeenQ, AllNodes;
  }

  lemma HeldKids(u: Setup, x: Joint, n: nat, v: nat, t: Tree, i: nat)
    requires Joined(u, x) && v <= |u.ops| && HeldFrom(u, x, n, v, t) && t.Node? && i < |t.kids.chs|
    ensures HeldFrom(u, x, n, v, t.kids.chs[i])
  {
    hide C.Execution, StartsFrom, EntersWell, EntersAt, AfterOps, Legal, MemAfter, SeenQ, AllNodes;
    forall k: nat | n <= k <= |x.actions| ensures AllNodes(t.kids.chs[i], HoldsQ(MemAfter(u, x, k).heap)) {
      HeldAt(u, x, n, v, t, k);
      AllKid(t, HoldsQ(MemAfter(u, x, k).heap), i);
    }
  }

  lemma AllKid(t: Tree, q: Tree -> bool, i: nat)
    requires AllNodes(t, q) && t.Node? && i < |t.kids.chs|
    ensures AllNodes(t.kids.chs[i], q)
  {
  }

  lemma HeldShows(u: Setup, x: Joint, n: nat, v: nat, when: Id -> nat, t: Tree)
    requires Joined(u, x) && v <= |u.ops| && HeldFrom(u, x, n, v, t) && forall id :: n <= when(id) <= |x.actions|
    ensures Shows(ReadingOf(u, x, when), u.At(v).side, v, t)
  {
    hide C.Execution, StartsFrom, EntersWell, EntersAt, AfterOps, Legal, MemAfter, SeenQ, Shows, LookAt, HeldFrom, AllNodes;
    var k := when(t.id);
    HeldAt(u, x, n, v, t, k);
    var m := MemAfter(u, x, k);
    AllHere(t, HoldsQ(m.heap));
    LookShows(u, m, |m.ctxs| - 1, v, ReadingOf(u, x, when), t);
  }

  lemma {:induction false} AllShown(u: Setup, x: Joint, n: nat, v: nat, when: Id -> nat, t: Tree)
    requires Joined(u, x) && v <= |u.ops| && HeldFrom(u, x, n, v, t) && forall id :: n <= when(id) <= |x.actions|
    ensures AllNodes(t, ShowsQ(ReadingOf(u, x, when), u.At(v).side, v))
    decreases t
  {
    hide C.Execution, StartsFrom, EntersWell, EntersAt, AfterOps, Legal, MemAfter, Shows, HeldFrom, ReadingOf;
    HeldShows(u, x, n, v, when, t);
    assert ShowsQ(ReadingOf(u, x, when), u.At(v).side, v)(t);
    if t.Node? {
      forall i | 0 <= i < |t.kids.chs| ensures AllNodes(t.kids.chs[i], ShowsQ(ReadingOf(u, x, when), u.At(v).side, v)) {
        HeldKids(u, x, n, v, t, i);
        AllShown(u, x, n, v, when, t.kids.chs[i]);
      }
    }
  }

  /** Published versions never go back. */
  lemma {:induction false} CommitsGrow(u: Setup, x: Joint, i: nat, j: nat)
    requires Joined(u, x) && i <= j <= |x.actions|
    ensures C.Published(x.states[i]) <= C.Published(x.states[j])
    decreases j
  {
    hide MemAfter, StartsFrom, EntersWell, EntersAt, PipeInv, Safety.Inv, C.Enabled, C.Apply, AfterOps, Legal;
    if i < j {
      CommitsGrow(u, x, i, j - 1);
      MemoryInvariant(u, x, j - 1);
      MonitorHere(x.c, ProgramOf(u), x.states[j-1]);
      CommitStep(x.c, ProgramOf(u), x.states[j-1], x.actions[j-1]);
    }
  }

  lemma MonitorHere(c: C.Size, g: C.Program, s: C.State)
    requires Safety.Inv(c, g, s)
    ensures Safety.MonitorOk(s.tickets, s.monitor, s.inited, s.committed)
  {
    hide Safety.MonitorOk, C.StageAt, C.PipeFor;
  }

  lemma CommitStep(c: C.Size, g: C.Program, s: C.State, a: C.Action)
    requires Safety.MonitorOk(s.tickets, s.monitor, s.inited, s.committed) && C.Wellsized(c, s) && C.Enabled(c, g, s, a)
    ensures C.Published(s) <= C.Published(C.Apply(c, g, s, a))
  {
    hide C.StageAt, C.WaitOver, C.NeedsDone;
  }

  lemma AllHeld(u: Setup, x: Joint, n: nat, v: nat)
    requires Joined(u, x) && n <= |x.actions| && v <= C.Published(x.states[n]) && v <= |u.ops|
    ensures HeldFrom(u, x, n, v, u.At(v).tree)
  {
    hide C.Execution, StartsFrom, EntersWell, EntersAt, AfterOps, Legal, MemAfter, SeenQ, AllNodes, AfterOps;
    forall k: nat | n <= k <= |x.actions|
      ensures var m := MemAfter(u, x, k);
              v < |m.ctxs| <= |u.ops| + 1 && AllNodes(u.At(v).tree, HoldsQ(m.heap)) && SeenQ(u, m.side, |m.ctxs| - 1, v)
    {
      CommitsGrow(u, x, n, k);
      StateShows(u, x, k, v);
    }
  }

  /** A reader that has the root of a published version and then looks at the
      nodes one after another, each in any later state of the run, finds the
      value, and scans the first `count` pairs from a key on, of the map that
      tickets 1..v leave. */
  lemma ReadsAreSnapshots(u: Setup, x: Joint, n: nat, v: nat, when: Id -> nat, key: Key, count: nat)
    requires Joined(u, x) && n <= |x.actions| && v <= C.Published(x.states[n]) && v <= |u.ops| && key < u.limit
    requires forall id :: n <= when(id) <= |x.actions|
    ensures v < |MemAfter(u, x, n).ctxs|
    ensures var see, root := ReadingOf(u, x, when), MemAfter(u, x, n).ctxs[v].root;
            && FindIn(see, root, v, key, u.At(v).h) == Model(u.w, u.ops, v, key)
            && ScanIn(see, root, v, key, count, u.At(v).h) == Take(From(Items(ModelMap(u, v)), key), count)
  {
    hide C.Execution, StartsFrom, EntersWell, EntersAt, MemAfter, AllNodes, HeldFrom, AfterOps, Model, Entries, FindIn, SearchIn, Wf, Get, ReadingOf, Items, From, Distinct, Legal;
    StateShows(u, x, n, v);
    AllHeld(u, x, n, v);
    var see, p := ReadingOf(u, x, when), u.At(v);
    AllShown(u, x, n, v, when, p.tree);
    JoinedOk(u, x);
    TreesGood(u, v);
    FindInIs(see, p.side, v, p.tree, p.side, 0, u.limit, p.h, key, p.h);
    SnapshotStable(u.w, u.ops, u.capacity, u.limit, v, v, key);
    SearchInIs(see, p.side, v, p.tree, 0, u.limit, p.h, key, count, p.h);
    EntriesAreModel(u, v);
  }

  lemma JoinedOk(u: Setup, x: Joint)
    requires Joined(u, x)
    ensures u.Ok()
  {
    hide MemAfter, C.Execution, StartsFrom, EntersWell, Legal;
  }

  /** The same for a scan of a single state, slots still pending included. */
  lemma ScanLinearizable(u: Setup, x: Joint, n: nat, v: nat, key: Key, count: nat)
    requires Joined(u, x) && n <= |x.actions| && v <= C.Published(x.states[n]) && v <= |u.ops| && key < u.limit
    ensures var m := MemAfter(u, x, n);
            && v < |m.ctxs|
            && ScanIn((id: Id) => LookAt(m, id), m.ctxs[v].root, v, key, count, u.At(v).h) == Take(From(Items(ModelMap(u, v)), key), count)
  {
    hide C.Execution, StartsFrom, EntersWell, EntersAt, AllNodes, HeldFrom, AfterOps, Entries, SearchIn, Wf, Items, From, Distinct, Legal, MemAfter, Shows, SeenQ;
    StateShows(u, x, n, v);
    var m, p := MemAfter(u, x, n), u.At(v);
    var see: Reading := (id: Id) => LookAt(m, id);
    JoinedOk(u, x);
    TreesGood(u, v);
    ShownNow(u, m, |m.ctxs| - 1, v, see, p.tree);
    SearchInIs(see, p.side, v, p.tree, 0, u.limit, p.h, key, count, p.h);
    EntriesAreModel(u, v);
  }

  lemma {:induction false} ShownNow(u: Setup, m: Memory, e: nat, v: nat, see: Reading, t: Tree)
    requires v <= e <= |u.ops| && SeenQ(u, m.side, e, v) && AllNodes(t, HoldsQ(m.heap)) && forall id :: see(id) == LookAt(m, id)
    ensures AllNodes(t, ShowsQ(see, u.At(v).side, v))
    decreases t
  {
    hide SeenQ, Shows, AfterOps;
    LookShows(u, m, e, v, see, t);
    assert ShowsQ(see, u.At(v).side, v)(t);
    if t.Node? {
      forall i | 0 <= i < |t.kids.chs| ensures AllNodes(t.kids.chs[i], ShowsQ(see, u.At(v).side, v)) {
        ShownNow(u, m, e, v, see, t.kids.chs[i]);
      }
    }
  }
}
