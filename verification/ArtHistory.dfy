/** The sequential meaning of a ticket sequence over a radix tree: a ticket
    appends to its key's leaf while the gate is open and the leaf has room, and
    copies the path else. */
module ArtHistory {
  import opened Options
  import opened Records
  import opened Nodes
  import opened Art
  import opened ArtCow
  import opened ArtShare

  /** `open` is what the gate of the entry stage found. */
  datatype Ticket = Ticket(key: Word, val: Val, open: bool)

  datatype World = World(root: Option<Node>, side: Histories)

  /** fat_leaf_for: the leaf that holds the key. */
  function LeafFor(t: Node, w: Word): Option<Id>
    decreases t
  {
    match t
    case Leaf(id, _, ofs, key, _) =>
      if ofs > 8 || MatchLen(key[ofs..], w, ofs) < 8 - ofs then None else Some(id)
    case Branch(_, _, _, ofs, pfx, keys, chs) =>
      if ofs + |pfx| >= 8 || MatchLen(pfx, w, ofs) < |pfx| then None
      else
        var i := IndexOf(keys, w[ofs+|pfx|], 0);
        if i.Some? && i.value < |chs| then LeafFor(chs[i.value], w) else None
  }

  function LeafOf(r: Option<Node>, w: Word): Option<Id> {
    if r.None? then None else LeafFor(r.value, w)
  }

  function Append(side: Histories, id: Id, e: Entry): Histories {
    side[id := HistoryOf(side, id) + [e]]
  }

  /** A leaf takes the value when the entry's gate is open (for the radix tree:
      the last structural ticket is committed) and its history has room. */
  predicate Appends(s: World, op: Ticket, slots: nat) {
    op.open && LeafOf(s.root, op.key).Some? && |HistoryOf(s.side, LeafOf(s.root, op.key).value)| < slots
  }

  function CowRoot(r: Option<Node>, side: Histories, ticket: nat, w: Word, v: Val): Node {
    if r.None? then Leaf(New(ticket, 0, WholeLeaf), ticket, 0, w, v) else Cow(r.value, side, ticket, 0, w, v)
  }

  function Step(s: World, ticket: nat, op: Ticket, slots: nat): World {
    if Appends(s, op, slots) then s.(side := Append(s.side, LeafOf(s.root, op.key).value, Entry(ticket, op.val)))
    else World(Some(CowRoot(s.root, s.side, ticket, op.key, op.val)), s.side)
  }

  /** The state after tickets 1..n. */
  function AfterOps(s: World, ops: seq<Ticket>, slots: nat, n: nat): World
    requires n <= |ops|
  {
    if n == 0 then s else Step(AfterOps(s, ops, slots, n - 1), n, ops[n-1], slots)
  }

  /** What a snapshot sees of a root. */
  function SeenRoot(r: Option<Node>, side: Histories, version: nat): Option<Radix> {
    if r.None? then None else Some(Seen(r.value, side, version))
  }

  /** The same updates made in place, one after the other. */
  function InPlace(r: Option<Radix>, ops: seq<Ticket>, n: nat): Option<Radix>
    requires n <= |ops|
  {
    if n == 0 then r else InsertRoot(InPlace(r, ops, n - 1), ops[n-1].key, ops[n-1].val)
  }

  /** The map the updates stand for. */
  function Model(r: Option<Radix>, ops: seq<Ticket>, n: nat, u: Word): Option<Val>
    requires n <= |ops|
  {
    if n == 0 then FindRoot(r, u)
    else if ops[n-1].key == u then Some(ops[n-1].val)
    else Model(r, ops, n - 1, u)
  }

  ghost predicate Initial(s: World) {
    s.side == map[] && (s.root.Some? ==> Shaped(s.root.value, []) && Distinct(s.root.value) && forall x :: x in Ids(s.root.value) ==> x.Built?)
  }

  ghost predicate Good(s: World, n: nat) {
    && (s.root.Some? ==> Shaped(s.root.value, []) && Distinct(s.root.value))
    && (s.root.Some? ==> forall x :: x in Ids(s.root.value) ==> x.Version() <= n)
    && (forall x :: x in s.side ==> x.Version() <= n)
    && (forall x, i :: x in s.side && 0 <= i < |s.side[x]| ==> s.side[x][i].version <= n)
  }

  // ---- appending is inserting -----------------------------------------------

  lemma {:induction false} LeafIn(t: Node, w: Word)
    ensures LeafFor(t, w).Some? ==> LeafFor(t, w).value in Ids(t)
    decreases t
  {
    if t.Branch? && t.ofs + |t.pfx| < 8 && MatchLen(t.pfx, w, t.ofs) == |t.pfx| {
      var i := IndexOf(t.keys, w[t.ofs+|t.pfx|], 0);
      if i.Some? && i.value < |t.chs| {
        LeafIn(t.chs[i.value], w);
        ChildIds(t.chs, i.value);
      }
    }
  }

  ghost predicate SameOn(a: Histories, b: Histories, ids: set<Id>) {
    forall x :: x in ids ==> HistoryOf(a, x) == HistoryOf(b, x)
  }

  lemma {:induction false} SeenFrame(t: Node, a: Histories, b: Histories, version: nat)
    requires SameOn(a, b, Ids(t))
    ensures Seen(t, a, version) == Seen(t, b, version)
    decreases t
  {
    if t.Branch? {
      forall i | 0 <= i < |t.chs| ensures SeenAll(t.chs, a, version)[i] == SeenAll(t.chs, b, version)[i] {
        ChildIds(t.chs, i);
        SeenFrame(t.chs[i], a, b, version);
      }
    }
  }

  /** Later entries do not show in an earlier snapshot. */
  lemma {:induction false} LaterInvisible(t: Node, side: Histories, id: Id, e: Entry, version: nat)
    requires version < e.version
    ensures Seen(t, Append(side, id, e), version) == Seen(t, side, version)
    decreases t
  {
    if t.Branch? {
      forall i | 0 <= i < |t.chs| ensures SeenAll(t.chs, Append(side, id, e), version)[i] == SeenAll(t.chs, side, version)[i] {
        LaterInvisible(t.chs[i], side, id, e, version);
      }
    } else if t.id == id {
      var es := HistoryOf(side, id);
      assert (es + [e])[..|es|] == es;
    }
  }

  /** Appending a value to the key's leaf is inserting it, for every snapshot
      that includes it. */
  lemma {:induction false} AppendIsInsert(t: Node, side: Histories, path: seq<Byte>, w: Word, e: Entry, version: nat)
    requires Shaped(t, path) && Distinct(t) && LeafFor(t, w).Some? && e.version <= version
    ensures Seen(t, Append(side, LeafFor(t, w).value, e), version) == Insert(Seen(t, side, version), |path|, w, e.value)
    decreases t
  {
    hide Shaped, Read, SeenAll, Append;
    ShapedIs(t, path);
    var id := LeafFor(t, w).value;
    var side' := Append(side, id, e);
    PrefixSeen(t, side, version);
    if t.Leaf? {
      LeafAppended(t, side, e, version);
    } else {
      var o := |path| + |t.pfx|;
      var i := IndexOf(t.keys, w[o], 0);
      var c := t.chs[i.value];
      AppendIsInsert(c, side, path + t.pfx + [w[o]], w, e, version);
      LeafIn(c, w);
      SiblingsSame(t, i.value, id, side, e, version);
      SeenChild(t.chs, i.value, side, version);
    }
  }

  lemma LeafAppended(t: Node, side: Histories, e: Entry, version: nat)
    requires t.Leaf? && e.version <= version
    ensures Read(t.val, HistoryOf(Append(side, t.id, e), t.id), version) == e.value
  {
  }

  lemma SiblingsSame(t: Node, i: nat, id: Id, side: Histories, e: Entry, version: nat)
    requires t.Branch? && Distinct(t) && i < |t.chs| && id in Ids(t.chs[i])
    ensures SeenAll(t.chs, Append(side, id, e), version)
            == SeenAll(t.chs, side, version)[i := Seen(t.chs[i], Append(side, id, e), version)]
  {
    hide Seen;
    forall j | 0 <= j < |t.chs| && j != i
      ensures Seen(t.chs[j], Append(side, id, e), version) == Seen(t.chs[j], side, version)
    {
      assert if j < i then Ids(t.chs[j]) !! Ids(t.chs[i]) else Ids(t.chs[i]) !! Ids(t.chs[j]);
      SeenFrame(t.chs[j], Append(side, id, e), side, version);
    }
  }

  // ---- one ticket -----------------------------------------------------------

  /** Whichever way a ticket goes, later snapshots see it as inserted in place. */
  lemma StepIsInsert(s: World, n: nat, op: Ticket, slots: nat, version: nat)
    requires Good(s, n) && n < version
    ensures var s' := Step(s, n + 1, op, slots);
            SeenRoot(s'.root, s'.side, version) == InsertRoot(SeenRoot(s.root, s.side, version), op.key, op.val)
  {
    hide Seen, Cow, Insert, Read, Shaped, Distinct;
    BelowNext(s, n);
    if Appends(s, op, slots) {
      AppendIsInsert(s.root.value, s.side, [], op.key, Entry(n + 1, op.val), version);
    } else if s.root.Some? {
      CopyIsInsert(s.root.value, s.side, n + 1, 0, op.key, op.val, version);
    } else {
      LeafSeen(s.side, n + 1, New(n + 1, 0, WholeLeaf), 0, op.key, op.val, version);
    }
  }

  lemma BelowNext(s: World, n: nat)
    requires Good(s, n)
    ensures Below(s.side, n + 1) && (s.root.Some? ==> NoneOf(Ids(s.root.value), n + 1))
  {
    hide Shaped, Distinct;
  }

  lemma ShapeOnly(t: Node, a: Histories, v: nat, b: Histories, u: nat, path: seq<Byte>)
    requires Wf(Seen(t, a, v), path)
    ensures Wf(Seen(t, b, u), path)
    decreases t
  {
    if t.Branch? {
      forall i | 0 <= i < |t.chs| ensures Wf(SeenAll(t.chs, b, u)[i], path + t.pfx + [t.keys[i]]) {
        SeenChild(t.chs, i, a, v);
        SeenChild(t.chs, i, b, u);
        ShapeOnly(t.chs[i], a, v, b, u, path + t.pfx + [t.keys[i]]);
      }
    }
  }

  lemma CopyShaped(t: Node, side: Histories, ticket: nat, w: Word, v: Val)
    requires Shaped(t, []) && Below(side, ticket)
    ensures Shaped(Cow(t, side, ticket, 0, w, v), [])
  {
    hide Seen, Cow, Insert, Wf;
    CopyIsInsert(t, side, ticket, 0, w, v, ticket);
    ShapeOnly(t, map[], 0, side, ticket, []);
    assert w[..0] == [];
    InsertOk(Seen(t, side, ticket), [], w, v, w);
    ShapeOnly(Cow(t, side, ticket, 0, w, v), side, ticket, map[], 0, []);
  }

  lemma LeafShaped(ticket: nat, w: Word, v: Val)
    ensures Shaped(Leaf(New(ticket, 0, WholeLeaf), ticket, 0, w, v), [])
  {
    assert w[..0] == [];
  }

  lemma StepGood(s: World, n: nat, op: Ticket, slots: nat)
    requires Good(s, n)
    ensures Good(Step(s, n + 1, op, slots), n + 1)
  {
    hide Cow, Shaped, Distinct, Path;
    BelowNext(s, n);
    if Appends(s, op, slots) {
      var id := LeafOf(s.root, op.key).value;
      LeafIn(s.root.value, op.key);
      var side: Histories := Append(s.side, id, Entry(n + 1, op.val));
      forall x: Id, i: int | x in side && 0 <= i < |side[x]| ensures side[x][i].version <= n + 1 {
        if x != id { assert side[x] == s.side[x]; }
      }
    } else if s.root.Some? {
      CopyShaped(s.root.value, s.side, n + 1, op.key, op.val);
      CowShares(s.root.value, s.side, n + 1, [], op.key, op.val);
    } else {
      LeafShaped(n + 1, op.key, op.val);
      LeafDistinct(Leaf(New(n + 1, 0, WholeLeaf), n + 1, 0, op.key, op.val));
    }
  }

  lemma LeafDistinct(t: Node)
    requires t.Leaf?
    ensures Distinct(t)
  {
  }

  // ---- whole histories ------------------------------------------------------

  lemma {:induction false} AfterGood(s: World, ops: seq<Ticket>, slots: nat, n: nat)
    requires Initial(s) && n <= |ops|
    ensures Good(AfterOps(s, ops, slots, n), n)
  {
    hide Step, Shaped, Distinct;
    if n > 0 {
      AfterGood(s, ops, slots, n - 1);
      StepGood(AfterOps(s, ops, slots, n - 1), n - 1, ops[n-1], slots);
    }
  }

  /** Persistent is in-place: after any number of tickets the published tree, as
      its own snapshot sees it, is the tree the same updates leave when made in
      place; and it stays so whatever later tickets do. */
  lemma {:induction false} SnapshotIsInPlace(s: World, ops: seq<Ticket>, slots: nat, v: nat, n: nat)
    requires Initial(s) && v <= n <= |ops|
    ensures SeenRoot(AfterOps(s, ops, slots, v).root, AfterOps(s, ops, slots, n).side, v) == InPlace(SeenRoot(s.root, s.side, 0), ops, v)
    decreases n
  {
    hide Seen, Cow, Insert, InsertRoot;
    if n == v {
      AfterSeen(s, ops, slots, n, v);
    } else {
      SnapshotIsInPlace(s, ops, slots, v, n - 1);
      var p := AfterOps(s, ops, slots, n - 1);
      var root := AfterOps(s, ops, slots, v).root;
      if Appends(p, ops[n-1], slots) && root.Some? {
        LaterInvisible(root.value, p.side, LeafOf(p.root, ops[n-1].key).value, Entry(n, ops[n-1].val), v);
      }
    }
  }

  lemma {:induction false} AfterSeen(s: World, ops: seq<Ticket>, slots: nat, n: nat, version: nat)
    requires Initial(s) && n <= |ops| && n <= version
    ensures SeenRoot(AfterOps(s, ops, slots, n).root, AfterOps(s, ops, slots, n).side, version) == InPlace(SeenRoot(s.root, s.side, 0), ops, n)
  {
    hide Step, SeenRoot, InsertRoot;
    if n == 0 {
      NoHistories(s, version);
    } else {
      AfterSeen(s, ops, slots, n - 1, version);
      AfterGood(s, ops, slots, n - 1);
      StepIsInsert(AfterOps(s, ops, slots, n - 1), n - 1, ops[n-1], slots, version);
    }
  }

  lemma NoHistories(s: World, version: nat)
    requires Initial(s)
    ensures SeenRoot(s.root, s.side, version) == SeenRoot(s.root, s.side, 0)
  {
    if s.root.Some? {
      SameSeen(s.root.value, version);
    }
  }

  lemma {:induction false} SameSeen(t: Node, version: nat)
    ensures Seen(t, map[], version) == Seen(t, map[], 0)
    decreases t
  {
    if t.Branch? {
      forall i | 0 <= i < |t.chs| ensures SeenAll(t.chs, map[], version)[i] == SeenAll(t.chs, map[], 0)[i] {
        SameSeen(t.chs[i], version);
      }
    }
  }

  lemma {:induction false} InPlaceFinds(r: Option<Radix>, ops: seq<Ticket>, n: nat, u: Word)
    requires WfRoot(r) && n <= |ops|
    ensures WfRoot(InPlace(r, ops, n)) && FindRoot(InPlace(r, ops, n), u) == Model(r, ops, n, u)
  {
    hide InsertRoot, FindRoot, WfRoot;
    if n > 0 {
      InPlaceFinds(r, ops, n - 1, u);
      RootOk(InPlace(r, ops, n - 1), ops[n-1].key, ops[n-1].val, u);
    }
  }

  /** Snapshot isolation: the root of version v, read at v, answers every
      lookup as tickets 1..v applied in order, at any later time. */
  lemma SnapshotStable(s: World, ops: seq<Ticket>, slots: nat, v: nat, n: nat, u: Word)
    requires Initial(s) && v <= n <= |ops|
    ensures FindRoot(SeenRoot(AfterOps(s, ops, slots, v).root, AfterOps(s, ops, slots, n).side, v), u)
            == Model(SeenRoot(s.root, s.side, 0), ops, v, u)
  {
    hide FindRoot, Seen, InPlace, Model, AfterOps;
    SnapshotIsInPlace(s, ops, slots, v, n);
    InPlaceFinds(SeenRoot(s.root, s.side, 0), ops, v, u);
  }

  /** The nodes a ticket replaces are exactly those its tree no longer has. */
  lemma TicketRetires(s: World, ops: seq<Ticket>, slots: nat, v: nat, x: Id)
    requires Initial(s) && 0 < v <= |ops|
    ensures var p, q := AfterOps(s, ops, slots, v - 1), AfterOps(s, ops, slots, v);
            var before := if p.root.Some? then Ids(p.root.value) else {};
            var after := if q.root.Some? then Ids(q.root.value) else {};
            var path := if p.root.Some? && !Appends(p, ops[v-1], slots) then Path(p.root.value, 0, ops[v-1].key) else [];
            x in before - after <==> x in path
  {
    hide Cow, Shaped, Distinct, Path, Ids;
    var p := AfterOps(s, ops, slots, v - 1);
    AfterGood(s, ops, slots, v - 1);
    BelowNext(p, v - 1);
    if p.root.Some? && !Appends(p, ops[v-1], slots) {
      CowShares(p.root.value, p.side, v, [], ops[v-1].key, ops[v-1].val);
      PathIn(p.root.value, 0, ops[v-1].key);
    }
  }
}
