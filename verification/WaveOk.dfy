/** A wave equals its updates applied one at a time. */
module WaveOk {
  import opened Options
  import opened Records
  import opened Nodes
  import opened BTree
  import opened BTreeCow
  import opened BTreeHistory
  import opened BTreeMerge
  import opened BTreeMergeOk
  import opened BTreeMergeIds
  import opened WaveRun
  import opened WaveExec
  import P = WavePlan
  import Scan = BTreeScan

  /** The value a key has after the updates of [first, p). */
  function Latest(ops: seq<P.Op>, first: nat, p: nat, k: Key, prior: Option<Val>): Option<Val>
    requires first <= p <= |ops|
    decreases p
  {
    if p == first then prior
    else if ops[p-1].key == k then Some(ops[p-1].value)
    else Latest(ops, first, p - 1, k, prior)
  }

  /** A published tree of version n, and a batch that continues it. */
  ghost predicate Start(c: Conf, h: nat, n: nat, limit: nat) {
    && Good(World(c.tree, h, c.side), n, limit)
    && c.slots <= MAX_SLOTS
    && (forall p :: c.first <= p < |c.ops| ==> c.ops[p].ticket == n + 1 + (p - c.first) && c.ops[p].key < limit)
  }

  // ---- ticket order ---------------------------------------------------------

  /** The sidecars once the updates before p have run. */
  function SideAt(c: Conf, end: nat, p: nat): Side
    requires c.first <= end <= |c.ops|
  {
    SideOf(c, end, All(c.first, p))
  }

  lemma InTicketOrder(c: Conf, end: nat, p: nat)
    requires c.first <= p <= end <= |c.ops|
    ensures InOrder(c, end, All(c.first, p))
    ensures p < end ==> Next(c, end, All(c.first, p), p)
    ensures All(c.first, p + 1) == All(c.first, p) + {p}
  {
    var a, b := All(c.first, p), All(c.first, p + 1);
    assert forall q :: q in a <==> c.first <= q < p;
    assert forall q :: q in b <==> c.first <= q < p + 1;
    assert b == a + {p};
  }

  lemma SideFirst(c: Conf, end: nat)
    requires c.Planned(end)
    ensures SideAt(c, end, c.first) == c.side
  {
    hide P.Fits;
    assert forall q: nat :: q !in All(c.first, c.first);
    assert All(c.first, c.first) == {};
    StartSettled(c, end);
    StartSide(c, end);
  }

  lemma StartSide(c: Conf, end: nat)
    requires c.first <= end <= |c.ops| && Settled(c, end, Run(c.side, {}, map[], false))
    ensures SideOf(c, end, {}) == c.side
  {
    hide SideOf, InOrder;
  }

  lemma SideNext(c: Conf, end: nat, p: nat)
    requires c.Planned(end) && c.first <= p < end
    ensures SideAt(c, end, p + 1)
            == if c.Replaces(p) then SideAt(c, end, p) else Append(SideAt(c, end, p), c.LeafAt(p), c.SlotFor(p))
    ensures !c.Replaces(p) ==> |SlotsAt(SideAt(c, end, p), c.LeafAt(p))| < c.slots
  {
    hide SideOf, InOrder, Next, Conf.Replaces, Append, All, Conf.Planned;
    PlannedIn(c, end);
    InTicketOrder(c, end, p);
    SideStep(c, end, All(c.first, p), p);
    CapacityKept(c, end, All(c.first, p), p);
  }

  /** An append of the wave is the sequential step of its ticket. */
  lemma AppendIsStep(c: Conf, h: nat, end: nat, p: nat)
    requires c.Planned(end) && c.first <= p < end && !c.Replaces(p)
    ensures var op := c.ops[p];
            World(c.tree, h, SideAt(c, end, p + 1))
            == Step(World(c.tree, h, SideAt(c, end, p)), op.ticket, Ticket(op.key, op.value, true), c.slots)
  {
    hide SideOf, Conf.Replaces, Append, Conf.Planned, Cow, CowHeight;
    SideNext(c, end, p);
  }

  lemma {:induction false} SidesGood(c: Conf, h: nat, end: nat, p: nat, n: nat, limit: nat)
    requires c.Planned(end) && c.first <= p <= end && Start(c, h, n, limit)
    ensures Good(World(c.tree, h, SideAt(c, end, p)), n + (p - c.first), limit)
    decreases p
  {
    hide SideAt, Conf.Replaces, Step, Conf.Planned;
    if p == c.first {
      SideFirst(c, end);
    } else {
      var q := p - 1;
      PlannedIn(c, end);
      SidesGood(c, h, end, q, n, limit);
      SideNext(c, end, q);
      if c.Replaces(q) {
        GoodLater(World(c.tree, h, SideAt(c, end, q)), n + (q - c.first), limit);
      } else {
        AppendIsStep(c, h, end, q);
        StepGood(World(c.tree, h, SideAt(c, end, q)), n + (q - c.first), Ticket(c.ops[q].key, c.ops[q].value, true), c.slots, limit);
      }
    }
  }

  lemma GoodLater(w: World, n: nat, limit: nat)
    requires Good(w, n, limit)
    ensures Good(w, n + 1, limit)
  {
  }

  /** No update of [first, p) on the key replaced its leaf. */
  ghost predicate OnlyAppends(c: Conf, p: nat, k: Key)
    requires c.first <= p <= |c.ops|
  {
    forall q :: c.first <= q < p && c.ops[q].key == k ==> !c.Replaces(q)
  }

  lemma {:induction false} AppendsSeen(c: Conf, h: nat, end: nat, p: nat, n: nat, limit: nat, version: nat, k: Key)
    requires c.Planned(end) && c.first <= p <= end && Start(c, h, n, limit) && n + (end - c.first) <= version && k < limit
    requires OnlyAppends(c, p, k)
    ensures Get(c.tree, SideAt(c, end, p), version, k) == Latest(c.ops, c.first, p, k, Get(c.tree, c.side, version, k))
    decreases p
  {
    hide SideAt, Step, Conf.Planned, Get, Good, Conf.Replaces;
    if p == c.first {
      SideFirst(c, end);
    } else {
      var q := p - 1;
      PlannedIn(c, end);
      AppendsSeen(c, h, end, q, n, limit, version, k);
      SidesGood(c, h, end, q, n, limit);
      SideNext(c, end, q);
      if !c.Replaces(q) {
        AppendIsStep(c, h, end, q);
        StepGet(World(c.tree, h, SideAt(c, end, q)), n + (q - c.first), Ticket(c.ops[q].key, c.ops[q].value, true), c.slots, limit, version, k);
      }
    }
  }

  /** The update that replaces a leaf is the wave's last on its key. */
  lemma {:induction false} ReplacementLatest(c: Conf, end: nat, q: nat, p: nat, prior: Option<Val>)
    requires c.Planned(end) && c.first <= q < p <= end && c.Replaces(q)
    ensures Latest(c.ops, c.first, p, c.ops[q].key, prior) == Some(c.ops[q].value)
    decreases p
  {
    hide Conf.Replaces, Conf.Planned;
    if q < p - 1 {
      ReplacementLatest(c, end, q, p - 1, prior);
      PlannedIn(c, end);
      if c.ops[p-1].key == c.ops[q].key {
        ReplacesLast(c, end, q, p - 1);
      }
    }
  }

  lemma PlannedIn(c: Conf, end: nat)
    requires c.Planned(end)
    ensures c.first <= end <= |c.ops|
  {
  }

  // ---- the replacements -----------------------------------------------------

  lemma AtReplacing(c: Conf, end: nat, cs: seq<Change>, at: seq<nat>, j: nat)
    requires Carries(c, end, cs, at) && j < |cs|
    ensures |at| == |cs| && c.first <= at[j] < end && c.Replaces(at[j]) && cs[j] == ChangeAt(c, at[j], SideAt(c, end, at[j]))
  {
    hide ChangeAt, SideOf, Conf.Replaces;
    assert at[j] in multiset(at);
    assert at[j] in Replacing(c, end);
  }

  lemma AtOnce(c: Conf, end: nat, cs: seq<Change>, at: seq<nat>, i: nat, j: nat)
    requires Carries(c, end, cs, at) && i < j < |cs|
    ensures at[i] != at[j]
  {
    hide Aligned, Replacing;
    AlignedSize(c, end, cs, at);
    assert multiset(Replacing(c, end))[at[i]] <= 1;
    if at[i] == at[j] {
      TwiceCounted(at, i, j);
    }
  }

  lemma TwiceCounted(s: seq<nat>, i: nat, j: nat)
    requires i < j < |s| && s[i] == s[j]
    ensures multiset(s)[s[i]] >= 2
  {
    assert s == s[..j] + s[j..];
    assert s[..j][i] == s[i] && s[j..][0] == s[i];
    assert s[i] in s[..j] && s[i] in s[j..];
  }

  lemma AtCovers(c: Conf, end: nat, cs: seq<Change>, at: seq<nat>, q: nat) returns (j: nat)
    requires Carries(c, end, cs, at) && c.first <= q < end && c.Replaces(q)
    ensures j < |cs| && at[j] == q
  {
    hide Aligned, Conf.Replaces;
    assert q in Replacing(c, end);
    assert q in multiset(at);
    assert |at| == |cs| by { AlignedSize(c, end, cs, at); }
    j :| 0 <= j < |at| && at[j] == q;
  }

  lemma AlignedSize(c: Conf, end: nat, cs: seq<Change>, at: seq<nat>)
    requires c.first <= end <= |c.ops| && Aligned(c, end, cs, at)
    ensures |at| == |cs|
  {
  }

  /** Nothing more is appended to a replaced leaf. */
  lemma SlotsFinal(c: Conf, end: nat, q: nat)
    requires c.Planned(end) && c.first <= q < end && c.Replaces(q)
    ensures SlotsAt(SideAt(c, end, end), c.LeafAt(q)) == SlotsAt(SideAt(c, end, q), c.LeafAt(q))
  {
    hide Conf.Replaces, Conf.Planned, SideOf, P.Fits;
    PlannedIn(c, end);
    var id := c.LeafAt(q);
    var a, b := All(c.first, end), All(c.first, q);
    SlotsOfSide(c, end, a, id);
    SlotsOfSide(c, end, b, id);
    forall x | q <= x < end && c.LeafAt(x) == id ensures x == q {
      if q < x { ReplacesLast(c, end, q, x); }
    }
    assert forall x :: x in a <==> c.first <= x < end;
    assert forall x :: x in b <==> c.first <= x < q;
    TakenSame(c, q, a, b, id);
    TakenNone(c, q, end, b, id);
    TakenUnchanged(c, end, q, a, id);
  }

  lemma TakenUnchanged(c: Conf, end: nat, q: nat, done: set<nat>, id: Id)
    requires c.first <= q < end <= |c.ops| && c.Replaces(q)
    requires forall x :: q <= x < end && c.LeafAt(x) == id ==> x == q
    ensures Taken(c, end, done, id) == Taken(c, q, done, id)
  {
    hide Conf.Replaces;
    TakenRest(c, q + 1, end, done, id);
  }

  lemma {:induction false} TakenRest(c: Conf, p: nat, q: nat, done: set<nat>, id: Id)
    requires c.first <= p <= q <= |c.ops| && forall x :: p <= x < q ==> c.LeafAt(x) != id
    ensures Taken(c, q, done, id) == Taken(c, p, done, id)
    decreases q
  {
    hide Conf.Replaces;
    if p < q {
      TakenRest(c, p, q - 1, done, id);
    }
  }

  /** A replacement is current for the final sidecars. */
  lemma ChangeReady(c: Conf, h: nat, end: nat, q: nat, n: nat, limit: nat)
    requires c.Planned(end) && c.first <= q < end && c.Replaces(q) && Start(c, h, n, limit)
    ensures var x := ChangeAt(c, q, SideAt(c, end, q));
            ChangeOk(x, SideAt(c, end, end)) && x.Shaped() && x.leaf == Route(c.tree, x.route)
            && x.route == c.ops[q].key < limit && x.ticket == n + 1 + (q - c.first) && x.val == c.ops[q].value
  {
    hide SideAt, Conf.Replaces, Conf.Planned, ReplaceLeaf, Wf;
    PlannedIn(c, end);
    var op := c.ops[q];
    var leaf := Route(c.tree, op.key);
    SidesGood(c, h, end, q, n, limit);
    SidesGood(c, h, end, end, n, limit);
    LeafShape(c.tree, c.side, limit, h, op.key);
    SlotsFinal(c, end, q);
    SameReplacement(leaf, SideAt(c, end, q), SideAt(c, end, end), op);
    NoNewSide(c, end, n, limit, op.ticket);
  }

  lemma LeafShape(t: Tree, side: Side, limit: nat, h: nat, k: Key)
    requires Wf(t, side, 0, limit, h)
    ensures Route(t, k).Leaf? && |Route(t, k).keys| == |Route(t, k).vals|
  {
    RouteOk(t, side, 0, limit, h, k);
  }

  lemma {:induction false} RouteOk(t: Tree, side: Side, lo: nat, hi: nat, h: nat, k: Key)
    requires Wf(t, side, lo, hi, h)
    ensures Route(t, k).Leaf? && |Route(t, k).keys| == |Route(t, k).vals|
    decreases t
  {
    if t.Node? {
      var i := FindCh(t.kids.keys, k);
      RouteOk(t.kids.chs[i], side, LoAt(t.kids.keys, lo, i), HiAt(t.kids.keys, hi, i), h - 1, k);
    }
  }

  lemma NoNewSide(c: Conf, end: nat, n: nat, limit: nat, ticket: nat)
    requires c.first <= end <= |c.ops| && n < ticket
    requires (forall x :: x in c.side ==> x.Version() <= n) && (forall x :: x in Ids(c.tree) ==> x.Version() <= n)
    ensures forall x :: x in SideAt(c, end, end) ==> x.Version() <= n && !(x.New? && x.ticket == ticket)
  {
    hide Conf.Replaces, Taken, Ids, Route;
    forall x | x in SideAt(c, end, end) ensures x.Version() <= n {
      assert x in c.side.Keys + Touched(c, end, All(c.first, end));
      if x !in c.side {
        var p :| p in All(c.first, end) && c.first <= p < end && !c.Replaces(p) && c.LeafAt(p) == x;
        RouteIn(c.tree, c.ops[p].key);
      }
    }
  }

  // ---- the merge of a wave --------------------------------------------------

  /** The replacing leaves carry their ticket and a leaf's role. */
  ghost predicate LeafIds(r: Seg, ticket: nat) {
    SegDistinct(r) && forall x :: x in SegIds(r) ==> x.New? && x.ticket == ticket && x.role != WholeNode
  }

  lemma RunLeafIds(keys: seq<Key>, vals: seq<Val>, ticket: nat)
    requires |keys| == |vals|
    ensures LeafIds(RunOf(keys, vals, ticket, 0), ticket)
  {
    var r := RunOf(keys, vals, ticket, 0);
    if |r.chs| == 1 {
      OneIds(r.chs[0]);
      assert r == One(r.chs[0]);
    } else {
      TwoIds(r.chs[0], r.keys[0], r.chs[1]);
      assert r == Two(r.chs[0], r.keys[0], r.chs[1]);
    }
  }

  lemma ReplaceLeafIds(x: Change, side: Side)
    requires x.Prepared(side)
    ensures LeafIds(x.run, x.ticket)
  {
    hide LeafIds, RunOf, LeafView;
    var m := LeafView(x.leaf.keys, x.leaf.vals, SlotsAt(side, x.leaf.id), x.ticket)[x.route := x.val];
    AscendingIn(m.Keys);
    RunLeafIds(Ascending(m.Keys), ValuesOf(m, Ascending(m.Keys)), x.ticket);
  }

  /** What the merge needs to know of a wave's replacements. */
  ghost predicate Mergeable(t: Tree, side: Side, cs: seq<Change>, version: nat, limit: nat) {
    && Ready(cs, side, version) && RoutesIn(cs, 0, |cs|, 0, limit)
    && (forall j :: 0 <= j < |cs| ==> cs[j].leaf == Route(t, cs[j].route))
    && Current(t, cs, 0, |cs|)
    && Separate(cs) && Older(Ids(t), cs, version)
  }

  lemma ChangesReady(c: Conf, h: nat, end: nat, cs: seq<Change>, at: seq<nat>, n: nat, limit: nat)
    requires c.Planned(end) && Start(c, h, n, limit) && Carries(c, end, cs, at) && Ascends(cs) && cs != []
    ensures c.first < end && forall j :: 0 <= j < |cs| ==> n < cs[j].ticket
    ensures Mergeable(c.tree, SideAt(c, end, end), cs, n + (end - c.first), limit)
  {
    hide Conf.Replaces, Conf.Planned, Carries, ChangeOk, ReplaceLeaf, SideAt, SegIds, SegDistinct;
    PlannedIn(c, end);
    var side, version := SideAt(c, end, end), n + (end - c.first);
    forall j | 0 <= j < |cs| ensures ChangeFacts(c, side, cs[j], version, limit) && LeafIds(cs[j].run, cs[j].ticket) && cs[j].ticket > n {
      OneReady(c, h, end, cs, at, j, n, limit);
      OnePrepared(cs[j], side);
      ReplaceLeafIds(cs[j], side);
    }
    forall i, j | 0 <= i < j < |cs| ensures cs[i].ticket != cs[j].ticket && cs[i].leaf.id != cs[j].leaf.id {
      TwoReady(c, h, end, cs, at, i, j, n, limit);
    }
    StartFacts(c, h, n, limit);
    AtReplacing(c, end, cs, at, 0);
    NoNewSide(c, end, n, limit, n + 1);
    NoneOlder(c.tree, cs, n, version);
  }

  ghost predicate ChangeFacts(c: Conf, side: Side, x: Change, version: nat, limit: nat) {
    && ChangeOk(x, side) && x.Shaped() && x.leaf == Route(c.tree, x.route) && x.route < limit && x.ticket <= version
  }

  lemma OnePrepared(x: Change, side: Side)
    requires ChangeOk(x, side)
    ensures x.Prepared(side)
  {
  }

  lemma OneReady(c: Conf, h: nat, end: nat, cs: seq<Change>, at: seq<nat>, j: nat, n: nat, limit: nat)
    requires c.Planned(end) && Start(c, h, n, limit) && Carries(c, end, cs, at) && j < |cs| && c.first <= end
    ensures ChangeFacts(c, SideAt(c, end, end), cs[j], n + (end - c.first), limit) && cs[j].ticket > n
  {
    hide Conf.Replaces, Conf.Planned, Carries, ChangeOk, ReplaceLeaf, SideAt, ChangeAt, Start;
    AtReplacing(c, end, cs, at, j);
    ChangeReady(c, h, end, at[j], n, limit);
  }

  lemma TwoReady(c: Conf, h: nat, end: nat, cs: seq<Change>, at: seq<nat>, i: nat, j: nat, n: nat, limit: nat)
    requires c.Planned(end) && Start(c, h, n, limit) && Carries(c, end, cs, at) && i < j < |cs|
    ensures cs[i].ticket != cs[j].ticket && cs[i].leaf.id != cs[j].leaf.id
  {
    hide Conf.Replaces, Conf.Planned, Carries, ReplaceLeaf, SideAt, Start;
    AtReplacing(c, end, cs, at, i);
    AtReplacing(c, end, cs, at, j);
    AtOnce(c, end, cs, at, i, j);
    StartFacts(c, h, n, limit);
    var p, q := at[i], at[j];
    PlannedIn(c, end);
    assert p != q && c.ops[p].ticket != c.ops[q].ticket;
    if p < q {
      ReplacesLast(c, end, p, q);
    } else {
      ReplacesLast(c, end, q, p);
    }
    assert c.LeafAt(p) == cs[i].leaf.id && c.LeafAt(q) == cs[j].leaf.id;
  }

  lemma StartFacts(c: Conf, h: nat, n: nat, limit: nat)
    requires Start(c, h, n, limit)
    ensures forall p :: c.first <= p < |c.ops| ==> c.ops[p].ticket == n + 1 + (p - c.first) && c.ops[p].key < limit
    ensures (forall x :: x in c.side ==> x.Version() <= n) && (forall x :: x in Ids(c.tree) ==> x.Version() <= n)
  {
    hide Wf, Distinct;
  }

  lemma NoneOlder(t: Tree, cs: seq<Change>, n: nat, version: nat)
    requires n < version && (forall x :: x in Ids(t) ==> x.Version() <= n)
    requires forall j :: 0 <= j < |cs| ==> LeafIds(cs[j].run, cs[j].ticket) && n < cs[j].ticket
    requires forall i, j :: 0 <= i < j < |cs| ==> cs[i].ticket != cs[j].ticket
    ensures Separate(cs) && Older(Ids(t), cs, version)
  {
    hide Ids, SegIds, SegDistinct;
  }

  // ---- one wave -------------------------------------------------------------

  lemma RootOf(m: Merged, version: nat, side: Side, limit: nat, h: nat, k: Key)
    requires 1 <= |m.run.chs| <= 2 && |m.run.chs| == |m.run.keys| + 1 && Fits(m.run, side, 0, limit, h)
    requires SegDistinct(m.run) && New(version, m.next, WholeNode) !in SegIds(m.run)
    ensures var root := if |m.run.chs| == 1 then m.run.chs[0] else Node(New(version, m.next, WholeNode), version, m.run);
            && Wf(root, side, 0, limit, if |m.run.chs| == 1 then h else h + 1) && Distinct(root)
            && Get(root, side, version, k) == SegGet(m.run, side, version, k)
            && Ids(root) == SegIds(m.run) + (if |m.run.chs| == 1 then {} else {New(version, m.next, WholeNode)})
  {
    if |m.run.chs| == 1 {
      var t := m.run.chs[0];
      assert m.run == One(t);
      OneIds(t);
      TwoGet(t, 0, t, side, version, k);
      assert LoAt(m.run.keys, 0, 0) == 0 && HiAt(m.run.keys, limit, 0) == limit;
    } else {
      NodeOver(New(version, m.next, WholeNode), version, m.run, side, 0, limit, h, k);
    }
  }

  lemma {:induction false} WrittenHit(cs: seq<Change>, b: nat, j: nat, prior: Option<Val>)
    requires b <= j < |cs| && forall i :: b <= i < j ==> cs[i].route != cs[j].route
    ensures Written(cs, b, |cs|, cs[j].route, prior) == Some(cs[j].val)
    decreases j - b
  {
    if b < j {
      WrittenHit(cs, b + 1, j, prior);
    }
  }

  /** Changes written over the appended slots give every key its latest value. */
  lemma WrittenLatest(c: Conf, h: nat, end: nat, cs: seq<Change>, at: seq<nat>, n: nat, limit: nat, version: nat, k: Key)
    requires c.Planned(end) && Start(c, h, n, limit) && Carries(c, end, cs, at) && k < limit && n + (end - c.first) <= version
    ensures Written(cs, 0, |cs|, k, Get(c.tree, SideAt(c, end, end), version, k))
            == Latest(c.ops, c.first, end, k, Get(c.tree, c.side, version, k))
  {
    hide Conf.Replaces, Conf.Planned, Carries, SideAt, Start, Latest, Written;
    PlannedIn(c, end);
    var prior := Get(c.tree, SideAt(c, end, end), version, k);
    if OnlyAppends(c, end, k) {
      AppendsSeen(c, h, end, end, n, limit, version, k);
      forall j | 0 <= j < |cs| ensures cs[j].route != k {
        AtReplacing(c, end, cs, at, j);
      }
      WrittenNot(cs, 0, |cs|, k, prior);
    } else {
      var q :| c.first <= q < end && c.ops[q].key == k && c.Replaces(q);
      ReplacementLatest(c, end, q, end, Get(c.tree, c.side, version, k));
      var j := AtCovers(c, end, cs, at, q);
      AtReplacing(c, end, cs, at, j);
      forall i | 0 <= i < j ensures cs[i].route != cs[j].route {
        TwoReady(c, h, end, cs, at, i, j, n, limit);
        SameRouteLeaf(c, end, cs, at, i, j);
      }
      WrittenHit(cs, 0, j, prior);
    }
  }

  lemma SameRouteLeaf(c: Conf, end: nat, cs: seq<Change>, at: seq<nat>, i: nat, j: nat)
    requires Carries(c, end, cs, at) && i < j < |cs| && cs[i].leaf.id != cs[j].leaf.id
    ensures cs[i].route != cs[j].route
  {
    hide Conf.Replaces, Carries, SideAt;
    AtReplacing(c, end, cs, at, i);
    AtReplacing(c, end, cs, at, j);
  }

  /** Publishing a wave that replaces leaves: every key shows its latest value,
      the tree is well-formed, and exactly the nodes no longer in it are
      retired, once each. */
  lemma MergedWave(c: Conf, h: nat, end: nat, cs: seq<Change>, at: seq<nat>, n: nat, limit: nat, k: Key)
    requires c.Planned(end) && Start(c, h, n, limit) && Carries(c, end, cs, at) && Ascends(cs) && cs != [] && k < limit
    ensures c.first < end && AllShaped(cs) && Accepted(c.tree, cs, 0, |cs|)
    ensures var side, version := SideAt(c, end, end), n + (end - c.first);
            var root := MergedRoot(c.tree, cs, version);
            && Good(World(root, MergedHeight(c.tree, h, cs, version), side), version, limit)
            && Get(root, side, version, k) == Latest(c.ops, c.first, end, k, Get(c.tree, c.side, version, k))
            && Once(Replaced(c.tree, cs, 0, |cs|))
            && Elements(Replaced(c.tree, cs, 0, |cs|)) == Ids(c.tree) - Ids(root)
            && (forall x :: x in Ids(root) - Ids(c.tree) ==> x.Version() > n)
  {
    hide Conf.Replaces, Conf.Planned, Carries, SideAt, Start, Latest, Written, Ready, Separate, Older, Current, Exact, Merge, Replaced, Accepted, Get, Wf;
    PlannedIn(c, end);
    ChangesReady(c, h, end, cs, at, n, limit);
    SidesGood(c, h, end, end, n, limit);
    WrittenLatest(c, h, end, cs, at, n, limit, n + (end - c.first), k);
    StartFacts(c, h, n, limit);
    MergeOk(c.tree, h, SideAt(c, end, end), cs, n, n + (end - c.first), limit, k);
  }

  /** The merge on its own. */
  lemma MergeOk(t: Tree, h: nat, side: Side, cs: seq<Change>, n: nat, version: nat, limit: nat, k: Key)
    requires Good(World(t, h, side), version, limit) && Mergeable(t, side, cs, version, limit) && k < limit && cs != []
    requires n < version && (forall x :: x in Ids(t) ==> x.Version() <= n) && (forall j :: 0 <= j < |cs| ==> n < cs[j].ticket)
    ensures AllShaped(cs) && Accepted(t, cs, 0, |cs|)
    ensures var root := MergedRoot(t, cs, version);
            && Good(World(root, MergedHeight(t, h, cs, version), side), version, limit)
            && Get(root, side, version, k) == Written(cs, 0, |cs|, k, Get(t, side, version, k))
            && Once(Replaced(t, cs, 0, |cs|))
            && Elements(Replaced(t, cs, 0, |cs|)) == Ids(t) - Ids(root)
            && (forall x :: x in Ids(root) - Ids(t) ==> x.Version() > n)
  {
    hide Written, Separate, Older, Current, Merge, Replaced, Accepted, Get, Wf, Fits, SegGet, SegIds, SegDistinct, ChangesOk;
    var e := |cs|;
    AcceptedIffCurrent(t, cs, 0, e, side, 0, limit, h);
    MergeApplies(t, cs, 0, e, side, 0, limit, h, version, 0, k);
    MergeExact(t, cs, 0, e, version, 0);
    var m := Merge(t, cs, 0, e, version, 0);
    OneSeen(t, side, version, k);
    MadeNew(t, cs, side, n, version, m.next);
    RootOf(m, version, side, limit, h, k);
    RunIdsSplit(cs, 0, 0, e);
  }

  lemma OneSeen(t: Tree, side: Side, version: nat, k: Key)
    ensures SegGet(One(t), side, version, k) == Get(t, side, version, k)
  {
    TwoGet(t, 0, t, side, version, k);
  }

  /** All made nodes are new, with versions up to the wave's. */
  lemma MadeNew(t: Tree, cs: seq<Change>, side: Side, n: nat, version: nat, next: nat)
    requires Ready(cs, side, version) && Separate(cs) && Older(Ids(t), cs, version)
    requires n < version && forall j :: 0 <= j < |cs| ==> n < cs[j].ticket
    ensures RunIds(cs, 0, |cs|) !! Ids(t) && Inner(version, 0, next) !! Ids(t)
    ensures New(version, next, WholeNode) !in Ids(t) + RunIds(cs, 0, |cs|) + Inner(version, 0, next)
    ensures forall x :: x in RunIds(cs, 0, |cs|) + Inner(version, 0, next) ==> n < x.Version() <= version
  {
    hide Ids, SegIds, SegDistinct, ReplaceLeaf, ChangeOk;
    forall x | x in RunIds(cs, 0, |cs|) ensures n < x.Version() <= version && x != New(version, next, WholeNode) {
      var j :| 0 <= j < |cs| && x in SegIds(cs[j].run);
      OnePrepared(cs[j], side);
      ReplaceLeafIds(cs[j], side);
    }
  }

  /** A wave without replacements shows every key's latest value too. */
  lemma AppendWave(c: Conf, h: nat, end: nat, at: seq<nat>, n: nat, limit: nat, version: nat, k: Key)
    requires c.Planned(end) && Start(c, h, n, limit) && Carries(c, end, [], at) && k < limit && n + (end - c.first) <= version
    ensures Good(World(c.tree, h, SideAt(c, end, end)), n + (end - c.first), limit)
    ensures Get(c.tree, SideAt(c, end, end), version, k) == Latest(c.ops, c.first, end, k, Get(c.tree, c.side, version, k))
  {
    hide Good, Conf.Planned, Carries, SideAt, Start, Latest, Get;
    PlannedIn(c, end);
    SidesGood(c, h, end, end, n, limit);
    WrittenLatest(c, h, end, [], at, n, limit, version, k);
  }

  // ---- readers during a wave ------------------------------------------------

  /** Every leaf has the slots it had, and then slots of later versions only. */
  ghost predicate OnlyLater(a: Side, b: Side, version: nat) {
    forall id: Id :: LaterSlots(SlotsAt(a, id), SlotsAt(b, id), version)
  }

  ghost predicate LaterSlots(a: seq<Slot>, b: seq<Slot>, version: nat) {
    a <= b && forall i :: |a| <= i < |b| ==> version < b[i].version
  }

  lemma {:induction false} TakenNewer(c: Conf, p: nat, done: set<nat>, id: Id, n: nat)
    requires c.first <= p <= |c.ops| && forall q :: c.first <= q < |c.ops| ==> n < c.ops[q].ticket
    ensures forall i :: 0 <= i < |Taken(c, p, done, id)| ==> n < Taken(c, p, done, id)[i].version
    decreases p
  {
    hide Conf.Replaces;
    if c.first < p {
      TakenNewer(c, p - 1, done, id, n);
    }
  }

  /** Whatever has run of a wave, in whatever order. */
  lemma PartialSides(c: Conf, end: nat, done: set<nat>, n: nat, version: nat)
    requires c.first <= end <= |c.ops| && version <= n
    requires forall q :: c.first <= q < |c.ops| ==> n < c.ops[q].ticket
    ensures OnlyLater(c.side, SideOf(c, end, done), version)
  {
    hide Taken, SideOf;
    forall id: Id ensures LaterSlots(SlotsAt(c.side, id), SlotsAt(SideOf(c, end, done), id), version) {
      SlotsOfSide(c, end, done, id);
      TakenNewer(c, end, done, id, n);
    }
  }

  lemma LaterView(keys: seq<Key>, vals: seq<Val>, a: seq<Slot>, b: seq<Slot>, version: nat)
    requires |keys| == |vals| && LaterSlots(a, b, version)
    ensures LeafView(keys, vals, b, version) == LeafView(keys, vals, a, version)
  {
    assert b == a + b[|a|..];
    OverlayPrefix(Base(keys, vals), a, b[|a|..], version);
  }

  lemma {:induction false} GetOlder(t: Tree, a: Side, b: Side, version: nat, k: Key)
    requires OnlyLater(a, b, version)
    ensures Get(t, b, version, k) == Get(t, a, version, k)
    decreases t
  {
    hide OnlyLater, LeafView;
    match t {
      case Leaf(id, _, keys, vals) =>
        if |keys| == |vals| {
          LeafLater(a, b, version, id);
          LaterView(keys, vals, SlotsAt(a, id), SlotsAt(b, id), version);
        }
      case Node(_, _, kids) =>
        var i := FindCh(kids.keys, k);
        if i < |kids.chs| { GetOlder(kids.chs[i], a, b, version, k); }
    }
  }

  lemma LeafLater(a: Side, b: Side, version: nat, id: Id)
    requires OnlyLater(a, b, version)
    ensures LaterSlots(SlotsAt(a, id), SlotsAt(b, id), version)
  {
  }

  lemma {:induction false} EntriesOlder(t: Tree, a: Side, b: Side, version: nat)
    requires OnlyLater(a, b, version)
    ensures Scan.Entries(t, b, version) == Scan.Entries(t, a, version)
    decreases t, 0
  {
    hide OnlyLater, LeafView, Scan.SegEntries;
    match t {
      case Leaf(id, _, keys, vals) =>
        if |keys| == |vals| {
          LeafLater(a, b, version, id);
          LaterView(keys, vals, SlotsAt(a, id), SlotsAt(b, id), version);
        }
      case Node(_, _, kids) => SegEntriesOlder(kids, 0, a, b, version);
    }
  }

  lemma {:induction false} SegEntriesOlder(s: Seg, i: nat, a: Side, b: Side, version: nat)
    requires OnlyLater(a, b, version)
    ensures Scan.SegEntries(s, i, b, version) == Scan.SegEntries(s, i, a, version)
    decreases s, |s.chs| - i
  {
    hide OnlyLater, Scan.Entries;
    if i < |s.chs| {
      EntriesOlder(s.chs[i], a, b, version);
      SegEntriesOlder(s, i + 1, a, b, version);
    }
  }

  /** In every state of a wave, whatever of it has run, in whatever order,
      earlier snapshots of any tree find and list what they did before it. */
  lemma EarlierSnapshots(c: Conf, end: nat, r: Run, h: nat, n: nat, limit: nat, t: Tree, version: nat, k: Key)
    requires c.first <= end <= |c.ops| && Settled(c, end, r) && Start(c, h, n, limit) && version <= n
    ensures Get(t, r.side, version, k) == Get(t, c.side, version, k)
    ensures Scan.Entries(t, r.side, version) == Scan.Entries(t, c.side, version)
  {
    hide SideOf, OnlyLater, Get, Scan.Entries, Start;
    StartFacts(c, h, n, limit);
    PartialSides(c, end, r.done, n, version);
    GetOlder(t, c.side, r.side, version, k);
    EntriesOlder(t, c.side, r.side, version);
  }
}
