/** Which physical nodes an update of a BeTree shares, makes and gives up. */
module BeShares {
  import opened Records
  import opened Nodes
  import opened BeTree
  import opened BeUpdate
  import H = BTreeHistory
  import M = BTreeMergeIds

  /** The nodes replaced along the search path, root first. */
  function Path(t: Node, key: Key): seq<Id>
    decreases t
  {
    [t.id] + if t.Inner? && FindCh(t.keys, key) < |t.chs| then Path(t.chs[FindCh(t.keys, key)], key) else []
  }

  /** The path below a node. */
  function RowPath(keys: seq<Key>, chs: seq<Node>, key: Key): seq<Id> {
    if FindCh(keys, key) < |chs| then Path(chs[FindCh(keys, key)], key) else []
  }

  ghost predicate Formed(t: Node)
    decreases t
  {
    if t.Leaf? then |t.keys| == |t.vals| && Sorted(t.keys)
    else |t.chs| == |t.keys| + 1 && Sorted(t.keys) && forall i :: 0 <= i < |t.chs| ==> Formed(t.chs[i])
  }

  ghost predicate RowFormed(keys: seq<Key>, chs: seq<Node>) {
    |chs| == |keys| + 1 && Sorted(keys) && forall i :: 0 <= i < |chs| ==> Formed(chs[i])
  }

  lemma {:induction false} OrderedFormed(t: Node, side: Side, lo: nat, hi: nat)
    requires Ordered(t, side, lo, hi)
    ensures Formed(t)
    decreases t
  {
    hide RowOk, Sorted;
    if t.Inner? {
      InnerRow(t, side, lo, hi);
      RowFacts(t.keys, t.chs, side, lo, hi, 0);
      forall i | 0 <= i < |t.chs| ensures Formed(t.chs[i]) {
        RowFacts(t.keys, t.chs, side, lo, hi, i);
        OrderedFormed(t.chs[i], side, LoAt(t.keys, lo, i), HiAt(t.keys, hi, i));
      }
    }
  }

  /** No node of the ticket yet. */
  ghost predicate Old(ids: set<Id>, ticket: nat) {
    forall x :: x in ids ==> !(x.New? && x.ticket == ticket)
  }

  predicate Fresh(x: Id, ticket: nat, stage: nat) {
    x.New? && x.ticket == ticket && x.stage >= stage
  }

  /** All nodes but those given up, and new ones from a stage on. */
  ghost predicate Shares(ids: set<Id>, was: set<Id>, gone: set<Id>, ticket: nat, stage: nat) {
    && gone <= was && was - gone <= ids
    && forall x :: x in ids ==> x in was - gone || Fresh(x, ticket, stage)
  }

  function RunNodes(run: Run): seq<Node> {
    match run case One(t) => [t] case Two(left, _, right) => [left, right]
  }

  // ---- neighbours -----------------------------------------------------------

  lemma AllIdsOne(t: Node)
    ensures AllIds([t]) == Ids(t) && (AllDistinct([t]) <==> Distinct(t))
  {
    hide Ids, Distinct;
    assert [t][0] == t;
    forall x | x in Ids(t) ensures x in AllIds([t]) {
      assert x in Ids([t][0]);
    }
  }

  lemma AllIdsTwo(a: Node, b: Node)
    ensures AllIds([a, b]) == Ids(a) + Ids(b)
    ensures AllDistinct([a, b]) <==> Distinct(a) && Distinct(b) && Ids(a) !! Ids(b)
  {
    hide Ids, Distinct, AllIds, AllDistinct;
    assert [a, b] == [a] + [b];
    JoinIds([a], [b]);
    AllIdsOne(a);
    AllIdsOne(b);
  }

  lemma OldSub(a: set<Id>, b: set<Id>, ticket: nat)
    requires Old(b, ticket) && a <= b
    ensures Old(a, ticket)
  {
  }

  /** One child replaced by one or two nodes. */
  lemma SpliceShares(keys: seq<Key>, chs: seq<Node>, i: nat, run: Run, gone: set<Id>, ticket: nat, stage: nat)
    requires i < |chs| && AllDistinct(chs) && Old(AllIds(chs), ticket)
    requires AllDistinct(RunNodes(run)) && Shares(AllIds(RunNodes(run)), Ids(chs[i]), gone, ticket, stage)
    ensures AllDistinct(SpliceKids(chs, i, run)) && Shares(AllIds(SpliceKids(chs, i, run)), AllIds(chs), gone, ticket, stage)
  {
    hide Ids, Distinct, AllIds, AllDistinct;
    var a, b, ts := chs[..i], chs[i+1..], RunNodes(run);
    assert chs == a + ([chs[i]] + b);
    assert SpliceKids(chs, i, run) == a + (ts + b);
    JoinIds([chs[i]], b);
    JoinIds(a, [chs[i]] + b);
    AllIdsOne(chs[i]);
    JoinIds(ts, b);
    JoinIds(a, ts + b);
  }

  /** A new node over children that share. */
  lemma NodeShares(t: Node, u: Node, was: set<Id>, gone: set<Id>, ticket: nat, stage: nat)
    requires t.Inner? && u.Inner? && u.id.New? && u.id.ticket == ticket && u.id.stage == stage
    requires Old({t.id} + was, ticket) && t.id !in was
    requires AllDistinct(u.chs) && Shares(AllIds(u.chs), was, gone, ticket, stage + 1)
    ensures Distinct(u) && Shares(Ids(u), {t.id} + was, {t.id} + gone, ticket, stage)
  {
    hide AllIds, AllDistinct;
  }

  lemma NodeIds(t: Node)
    requires t.Inner?
    ensures Ids(t) == {t.id} + AllIds(t.chs) && (Distinct(t) <==> t.id !in AllIds(t.chs) && AllDistinct(t.chs))
  {
  }

  lemma PathSets(t: Node, key: Key)
    requires t.Inner?
    ensures H.Elements(Path(t, key)) == {t.id} + H.Elements(RowPath(t.keys, t.chs, key))
  {
    var rest := RowPath(t.keys, t.chs, key);
    assert Path(t, key) == [t.id] + rest;
  }

  lemma LeafSets(t: Node, key: Key)
    requires t.Leaf?
    ensures Ids(t) == {t.id} && H.Elements(Path(t, key)) == {t.id} && Distinct(t)
  {
    assert Path(t, key) == [t.id];
  }

  // ---- below the boundary ---------------------------------------------------

  lemma LeavesShare(t: Node, side: Side, r: Request, stage: nat)
    requires t.Leaf? && |t.keys| == |t.vals|
    ensures var ts := RunNodes(LeafCopies(t, side, r, stage));
            && AllDistinct(ts) && Shares(AllIds(ts), Ids(t), H.Elements(Path(t, r.key)), r.ticket, stage)
            && New(r.ticket, stage, Root) !in AllIds(ts)
  {
    hide View, Ascending, AllIds, AllDistinct;
    LeafSets(t, r.key);
    var run := LeafCopies(t, side, r, stage);
    match run {
      case One(u) =>
        LeafSets(u, r.key);
        AllIdsOne(u);
      case Two(a, _, b) =>
        LeafSets(a, r.key);
        LeafSets(b, r.key);
        AllIdsTwo(a, b);
    }
  }

  lemma {:induction false} DescendShares(keys: seq<Key>, chs: seq<Node>, side: Side, r: Request, stage: nat)
    requires RowFormed(keys, chs) && AllDistinct(chs) && Old(AllIds(chs), r.ticket)
    ensures var d := Descend(keys, chs, side, r, stage);
            AllDistinct(d.1) && Shares(AllIds(d.1), AllIds(chs), H.Elements(RowPath(keys, chs, r.key)), r.ticket, stage)
    decreases chs, 0
  {
    hide Formed, Ids, AllIds, Distinct, AllDistinct, Replace, SpliceKids, Shares, Path, Sorted;
    var i := FindCh(keys, r.key);
    KidOf(chs, i, r.ticket);
    ReplaceShares(chs[i], side, r, stage);
    SpliceShares(keys, chs, i, Replace(chs[i], side, r, stage), H.Elements(Path(chs[i], r.key)), r.ticket, stage);
  }

  lemma KidOf(chs: seq<Node>, i: nat, ticket: nat)
    requires i < |chs| && AllDistinct(chs) && Old(AllIds(chs), ticket)
    ensures Distinct(chs[i]) && Old(Ids(chs[i]), ticket) && Ids(chs[i]) <= AllIds(chs)
  {
    hide Ids, Distinct;
    ChildIds(chs, i);
  }

  lemma {:induction false} ReplaceShares(t: Node, side: Side, r: Request, stage: nat)
    requires Formed(t) && Distinct(t) && Old(Ids(t), r.ticket)
    ensures var ts := RunNodes(Replace(t, side, r, stage));
            && AllDistinct(ts) && Shares(AllIds(ts), Ids(t), H.Elements(Path(t, r.key)), r.ticket, stage)
            && New(r.ticket, stage, Root) !in AllIds(ts)
    decreases t, 2
  {
    hide Ids, AllIds, Distinct, AllDistinct, LeafCopies, Halves, Descend, Path, Shares, Sorted;
    if t.Leaf? {
      LeavesShare(t, side, r, stage);
    } else if |t.keys| == MAX_KEYS {
      HalvesShare(t, side, r, stage);
    } else {
      NodeIds(t);
      PathSets(t, r.key);
      OldSub(AllIds(t.chs), Ids(t), r.ticket);
      DescendShares(t.keys, t.chs, side, r, stage + 1);
      var u := Replace(t, side, r, stage).t;
      NodeShares(t, u, AllIds(t.chs), H.Elements(RowPath(t.keys, t.chs, r.key)), r.ticket, stage);
      AllIdsOne(u);
      OnlyNode(t, u, AllIds(t.chs), H.Elements(RowPath(t.keys, t.chs, r.key)), r.ticket, stage);
    }
  }

  /** A new node's own name is the only one of its stage. */
  lemma OnlyNode(t: Node, u: Node, was: set<Id>, gone: set<Id>, ticket: nat, stage: nat)
    requires u.Inner? && u.id == New(ticket, stage, WholeNode) && Shares(AllIds(u.chs), was, gone, ticket, stage + 1) && Old(was, ticket)
    ensures New(ticket, stage, Root) !in Ids(u)
  {
    hide AllIds;
  }

  lemma HalfPath(keys: seq<Key>, chs: seq<Node>, key: Key)
    requires Sorted(keys) && |keys| == MAX_KEYS && |chs| == 2 * B
    ensures RowPath(keys, chs, key) == if key < keys[B-1] then RowPath(keys[..B-1], chs[..B], key) else RowPath(keys[B..], chs[B..], key)
  {
    hide Path;
    if key < keys[B-1] {
      FindChLow(keys, key, B - 1);
    } else {
      FindChHigh(keys, key, B);
    }
  }

  lemma FindChLow(keys: seq<Key>, k: Key, n: nat)
    requires n < |keys| && k < keys[n]
    ensures FindCh(keys, k) == FindCh(keys[..n], k) <= n
  {
    var q := FindCh(keys[..n], k);
    assert forall j :: 0 <= j < q ==> keys[..n][j] == keys[j];
    assert k < keys[q];
  }

  lemma FindChHigh(keys: seq<Key>, k: Key, n: nat)
    requires 0 < n <= |keys| && Sorted(keys) && keys[n-1] <= k
    ensures FindCh(keys, k) == n + FindCh(keys[n..], k)
  {
    var q := FindCh(keys[n..], k);
    assert forall j :: 0 <= j < n ==> keys[j] <= keys[n-1];
    assert forall j :: 0 <= j < q ==> keys[n..][j] == keys[n + j];
    assert q < |keys| - n ==> k < keys[n + q];
  }

  lemma {:induction false} HalvesShare(t: Node, side: Side, r: Request, stage: nat)
    requires Formed(t) && Distinct(t) && Old(Ids(t), r.ticket) && t.Inner? && |t.keys| == MAX_KEYS
    ensures var ts := RunNodes(Halves(t, side, r, stage));
            && AllDistinct(ts) && Shares(AllIds(ts), Ids(t), H.Elements(Path(t, r.key)), r.ticket, stage)
            && New(r.ticket, stage, Root) !in AllIds(ts)
    decreases t, 1
  {
    hide Ids, AllIds, Distinct, AllDistinct, Descend, Path, Shares, Sorted, RowPath;
    NodeIds(t);
    PathSets(t, r.key);
    HalfPath(t.keys, t.chs, r.key);
    var a, b := t.chs[..B], t.chs[B..];
    assert t.chs == a + b;
    JoinIds(a, b);
    OldSub(AllIds(a), Ids(t), r.ticket);
    OldSub(AllIds(b), Ids(t), r.ticket);
    HalvesFormed(t);
    var run := Halves(t, side, r, stage);
    if r.key < t.keys[B-1] {
      DescendShares(t.keys[..B-1], a, side, r, stage + 1);
      HalvesJoin(t, run.left, run.right, AllIds(a), AllIds(b), H.Elements(RowPath(t.keys, t.chs, r.key)), true, r.ticket, stage);
    } else {
      DescendShares(t.keys[B..], b, side, r, stage + 1);
      HalvesJoin(t, run.left, run.right, AllIds(a), AllIds(b), H.Elements(RowPath(t.keys, t.chs, r.key)), false, r.ticket, stage);
    }
    AllIdsTwo(run.left, run.right);
  }

  lemma HalvesFormed(t: Node)
    requires Formed(t) && t.Inner? && |t.keys| == MAX_KEYS
    ensures RowFormed(t.keys[..B-1], t.chs[..B]) && RowFormed(t.keys[B..], t.chs[B..])
  {
    hide Formed;
    FormedRow(t);
  }

  lemma FormedRow(t: Node)
    requires Formed(t) && t.Inner?
    ensures RowFormed(t.keys, t.chs)
  {
  }

  /** Two new nodes over the two halves of a node's children, one half changed;
      an unchanged half shares all it was. */
  lemma HalvesJoin(t: Node, u: Node, w: Node, a: set<Id>, b: set<Id>, gone: set<Id>, low: bool, ticket: nat, stage: nat)
    requires t.Inner? && u.Inner? && w.Inner? && u.id == New(ticket, stage, LeftHalf) && w.id == New(ticket, stage, RightHalf)
    requires Old({t.id} + (a + b), ticket) && t.id !in a + b && a !! b && AllDistinct(u.chs) && AllDistinct(w.chs)
    requires if low then Shares(AllIds(u.chs), a, gone, ticket, stage + 1) && AllIds(w.chs) == b
             else AllIds(u.chs) == a && Shares(AllIds(w.chs), b, gone, ticket, stage + 1)
    ensures Distinct(u) && Distinct(w) && Ids(u) !! Ids(w)
    ensures Shares(Ids(u) + Ids(w), {t.id} + (a + b), {t.id} + gone, ticket, stage)
    ensures New(ticket, stage, Root) !in Ids(u) + Ids(w)
  {
    hide AllIds, AllDistinct, Ids, Distinct;
    NodeIds(u);
    NodeIds(w);
  }

  // ---- the whole tree -------------------------------------------------------

  lemma RaisedShares(t: Node, run: Run, r: Request, stage: nat, gone: set<Id>)
    requires Old(Ids(t), r.ticket) && AllDistinct(RunNodes(run))
    requires Shares(AllIds(RunNodes(run)), Ids(t), gone, r.ticket, stage) && New(r.ticket, stage, Root) !in AllIds(RunNodes(run))
    ensures var u := Raised(t, run, r, stage);
            Distinct(u) && Shares(Ids(u), Ids(t), gone, r.ticket, stage)
  {
    hide Ids, AllIds, Distinct, AllDistinct;
    var u := Raised(t, run, r, stage);
    match run {
      case One(w) => AllIdsOne(w);
      case Two(a, _, b) =>
        assert u.chs == RunNodes(run);
        NodeIds(u);
    }
  }

  lemma ChildStored(t: Node, u: Node, w: Node, i: nat, gone: set<Id>, ticket: nat, stage: nat)
    requires t.Inner? && u.Inner? && i < |t.chs| && u.id == New(ticket, stage, WholeNode) && u.chs == t.chs[i := w]
    requires Distinct(t) && Old(Ids(t), ticket) && Distinct(w) && Shares(Ids(w), Ids(t.chs[i]), gone, ticket, stage + 1)
    ensures Distinct(u) && Shares(Ids(u), Ids(t), {t.id} + gone, ticket, stage)
  {
    hide Ids, AllIds, Distinct, AllDistinct, Shares;
    NodeIds(t);
    OldSub(AllIds(t.chs), Ids(t), ticket);
    AllIdsOne(w);
    SpliceShares([], t.chs, i, One(w), gone, ticket, stage + 1);
    assert SpliceKids(t.chs, i, One(w)) == u.chs;
    NodeShares(t, u, AllIds(t.chs), gone, ticket, stage);
  }

  /** Retiring an update is exact: the new tree has every node of the old one but
      the search path, all its other nodes are new, none occurs twice. */
  lemma {:induction false} UpdateShares(t: Node, side: Side, r: Request, stage: nat)
    requires Formed(t) && Distinct(t) && Old(Ids(t), r.ticket)
    ensures var u := Update(t, side, r, stage).t;
            Distinct(u) && Shares(Ids(u), Ids(t), H.Elements(Path(t, r.key)), r.ticket, stage)
    decreases t
  {
    hide Ids, AllIds, Distinct, AllDistinct, LeafCopies, Replace, Raised, Shares, Sorted;
    if t.Leaf? {
      LeavesShare(t, side, r, stage);
      LeafRoot(t, side, r, stage);
    } else {
      NodeIds(t);
      OldSub(AllIds(t.chs), Ids(t), r.ticket);
      var i := FindCh(t.keys, r.key);
      KidOf(t.chs, i, r.ticket);
      PathSets(t, r.key);
      var w;
      if t.kind == Boundary {
        ReplaceShares(t.chs[i], side, r, stage + 1);
        RaisedShares(t.chs[i], Replace(t.chs[i], side, r, stage + 1), r, stage + 1, H.Elements(Path(t.chs[i], r.key)));
        w := Raised(t.chs[i], Replace(t.chs[i], side, r, stage + 1), r, stage + 1);
      } else {
        UpdateShares(t.chs[i], side, r, stage + 1);
        w := Update(t.chs[i], side, r, stage + 1).t;
      }
      ChildStored(t, Update(t, side, r, stage).t, w, i, H.Elements(Path(t.chs[i], r.key)), r.ticket, stage);
    }
  }

  lemma LeafRoot(t: Node, side: Side, r: Request, stage: nat)
    requires t.Leaf? && Old(Ids(t), r.ticket)
    requires var ts := RunNodes(LeafCopies(t, side, r, stage));
             && AllDistinct(ts) && Shares(AllIds(ts), Ids(t), H.Elements(Path(t, r.key)), r.ticket, stage)
             && New(r.ticket, stage, Root) !in AllIds(ts)
    ensures var u := Update(t, side, r, stage).t;
            Distinct(u) && Shares(Ids(u), Ids(t), H.Elements(Path(t, r.key)), r.ticket, stage)
  {
    hide Ids, AllIds, Distinct, AllDistinct, LeafCopies, Path;
    var u := Update(t, side, r, stage).t;
    match LeafCopies(t, side, r, stage) {
      case One(w) => AllIdsOne(w);
      case Two(a, _, b) =>
        assert u.chs == RunNodes(LeafCopies(t, side, r, stage));
        NodeIds(u);
    }
  }

  /** The path names no node twice. */
  lemma {:induction false} PathOnce(t: Node, key: Key)
    requires Distinct(t)
    ensures M.Once(Path(t, key)) && H.Elements(Path(t, key)) <= Ids(t)
    decreases t
  {
    hide AllIds, AllDistinct;
    if t.Inner? {
      PathSets(t, key);
      var i := FindCh(t.keys, key);
      if i < |t.chs| {
        KidIn(t.chs, i);
        PathOnce(t.chs[i], key);
        M.LastOnce(t.id);
        M.Appended([t.id], Path(t.chs[i], key));
      }
    }
  }

  lemma KidIn(chs: seq<Node>, i: nat)
    requires i < |chs| && AllDistinct(chs)
    ensures Distinct(chs[i]) && Ids(chs[i]) <= AllIds(chs)
  {
    hide Ids, Distinct;
    ChildIds(chs, i);
  }
}
