/** When a batched merge of a BeTree raises an exception, and which nodes it
    shares, makes and retires. */
module BeMergeIds {
  import opened Records
  import opened Nodes
  import opened BeTree
  import opened BeUpdate
  import opened BeMerge
  import opened BeShares
  import opened BeAppend
  import opened BeMergeOk
  import H = BTreeHistory
  import M = BTreeMergeIds

  // ---- acceptance -----------------------------------------------------------

  /** Every change names the leaf of its route, and no leaf comes twice. */
  ghost predicate Accepted(t: Node, cs: seq<Change>, b: nat, e: nat)
    requires b <= e <= |cs|
  {
    && (forall j :: b <= j < e ==> cs[j].leaf == Route(t, cs[j].route).id)
    && (forall i, j :: b <= i < j < e ==> Route(t, cs[i].route).id != Route(t, cs[j].route).id)
  }

  lemma LeafAccepts(t: Node, cs: seq<Change>, b: nat, e: nat)
    requires t.Leaf? && b < e <= |cs|
    ensures Accepted(t, cs, b, e) <==> e == b + 1 && cs[b].leaf == t.id
  {
    if e > b + 1 { assert Route(t, cs[b].route).id == Route(t, cs[b+1].route).id; }
  }

  lemma SameRoutes(t: Node, u: Node, cs: seq<Change>, b: nat, e: nat)
    requires b <= e <= |cs| && forall j :: b <= j < e ==> Route(t, cs[j].route) == Route(u, cs[j].route)
    ensures Accepted(t, cs, b, e) <==> Accepted(u, cs, b, e)
  {
    hide Route;
  }

  lemma AcceptedSplit(t: Node, cs: seq<Change>, b: nat, m: nat, e: nat)
    requires b <= m <= e <= |cs|
    requires forall i, j :: b <= i < m && m <= j < e ==> Route(t, cs[i].route).id != Route(t, cs[j].route).id
    ensures Accepted(t, cs, b, e) <==> Accepted(t, cs, b, m) && Accepted(t, cs, m, e)
  {
    hide Route;
    if Accepted(t, cs, b, m) && Accepted(t, cs, m, e) {
      forall i, j | b <= i < j < e ensures Route(t, cs[i].route).id != Route(t, cs[j].route).id {
        if i < m <= j { assert Route(t, cs[i].route).id != Route(t, cs[j].route).id; }
      }
    }
  }

  /** Keys of different children lead to different leaves. */
  lemma RoutesApart(t: Node, side: Side, lo: nat, hi: nat, sep: Key, a: Key, c: Key)
    requires t.Inner? && RowOk(t.keys, t.chs, side, lo, hi) && Distinct(t) && sep in t.keys && lo <= a < sep <= c < hi
    ensures Route(t, a).id != Route(t, c).id
  {
    hide Ordered, RowOk, Distinct, Ids;
    RowShape(t.keys, t.chs, side, lo, hi);
    var i, j := FindCh(t.keys, a), FindCh(t.keys, c);
    var p :| 0 <= p < |t.keys| && t.keys[p] == sep;
    assert i <= p && j > p;
    RouteIn(t.chs[i], a);
    RouteIn(t.chs[j], c);
    NodeApart(t, i);
  }

  lemma {:induction false} MergeAccepts(t: Node, cs: seq<Change>, b: nat, e: nat, ticket: nat, names: Names, side: Side, lo: nat, hi: nat)
    requires b <= e <= |cs| && Ordered(t, side, lo, hi) && Distinct(t) && Ascends(cs) && RoutesIn(cs, b, e, lo, hi)
    ensures Merge(t, cs, b, e, ticket, names).ok <==> Accepted(t, cs, b, e)
    decreases t, 0, 0
  {
    hide Ordered, RowOk, Distinct, MergeKids, BoundaryKids, Accepted, Ascends, RoutesIn, Pack;
    if b == e {
      NoneAccepted(t, cs, b);
    } else if t.Leaf? {
      LeafAccepts(t, cs, b, e);
    } else {
      InnerRow(t, side, lo, hi);
      if t.kind == Boundary {
        KidsAccept(t, 0, cs, b, e, ticket, names, side, lo, hi, true);
      } else {
        KidsAccept(t, 0, cs, b, e, ticket, names, side, lo, hi, false);
      }
    }
  }

  lemma NoneAccepted(t: Node, cs: seq<Change>, b: nat)
    requires b <= |cs|
    ensures Accepted(t, cs, b, b)
  {
  }

  lemma {:induction false} KidsAccept(t: Node, i: nat, cs: seq<Change>, b: nat, e: nat, ticket: nat, names: Names, side: Side, lo: nat, hi: nat, boundary: bool)
    requires t.Inner? && i < |t.chs| == |t.keys| + 1 && b <= e <= |cs| && RowOk(t.keys, t.chs, side, lo, hi) && Distinct(t)
    requires Ascends(cs) && RoutesIn(cs, b, e, LoAt(t.keys, lo, i), hi)
    ensures (if boundary then BoundaryKids(t.keys, t.chs, i, cs, b, e, ticket, names).ok else MergeKids(t.keys, t.chs, i, cs, b, e, ticket, names).ok)
            <==> Accepted(t, cs, b, e)
    decreases t.chs, 1, |t.chs| - i
  {
    hide Ordered, RowOk, Distinct, Merge, Accepted, Ascends, RoutesIn, Wrapped;
    var m := Upto(t.keys, i, cs, b, e);
    UptoIs(t.keys, i, cs, b, e, lo, hi);
    RowFacts(t.keys, t.chs, side, lo, hi, i);
    NodeApart(t, i);
    MergeAccepts(t.chs[i], cs, b, m, ticket, names, side, LoAt(t.keys, lo, i), HiAt(t.keys, hi, i));
    KidRoutes(t, i, cs, b, m, side, lo, hi);
    SameRoutes(t, t.chs[i], cs, b, m);
    if i < |t.keys| {
      KidsAccept(t, i + 1, cs, m, e, ticket, names, side, lo, hi, boundary);
      KidsApart(t, i, cs, b, m, e, side, lo, hi);
      AcceptedSplit(t, cs, b, m, e);
    }
  }

  lemma KidRoutes(t: Node, i: nat, cs: seq<Change>, b: nat, m: nat, side: Side, lo: nat, hi: nat)
    requires t.Inner? && i < |t.chs| == |t.keys| + 1 && b <= m <= |cs| && RowOk(t.keys, t.chs, side, lo, hi)
    requires RoutesIn(cs, b, m, LoAt(t.keys, lo, i), HiAt(t.keys, hi, i))
    ensures forall j :: b <= j < m ==> Route(t, cs[j].route) == Route(t.chs[i], cs[j].route)
  {
    hide RowOk, Route;
    forall j | b <= j < m ensures Route(t, cs[j].route) == Route(t.chs[i], cs[j].route) {
      ChildRoute(t, i, side, lo, hi, cs[j].route);
    }
  }

  lemma KidsApart(t: Node, i: nat, cs: seq<Change>, b: nat, m: nat, e: nat, side: Side, lo: nat, hi: nat)
    requires t.Inner? && i < |t.keys| && |t.chs| == |t.keys| + 1 && b <= m <= e <= |cs| && RowOk(t.keys, t.chs, side, lo, hi) && Distinct(t)
    requires RoutesIn(cs, b, m, LoAt(t.keys, lo, i), t.keys[i]) && RoutesIn(cs, m, e, t.keys[i], hi)
    ensures forall x, y :: b <= x < m && m <= y < e ==> Route(t, cs[x].route).id != Route(t, cs[y].route).id
  {
    hide RowOk, Route, Distinct;
    RowShape(t.keys, t.chs, side, lo, hi);
    forall x, y | b <= x < m && m <= y < e ensures Route(t, cs[x].route).id != Route(t, cs[y].route).id {
      RoutesApart(t, side, lo, hi, t.keys[i], cs[x].route, cs[y].route);
    }
  }

  // ---- identities -----------------------------------------------------------

  predicate OfLeaf(role: Role) {
    role == WholeLeaf || role == LeftLeaf || role == RightLeaf
  }

  /** An inner node the merge makes. */
  predicate Made(x: Id, ticket: nat) {
    x.New? && x.ticket == ticket && !OfLeaf(x.role)
  }

  function Numbers(ids: set<Id>, names: Names): set<nat> {
    set x | x in ids :: names(x)
  }

  function RunIds(cs: seq<Change>, b: nat, e: nat): set<Id>
    requires b <= e <= |cs|
  {
    set j, x | b <= j < e && x in AllIds(RunNodes(cs[j].run)) :: x
  }

  /** Old nodes have numbers of their own, and the replacing leaves share nothing
      with them, with each other, or with what the merge makes. */
  ghost predicate Clean(was: set<Id>, cs: seq<Change>, ticket: nat, names: Names) {
    && (forall x, y :: x in was && y in was && names(x) == names(y) ==> x == y)
    && (forall x :: x in was ==> !Made(x, ticket) && x !in RunIds(cs, 0, |cs|))
    && (forall j :: 0 <= j < |cs| ==> AllDistinct(RunNodes(cs[j].run)))
    && (forall i, j :: 0 <= i < j < |cs| ==> AllIds(RunNodes(cs[i].run)) !! AllIds(RunNodes(cs[j].run)))
    && (forall x :: x in RunIds(cs, 0, |cs|) ==> !Made(x, ticket))
  }

  /** All nodes but the retired ones, the replacing leaves, and inner nodes made
      in place of old ones. */
  ghost predicate Exact(ids: set<Id>, was: set<Id>, retired: seq<Id>, runs: set<Id>, ticket: nat, names: Names) {
    && M.Once(retired) && H.Elements(retired) <= was && was - H.Elements(retired) <= ids && runs <= ids
    && forall x :: x in ids ==> x in was - H.Elements(retired) || x in runs || (Made(x, ticket) && x.stage in Numbers(was, names))
  }

  lemma CleanSub(small: set<Id>, was: set<Id>, cs: seq<Change>, ticket: nat, names: Names)
    requires Clean(was, cs, ticket, names) && small <= was
    ensures Clean(small, cs, ticket, names)
  {
    hide AllIds, AllDistinct, RunIds;
  }

  lemma RunIdsSplit(cs: seq<Change>, b: nat, m: nat, e: nat)
    requires b <= m <= e <= |cs|
    ensures RunIds(cs, b, e) == RunIds(cs, b, m) + RunIds(cs, m, e)
    ensures RunIds(cs, b, e) <= RunIds(cs, 0, |cs|)
    ensures RunIds(cs, b, b) == {}
  {
    hide AllIds;
  }

  lemma RunsApart(was: set<Id>, cs: seq<Change>, ticket: nat, names: Names, b: nat, m: nat, e: nat)
    requires Clean(was, cs, ticket, names) && b <= m <= e <= |cs|
    ensures RunIds(cs, b, m) !! RunIds(cs, m, e)
  {
    hide AllIds, AllDistinct;
  }

  /** Two neighbouring parts. */
  lemma ExactJoin(a: set<Id>, wasA: set<Id>, retA: seq<Id>, c: set<Id>, wasC: set<Id>, retC: seq<Id>,
                  cs: seq<Change>, b: nat, m: nat, e: nat, ticket: nat, names: Names)
    requires b <= m <= e <= |cs| && wasA !! wasC && Clean(wasA + wasC, cs, ticket, names)
    requires Exact(a, wasA, retA, RunIds(cs, b, m), ticket, names) && Exact(c, wasC, retC, RunIds(cs, m, e), ticket, names)
    ensures a !! c && Exact(a + c, wasA + wasC, retA + retC, RunIds(cs, b, e), ticket, names)
  {
    hide AllIds, AllDistinct, RunIds;
    RunIdsSplit(cs, b, m, e);
    RunIdsSplit(cs, b, b, m);
    RunIdsSplit(cs, m, m, e);
    RunsApart(wasA + wasC, cs, ticket, names, b, m, e);
    NumbersApart(wasA, wasC, cs, ticket, names);
    M.Appended(retA, retC);
  }

  lemma NumbersApart(a: set<Id>, c: set<Id>, cs: seq<Change>, ticket: nat, names: Names)
    requires Clean(a + c, cs, ticket, names) && a !! c
    ensures Numbers(a, names) !! Numbers(c, names) && Numbers(a + c, names) == Numbers(a, names) + Numbers(c, names)
  {
    hide AllIds, AllDistinct, RunIds;
  }

  lemma NothingMerged(t: Node, cs: seq<Change>, b: nat, ticket: nat, names: Names)
    requires b <= |cs| && Distinct(t) && Clean(Ids(t), cs, ticket, names)
    ensures Exact(AllIds([t]), Ids(t), [], RunIds(cs, b, b), ticket, names) && AllDistinct([t])
    ensures New(ticket, names(t.id), Root) !in AllIds([t])
  {
    hide AllIds, AllDistinct, RunIds, Ids, Distinct;
    AllIdsOne(t);
    RunIdsSplit(cs, b, b, b);
    assert Made(New(ticket, names(t.id), Root), ticket);
  }

  lemma LeafMerged(t: Node, cs: seq<Change>, b: nat, ticket: nat, names: Names)
    requires t.Leaf? && b < |cs| && Clean(Ids(t), cs, ticket, names)
    ensures var ts := RunNodes(cs[b].run);
            AllDistinct(ts) && Exact(AllIds(ts), Ids(t), [t.id], RunIds(cs, b, b + 1), ticket, names) && New(ticket, names(t.id), Root) !in AllIds(ts)
  {
    hide AllIds, AllDistinct;
    LeafSets(t, 0);
    RunIdsSplit(cs, b, b, b + 1);
    M.LastOnce(t.id);
    assert Made(New(ticket, names(t.id), Root), ticket);
  }

  /** One or two new nodes over merged children. */
  lemma NodeMerged(t: Node, run: Run, kids: seq<Node>, retired: seq<Id>, cs: seq<Change>, b: nat, e: nat, ticket: nat, names: Names)
    requires t.Inner? && b <= e <= |cs| && Distinct(t) && Clean(Ids(t), cs, ticket, names)
    requires AllDistinct(kids) && Exact(AllIds(kids), AllIds(t.chs), retired, RunIds(cs, b, e), ticket, names)
    requires match run
             case One(u) => u.Inner? && u.chs == kids && u.id == New(ticket, names(t.id), WholeNode)
             case Two(u, _, w) =>
               && u.Inner? && w.Inner? && u.chs + w.chs == kids
               && u.id == New(ticket, names(t.id), LeftHalf) && w.id == New(ticket, names(t.id), RightHalf)
    ensures var ts := RunNodes(run);
            && AllDistinct(ts) && Exact(AllIds(ts), Ids(t), retired + [t.id], RunIds(cs, b, e), ticket, names)
            && New(ticket, names(t.id), Root) !in AllIds(ts)
  {
    hide AllIds, AllDistinct, RunIds, Ids, Distinct, Clean;
    NodeIds(t);
    OwnNumber(t, AllIds(kids), retired, cs, b, e, ticket, names);
    match run {
      case One(u) =>
        AllIdsOne(u);
        NodeIds(u);
        TopExact(t, {u.id}, AllIds(kids), retired, cs, b, e, ticket, names);
      case Two(u, _, w) =>
        AllIdsTwo(u, w);
        NodeIds(u);
        NodeIds(w);
        JoinIds(u.chs, w.chs);
        TopExact(t, {u.id, w.id}, AllIds(kids), retired, cs, b, e, ticket, names);
    }
  }

  /** The number of a node is used by none below it. */
  lemma OwnNumber(t: Node, ids: set<Id>, retired: seq<Id>, cs: seq<Change>, b: nat, e: nat, ticket: nat, names: Names)
    requires t.Inner? && b <= e <= |cs| && t.id !in AllIds(t.chs) && Clean({t.id} + AllIds(t.chs), cs, ticket, names)
    requires Exact(ids, AllIds(t.chs), retired, RunIds(cs, b, e), ticket, names)
    ensures forall x :: x in ids && Made(x, ticket) ==> x.stage != names(t.id)
  {
    hide AllIds, AllDistinct, RunIds;
    RunIdsSplit(cs, b, b, e);
    forall x | x in ids && Made(x, ticket) ensures x.stage != names(t.id) {
      if x.stage in Numbers(AllIds(t.chs), names) {
        var y :| y in AllIds(t.chs) && names(y) == x.stage;
        assert y != t.id;
      }
    }
  }

  lemma TopExact(t: Node, top: set<Id>, ids: set<Id>, retired: seq<Id>, cs: seq<Change>, b: nat, e: nat, ticket: nat, names: Names)
    requires t.Inner? && b <= e <= |cs| && t.id !in AllIds(t.chs) && Ids(t) == {t.id} + AllIds(t.chs)
    requires Exact(ids, AllIds(t.chs), retired, RunIds(cs, b, e), ticket, names)
    requires forall x :: x in top ==> Made(x, ticket) && x.stage == names(t.id)
    ensures Exact(top + ids, Ids(t), retired + [t.id], RunIds(cs, b, e), ticket, names)
  {
    hide AllIds, RunIds, Ids;
    M.LastOnce(t.id);
    M.Appended(retired, [t.id]);
    assert names(t.id) in Numbers(Ids(t), names);
    forall n | n in Numbers(AllIds(t.chs), names) ensures n in Numbers(Ids(t), names) {
      var y :| y in AllIds(t.chs) && names(y) == n;
      assert y in Ids(t);
    }
  }

  /** The wrapping of a cut child. */
  lemma WrappedMerged(t: Node, run: Run, retired: seq<Id>, runs: set<Id>, ticket: nat, names: Names)
    requires AllDistinct(RunNodes(run)) && Exact(AllIds(RunNodes(run)), Ids(t), retired, runs, ticket, names)
    requires New(ticket, names(t.id), Root) !in AllIds(RunNodes(run)) && t.id in Ids(t)
    ensures var u := Wrapped(t, run, ticket, names);
            AllDistinct([u]) && Exact(AllIds([u]), Ids(t), retired, runs, ticket, names)
  {
    hide AllIds, AllDistinct, Ids, Distinct;
    var u := Wrapped(t, run, ticket, names);
    AllIdsOne(u);
    match run {
      case One(w) =>
      case Two(a, _, c) =>
        assert u.chs == RunNodes(run);
        NodeIds(u);
        assert names(t.id) in Numbers(Ids(t), names);
    }
  }

  /** Retiring a merge is exact: its tree has every old node but the retired ones,
      the replacing leaves, and new nodes in place of retired inner ones; no node
      is retired twice, and none occurs twice. */
  lemma {:induction false} MergeShares(t: Node, cs: seq<Change>, b: nat, e: nat, ticket: nat, names: Names)
    requires b <= e <= |cs| && Formed(t) && Distinct(t) && Clean(Ids(t), cs, ticket, names) && Merge(t, cs, b, e, ticket, names).ok
    ensures var m := Merge(t, cs, b, e, ticket, names);
            && AllDistinct(RunNodes(m.run)) && Exact(AllIds(RunNodes(m.run)), Ids(t), m.retired, RunIds(cs, b, e), ticket, names)
            && New(ticket, names(t.id), Root) !in AllIds(RunNodes(m.run))
    decreases t, 0, 0
  {
    hide AllIds, AllDistinct, Ids, Distinct, RunIds, Clean, Exact, Formed, MergeKids, BoundaryKids;
    if b == e {
      NothingMerged(t, cs, b, ticket, names);
    } else if t.Leaf? {
      LeafMerged(t, cs, b, ticket, names);
    } else {
      FormedRow(t);
      NodeIds(t);
      CleanSub(AllIds(t.chs), Ids(t), cs, ticket, names);
      assert t.chs[0..] == t.chs;
      if t.kind == Boundary {
        KidsShare(t.keys, t.chs, 0, cs, b, e, ticket, names, true);
        var k := BoundaryKids(t.keys, t.chs, 0, cs, b, e, ticket, names);
        NodeMerged(t, Merge(t, cs, b, e, ticket, names).run, k.chs, k.retired, cs, b, e, ticket, names);
      } else {
        KidsShare(t.keys, t.chs, 0, cs, b, e, ticket, names, false);
        var k := MergeKids(t.keys, t.chs, 0, cs, b, e, ticket, names);
        PackWhole(t, ticket, names, k.keys, k.chs);
        NodeMerged(t, Merge(t, cs, b, e, ticket, names).run, k.chs, k.retired, cs, b, e, ticket, names);
      }
    }
  }

  lemma PackWhole(t: Node, ticket: nat, names: Names, keys: seq<Key>, chs: seq<Node>)
    requires t.Inner? && |chs| == |keys| + 1
    ensures match Pack(t, ticket, names, keys, chs)
            case One(u) => u.Inner? && u.chs == chs && u.id == New(ticket, names(t.id), WholeNode)
            case Two(u, _, w) =>
              && u.Inner? && w.Inner? && u.chs + w.chs == chs
              && u.id == New(ticket, names(t.id), LeftHalf) && w.id == New(ticket, names(t.id), RightHalf)
  {
  }

  lemma {:induction false} KidsShare(keys: seq<Key>, chs: seq<Node>, i: nat, cs: seq<Change>, b: nat, e: nat, ticket: nat, names: Names, boundary: bool)
    requires i < |chs| == |keys| + 1 && b <= e <= |cs| && (forall j :: 0 <= j < |chs| ==> Formed(chs[j])) && AllDistinct(chs[i..])
    requires Clean(AllIds(chs[i..]), cs, ticket, names)
    requires if boundary then BoundaryKids(keys, chs, i, cs, b, e, ticket, names).ok else MergeKids(keys, chs, i, cs, b, e, ticket, names).ok
    ensures var k := if boundary then BoundaryKids(keys, chs, i, cs, b, e, ticket, names) else MergeKids(keys, chs, i, cs, b, e, ticket, names);
            AllDistinct(k.chs) && Exact(AllIds(k.chs), AllIds(chs[i..]), k.retired, RunIds(cs, b, e), ticket, names)
    decreases chs, 1, |chs| - i
  {
    hide AllIds, AllDistinct, Ids, Distinct, RunIds, Clean, Exact, Formed, Merge, Wrapped;
    var m := Upto(keys, i, cs, b, e);
    var rest := chs[i+1..];
    assert chs[i..] == [chs[i]] + rest;
    JoinIds([chs[i]], rest);
    AllIdsOne(chs[i]);
    CleanSub(Ids(chs[i]), AllIds(chs[i..]), cs, ticket, names);
    CleanSub(AllIds(rest), AllIds(chs[i..]), cs, ticket, names);
    MergeShares(chs[i], cs, b, m, ticket, names);
    var c := Merge(chs[i], cs, b, m, ticket, names);
    var ts := RunNodes(c.run);
    if boundary {
      IdIn(chs[i]);
      WrappedMerged(chs[i], c.run, c.retired, RunIds(cs, b, m), ticket, names);
      ts := [Wrapped(chs[i], c.run, ticket, names)];
    }
    if i < |keys| {
      KidsShare(keys, chs, i + 1, cs, m, e, ticket, names, boundary);
      var k := if boundary then BoundaryKids(keys, chs, i + 1, cs, m, e, ticket, names) else MergeKids(keys, chs, i + 1, cs, m, e, ticket, names);
      ExactJoin(AllIds(ts), Ids(chs[i]), c.retired, AllIds(k.chs), AllIds(rest), k.retired, cs, b, m, e, ticket, names);
      JoinIds(ts, k.chs);
    } else {
      assert rest == [] && chs[i..] == [chs[i]];
    }
  }

  lemma IdIn(t: Node)
    ensures t.id in Ids(t)
  {
    hide AllIds;
  }

  // ---- the whole merge ------------------------------------------------------

  /** What was retired is exactly what the new tree lacks. */
  lemma RetiredIsLost(ids: set<Id>, was: set<Id>, retired: seq<Id>, cs: seq<Change>, b: nat, e: nat, ticket: nat, names: Names)
    requires b <= e <= |cs| && Clean(was, cs, ticket, names) && Exact(ids, was, retired, RunIds(cs, b, e), ticket, names)
    ensures H.Elements(retired) == was - ids
  {
    hide AllIds, AllDistinct, RunIds;
    RunIdsSplit(cs, b, b, e);
  }
}
