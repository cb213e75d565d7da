/** What one merge pass keeps, changes and retires. */
module BTreeMergeOk {
  import opened Options
  import opened Records
  import opened Nodes
  import opened BTree
  import opened BTreeCow
  import opened BTreeHistory
  import opened BTreeMerge

  ghost predicate RoutesIn(cs: seq<Change>, b: nat, e: nat, lo: nat, hi: nat)
    requires b <= e <= |cs|
  {
    forall j :: b <= j < e ==> lo <= cs[j].route < hi
  }

  /** The children from i on. */
  function Onward(s: Seg, i: nat): Seg
    requires i < |s.chs| == |s.keys| + 1
  {
    if i == 0 then s else After(s, i - 1)
  }

  lemma OnwardStep(s: Seg, i: nat)
    requires i < |s.keys| && |s.chs| == |s.keys| + 1
    ensures Onward(s, i) == Join(One(s.chs[i]), s.keys[i], Onward(s, i + 1))
    ensures Onward(s, |s.keys|) == One(s.chs[|s.keys|])
  {
    assert s.keys[i..] == [s.keys[i]] + s.keys[i+1..];
    assert s.chs[i..] == [s.chs[i]] + s.chs[i+1..];
    assert s.keys[i..][0..] == s.keys[i..] && s.chs[i..][0..] == s.chs[i..];
  }

  lemma OnwardFits(s: Seg, i: nat, side: Side, lo: nat, hi: nat, h: nat)
    requires Fits(s, side, lo, hi, h) && i < |s.chs|
    ensures Fits(Onward(s, i), side, LoAt(s.keys, lo, i), hi, h)
  {
    if i > 0 {
      AfterFits(s, i - 1, side, lo, hi, h);
    }
  }

  /** The changes of child i are those between its separators. */
  lemma CutRange(s: Seg, i: nat, cs: seq<Change>, b: nat, e: nat, lo: nat, hi: nat)
    requires b <= e <= |cs| && i < |s.keys| && Ascends(cs) && RoutesIn(cs, b, e, LoAt(s.keys, lo, i), hi)
    ensures var m := Cut(cs, b, e, s.keys[i]);
            RoutesIn(cs, b, m, LoAt(s.keys, lo, i), s.keys[i]) && RoutesIn(cs, m, e, s.keys[i], hi)
  {
  }

  // ---- which changes are accepted -------------------------------------------

  function SegRoute(s: Seg, k: Key): Tree
    requires |s.chs| == |s.keys| + 1
  {
    Route(s.chs[FindCh(s.keys, k)], k)
  }

  /** Every change is for the leaf its key leads to, and no leaf has two. */
  ghost predicate Current(t: Tree, cs: seq<Change>, b: nat, e: nat)
    requires b <= e <= |cs|
  {
    && (forall j :: b <= j < e ==> cs[j].leaf.id == Route(t, cs[j].route).id)
    && (forall i, j :: b <= i < j < e ==> cs[i].leaf.id != cs[j].leaf.id)
  }

  ghost predicate CurrentSeg(s: Seg, cs: seq<Change>, b: nat, e: nat)
    requires b <= e <= |cs| && |s.chs| == |s.keys| + 1
  {
    && (forall j :: b <= j < e ==> cs[j].leaf.id == SegRoute(s, cs[j].route).id)
    && (forall i, j :: b <= i < j < e ==> cs[i].leaf.id != cs[j].leaf.id)
  }

  /** The pass stops with an exception exactly when a change is stale or a leaf
      is replaced twice. */
  lemma {:induction false} AcceptedIffCurrent(t: Tree, cs: seq<Change>, b: nat, e: nat, side: Side, lo: nat, hi: nat, h: nat)
    requires Wf(t, side, lo, hi, h) && Distinct(t) && b <= e <= |cs| && Ascends(cs) && RoutesIn(cs, b, e, lo, hi)
    ensures Accepted(t, cs, b, e) <==> Current(t, cs, b, e)
    decreases t, 0
  {
    match t {
      case Leaf(_, _, _, _) =>
        assert b + 1 < e && Current(t, cs, b, e) ==> cs[b].leaf.id == cs[b+1].leaf.id;
      case Node(_, _, kids) =>
        AcceptedKidsIff(kids, 0, cs, b, e, side, lo, hi, h - 1);
        assert forall j :: b <= j < e ==> Route(t, cs[j].route) == SegRoute(kids, cs[j].route);
    }
  }

  lemma {:induction false} AcceptedKidsIff(s: Seg, i: nat, cs: seq<Change>, b: nat, e: nat, side: Side, lo: nat, hi: nat, h: nat)
    requires Fits(s, side, lo, hi, h) && SegDistinct(s) && i < |s.chs| && b <= e <= |cs| && Ascends(cs)
    requires RoutesIn(cs, b, e, LoAt(s.keys, lo, i), hi)
    ensures AcceptedKids(s, i, cs, b, e) <==> CurrentSeg(s, cs, b, e)
    decreases s, |s.chs| - i
  {
    hide Accepted, Wf, Distinct, Cut, SegRoute, Current, CurrentSeg;
    var m := if i == |s.keys| then e else Cut(cs, b, e, s.keys[i]);
    if i < |s.keys| {
      CutRange(s, i, cs, b, e, lo, hi);
    }
    AcceptedIffCurrent(s.chs[i], cs, b, m, side, LoAt(s.keys, lo, i), HiAt(s.keys, hi, i), h);
    ChildCurrent(s, i, cs, b, m, lo, hi);
    if i < |s.keys| {
      AcceptedKidsIff(s, i + 1, cs, m, e, side, lo, hi, h);
      CurrentJoin(s, i, cs, b, m, e, lo, hi);
    }
  }

  lemma CurrentJoin(s: Seg, i: nat, cs: seq<Change>, b: nat, m: nat, e: nat, lo: nat, hi: nat)
    requires SegDistinct(s) && |s.chs| == |s.keys| + 1 && i < |s.keys| && Sorted(s.keys) && b <= m <= e <= |cs|
    requires RoutesIn(cs, b, m, lo, s.keys[i]) && RoutesIn(cs, m, e, s.keys[i], hi)
    ensures CurrentSeg(s, cs, b, e) <==> CurrentSeg(s, cs, b, m) && CurrentSeg(s, cs, m, e)
  {
    hide SegRoute, SegDistinct;
    if CurrentSeg(s, cs, b, m) && CurrentSeg(s, cs, m, e) {
      forall x, y | b <= x < m && m <= y < e ensures cs[x].leaf.id != cs[y].leaf.id {
        ApartRoutes(s, i, cs[x].route, cs[y].route, lo, hi);
      }
    }
  }

  lemma ChildCurrent(s: Seg, i: nat, cs: seq<Change>, b: nat, m: nat, lo: nat, hi: nat)
    requires |s.chs| == |s.keys| + 1 && i < |s.chs| && Sorted(s.keys) && b <= m <= |cs|
    requires RoutesIn(cs, b, m, LoAt(s.keys, lo, i), HiAt(s.keys, hi, i))
    ensures Current(s.chs[i], cs, b, m) <==> CurrentSeg(s, cs, b, m)
  {
    forall j | b <= j < m ensures SegRoute(s, cs[j].route) == Route(s.chs[i], cs[j].route) {
      ChildRoute(s, i, cs[j].route, lo, hi);
    }
  }

  lemma ChildRoute(s: Seg, i: nat, k: Key, lo: nat, hi: nat)
    requires |s.chs| == |s.keys| + 1 && i < |s.chs| && Sorted(s.keys) && LoAt(s.keys, lo, i) <= k < HiAt(s.keys, hi, i)
    ensures SegRoute(s, k) == Route(s.chs[i], k)
  {
    FindChIs(s.keys, k, i, lo, hi);
  }

  lemma ApartRoutes(s: Seg, i: nat, k: Key, l: Key, lo: nat, hi: nat)
    requires SegDistinct(s) && |s.chs| == |s.keys| + 1 && i < |s.keys| && Sorted(s.keys) && k < s.keys[i] <= l
    ensures SegRoute(s, k).id != SegRoute(s, l).id
  {
    var x, y := FindCh(s.keys, k), FindCh(s.keys, l);
    RouteIn(s.chs[x], k);
    RouteIn(s.chs[y], l);
    assert x <= i < y;
    assert Ids(s.chs[x]) !! Ids(s.chs[y]);
  }

  // ---- contents -------------------------------------------------------------

  /** Changes written over a lookup. */
  function Written(cs: seq<Change>, b: nat, e: nat, k: Key, prior: Option<Val>): Option<Val>
    requires b <= e <= |cs|
    decreases e - b
  {
    if b == e then prior
    else if cs[b].route == k then Some(cs[b].val)
    else Written(cs, b + 1, e, k, prior)
  }

  lemma {:induction false} WrittenSplit(cs: seq<Change>, b: nat, m: nat, e: nat, k: Key, prior: Option<Val>)
    requires b <= m <= e <= |cs|
    ensures Written(cs, b, e, k, prior) == Written(cs, b, m, k, Written(cs, m, e, k, prior))
    decreases m - b
  {
    if b < m {
      WrittenSplit(cs, b + 1, m, e, k, prior);
    }
  }

  lemma {:induction false} WrittenNot(cs: seq<Change>, b: nat, e: nat, k: Key, prior: Option<Val>)
    requires b <= e <= |cs| && forall j :: b <= j < e ==> cs[j].route != k
    ensures Written(cs, b, e, k, prior) == prior
    decreases e - b
  {
    if b < e {
      WrittenNot(cs, b + 1, e, k, prior);
    }
  }

  /** A change prepared at its ticket on the leaf as it is now. */
  ghost predicate ChangeOk(c: Change, side: Side) {
    && c.Prepared(side)
    && (forall i :: 0 <= i < |SlotsAt(side, c.leaf.id)| ==> SlotsAt(side, c.leaf.id)[i].version < c.ticket)
    && (forall id :: id in side ==> !(id.New? && id.ticket == c.ticket))
  }

  ghost predicate ChangesOk(cs: seq<Change>, side: Side) {
    forall j :: 0 <= j < |cs| ==> ChangeOk(cs[j], side)
  }

  lemma {:induction false} NewSides(r: Seg, ticket: nat, side: Side, only: Side, nodes: set<Id>, path: seq<Id>)
    requires Shares(r, nodes, path, ticket, 0) && (forall x :: x in nodes ==> x in path)
    requires forall id :: id in side ==> !(id.New? && id.ticket == ticket)
    requires forall id :: id in only ==> !(id.New? && id.ticket == ticket)
    ensures SameOn(only, side, SegIds(r))
  {
  }

  /** The replacing leaves show the old leaf with the one key changed. */
  lemma RunOk(c: Change, side: Side, lo: nat, hi: nat, version: nat, k: Key)
    requires ChangeOk(c, side) && Wf(c.leaf, side, lo, hi, 0) && lo <= c.route < hi && c.ticket <= version
    ensures Fits(c.run, side, lo, hi, 0)
    ensures SegGet(c.run, side, version, k) == if k == c.route then Some(c.val) else Get(c.leaf, side, version, k)
  {
    hide Fits, Get, ReplaceLeaf;
    var t := c.leaf;
    var only: Side := if t.id in side then map[t.id := side[t.id]] else map[];
    assert SlotsAt(only, t.id) == SlotsAt(side, t.id);
    OnlySlots(t, side, only, c.ticket, c.route, c.val, lo, hi, version, k);
    ReplaceLeafOk(t, only, c.ticket, 0, c.route, c.val, lo, hi, version, k);
    ReplaceLeafShares(t, only, c.ticket, 0, c.route, c.val);
    NewSides(c.run, c.ticket, side, only, Ids(t), Path(t, c.route));
    SegFrame(c.run, only, side, lo, hi, 0);
    SegGetFrame(c.run, only, side, version, k);
  }

  lemma SegGetFrame(s: Seg, a: Side, b: Side, version: nat, k: Key)
    requires SameOn(a, b, SegIds(s))
    ensures SegGet(s, a, version, k) == SegGet(s, b, version, k)
  {
    var i := FindCh(s.keys, k);
    if i < |s.chs| {
      ChildIds(s, i);
      GetFrame(s.chs[i], a, b, version, k);
    }
  }

  lemma OnlySlots(t: Tree, side: Side, only: Side, ticket: nat, key: Key, val: Val, lo: nat, hi: nat, version: nat, k: Key)
    requires t.Leaf? && Wf(t, side, lo, hi, 0) && SlotsAt(only, t.id) == SlotsAt(side, t.id)
    ensures Wf(t, only, lo, hi, 0) && ReplaceLeaf(t, only, ticket, 0, key, val) == ReplaceLeaf(t, side, ticket, 0, key, val)
    ensures Get(t, only, version, k) == Get(t, side, version, k)
  {
  }

  /** A run that stands for siblings with the changes of a range applied. */
  ghost predicate Applies(r: Seg, prior: Seg, side: Side, lo: nat, hi: nat, h: nat, cs: seq<Change>, b: nat, e: nat, version: nat, k: Key)
    requires b <= e <= |cs|
  {
    && Fits(r, side, lo, hi, h)
    && (lo <= k < hi ==> SegGet(r, side, version, k) == Written(cs, b, e, k, SegGet(prior, side, version, k)))
  }

  ghost predicate Ready(cs: seq<Change>, side: Side, version: nat) {
    && ChangesOk(cs, side) && Ascends(cs) && AllShaped(cs)
    && (forall j :: 0 <= j < |cs| ==> cs[j].ticket <= version)
    && (forall id :: id in side ==> id.Version() <= version)
  }

  /** The merged tree is well-formed and shows the old one with every change
      written over it. */
  lemma {:induction false} MergeApplies(t: Tree, cs: seq<Change>, b: nat, e: nat, side: Side, lo: nat, hi: nat, h: nat,
                                        version: nat, n: nat, k: Key)
    requires b <= e <= |cs| && Ready(cs, side, version) && RoutesIn(cs, b, e, lo, hi)
    requires Wf(t, side, lo, hi, h)
    requires Accepted(t, cs, b, e) && forall j :: b <= j < e ==> cs[j].leaf == Route(t, cs[j].route)
    ensures Applies(Merge(t, cs, b, e, version, n).run, One(t), side, lo, hi, h, cs, b, e, version, k)
    decreases t, 0
  {
    hide Get, SegGet, Fits, ReplaceLeaf, Written, MergeKids, Pack;
    OneApplies(t, side, lo, hi, h, cs, b, version, k);
    if b < e {
      match t {
        case Leaf(_, _, _, _) =>
          assert cs[b].leaf == t;
          RunOk(cs[b], side, lo, hi, version, k);
          LeafApplies(t, cs, b, side, lo, hi, version, k);
        case Node(_, _, kids) =>
          NodeFits(t, side, lo, hi, h);
          forall j | b <= j < e ensures cs[j].leaf == SegRoute(kids, cs[j].route) { RouteKids(t, cs[j].route); }
          MergeKidsApplies(kids, 0, cs, b, e, side, lo, hi, h - 1, version, n, k);
          var m := MergeKids(kids, 0, cs, b, e, version, n);
          PackApplies(t, m.run, cs, b, e, side, lo, hi, h - 1, version, m.next, k);
      }
    }
  }

  lemma RouteKids(t: Tree, k: Key)
    requires t.Node? && |t.kids.chs| == |t.kids.keys| + 1
    ensures Route(t, k) == SegRoute(t.kids, k)
  {
  }

  lemma NodeFits(t: Tree, side: Side, lo: nat, hi: nat, h: nat)
    requires t.Node? && Wf(t, side, lo, hi, h)
    ensures h > 0 && Fits(t.kids, side, lo, hi, h - 1) && 1 <= |t.kids.keys| <= MAX_KEYS && |t.kids.chs| == |t.kids.keys| + 1
    ensures Sorted(t.kids.keys) && forall i :: 0 <= i < |t.kids.keys| ==> lo < t.kids.keys[i] < hi
  {
  }

  lemma OneApplies(t: Tree, side: Side, lo: nat, hi: nat, h: nat, cs: seq<Change>, b: nat, version: nat, k: Key)
    requires b <= |cs| && Wf(t, side, lo, hi, h)
    ensures Applies(One(t), One(t), side, lo, hi, h, cs, b, b, version, k)
  {
    OneFits(t, side, lo, hi, h);
  }

  lemma LeafApplies(t: Tree, cs: seq<Change>, b: nat, side: Side, lo: nat, hi: nat, version: nat, k: Key)
    requires b < |cs| && Fits(cs[b].run, side, lo, hi, 0)
    requires SegGet(cs[b].run, side, version, k) == if k == cs[b].route then Some(cs[b].val) else Get(t, side, version, k)
    ensures Applies(cs[b].run, One(t), side, lo, hi, 0, cs, b, b + 1, version, k)
  {
    TwoGet(t, 0, t, side, version, k);
  }

  lemma {:induction false} MergeKidsApplies(s: Seg, i: nat, cs: seq<Change>, b: nat, e: nat, side: Side, lo: nat, hi: nat, h: nat,
                                            version: nat, n: nat, k: Key)
    requires b <= e <= |cs| && |s.chs| == |s.keys| + 1 && i < |s.chs| && Ready(cs, side, version)
    requires RoutesIn(cs, b, e, LoAt(s.keys, lo, i), hi) && Fits(s, side, lo, hi, h)
    requires AcceptedKids(s, i, cs, b, e) && forall j :: b <= j < e ==> cs[j].leaf == SegRoute(s, cs[j].route)
    ensures Applies(MergeKids(s, i, cs, b, e, version, n).run, Onward(s, i), side, LoAt(s.keys, lo, i), hi, h, cs, b, e, version, k)
    decreases s, |s.chs| - i
  {
    hide Wf, Accepted, Cut, SegRoute, Merge, Applies, SegGet, ChangesOk, Join, Onward;
    var m := if i == |s.keys| then e else Cut(cs, b, e, s.keys[i]);
    if i < |s.keys| {
      CutRange(s, i, cs, b, e, lo, hi);
    }
    forall j | b <= j < m ensures cs[j].leaf == Route(s.chs[i], cs[j].route) {
      ChildRoute(s, i, cs[j].route, lo, hi);
    }
    MergeApplies(s.chs[i], cs, b, m, side, LoAt(s.keys, lo, i), HiAt(s.keys, hi, i), h, version, n, k);
    var r := Merge(s.chs[i], cs, b, m, version, n);
    if i < |s.keys| {
      MergeKidsApplies(s, i + 1, cs, m, e, side, lo, hi, h, version, r.next, k);
      OnwardStep(s, i);
      OnwardFits(s, i + 1, side, lo, hi, h);
      assert i > 0 ==> s.keys[i-1] < s.keys[i];
      var rest := MergeKids(s, i + 1, cs, m, e, version, r.next);
      JoinApplies(s.chs[i], s.keys[i], Onward(s, i + 1), r.run, rest.run, side, LoAt(s.keys, lo, i), hi, h, cs, b, m, e, version, k);
    } else if s.keys == [] {
      OnlyChild(s);
    } else {
      OnwardStep(s, 0);
    }
  }

  lemma OnlyChild(s: Seg)
    requires s.keys == [] && |s.chs| == 1
    ensures Onward(s, 0) == One(s.chs[0])
  {
  }

  lemma JoinApplies(t: Tree, sep: Key, after: Seg, r: Seg, rest: Seg, side: Side, lo: nat, hi: nat, h: nat,
                    cs: seq<Change>, b: nat, m: nat, e: nat, version: nat, k: Key)
    requires b <= m <= e <= |cs| && lo < sep < hi
    requires RoutesIn(cs, b, m, lo, sep) && RoutesIn(cs, m, e, sep, hi)
    requires Applies(r, One(t), side, lo, sep, h, cs, b, m, version, k)
    requires Applies(rest, after, side, sep, hi, h, cs, m, e, version, k)
    requires Wf(t, side, lo, sep, h) && Fits(after, side, sep, hi, h)
    ensures Applies(Join(r, sep, rest), Join(One(t), sep, after), side, lo, hi, h, cs, b, e, version, k)
  {
    hide Wf, SegGet, Written;
    OneFits(t, side, lo, sep, h);
    JoinFits(r, sep, rest, side, lo, hi, h);
    JoinFits(One(t), sep, after, side, lo, hi, h);
    JoinGet(r, sep, rest, side, version, k);
    JoinGet(One(t), sep, after, side, version, k);
    var prior := SegGet(Join(One(t), sep, after), side, version, k);
    WrittenSplit(cs, b, m, e, k, prior);
    if k < sep {
      WrittenNot(cs, m, e, k, prior);
    } else if lo <= k < hi {
      WrittenNot(cs, b, m, k, Written(cs, m, e, k, prior));
    }
  }

  lemma PackApplies(t: Tree, s: Seg, cs: seq<Change>, b: nat, e: nat, side: Side, lo: nat, hi: nat, h: nat,
                    version: nat, n: nat, k: Key)
    requires t.Node? && b <= e <= |cs| && 2 <= |s.chs| == |s.keys| + 1 <= 4 * B
    requires Applies(s, t.kids, side, lo, hi, h, cs, b, e, version, k)
    ensures Applies(Pack(s, version, n).run, One(t), side, lo, hi, h + 1, cs, b, e, version, k)
  {
    hide Written, Wf, Get, SegGet, Fits;
    NodeGet(t, side, version, k);
    TwoGet(t, 0, t, side, version, k);
    if |s.chs| <= 2 * B {
      var p := Node(New(version, n, WholeNode), version, s);
      NodeOver(New(version, n, WholeNode), version, s, side, lo, hi, h, k);
      OneFits(p, side, lo, hi, h + 1);
      TwoGet(p, 0, p, side, version, k);
    } else {
      var half := |s.chs| / 2;
      PackTwo(s, half - 1, side, lo, hi, h, version, n, k);
    }
  }

  lemma NodeGet(t: Tree, side: Side, version: nat, k: Key)
    requires t.Node?
    ensures Get(t, side, version, k) == SegGet(t.kids, side, version, k)
  {
  }

  lemma NodeOver(id: Id, version: nat, s: Seg, side: Side, lo: nat, hi: nat, h: nat, k: Key)
    requires id.Version() == version && Fits(s, side, lo, hi, h) && 1 <= |s.keys| <= MAX_KEYS
    ensures Wf(Node(id, version, s), side, lo, hi, h + 1)
    ensures Get(Node(id, version, s), side, version, k) == SegGet(s, side, version, k)
  {
  }

  lemma PackTwo(s: Seg, i: nat, side: Side, lo: nat, hi: nat, h: nat, version: nat, n: nat, k: Key)
    requires Fits(s, side, lo, hi, h) && 1 <= i < |s.keys| - 1 && i <= MAX_KEYS && |s.keys| - 1 - i <= MAX_KEYS
    ensures var r := Two(Node(New(version, n, WholeNode), version, Before(s, i)), s.keys[i],
                         Node(New(version, n + 1, WholeNode), version, After(s, i)));
            && Fits(r, side, lo, hi, h + 1)
            && SegGet(r, side, version, k) == SegGet(s, side, version, k)
  {
    var l := Node(New(version, n, WholeNode), version, Before(s, i));
    var r := Node(New(version, n + 1, WholeNode), version, After(s, i));
    hide Wf, Get, SegGet;
    SplitFits(s, i, side, lo, hi, h);
    JoinGet(Before(s, i), s.keys[i], After(s, i), side, version, k);
    NodeOver(New(version, n, WholeNode), version, Before(s, i), side, lo, s.keys[i], h, k);
    NodeOver(New(version, n + 1, WholeNode), version, After(s, i), side, s.keys[i], hi, h, k);
    TwoFits(l, s.keys[i], r, side, lo, hi, h + 1);
    TwoGet(l, s.keys[i], r, side, version, k);
  }
}
