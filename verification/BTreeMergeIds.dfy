/** Which physical nodes a merge pass creates, shares and retires. */
module BTreeMergeIds {
  import opened Records
  import opened Nodes
  import opened BTree
  import opened BTreeCow
  import opened BTreeHistory
  import opened BTreeMerge
  import opened BTreeMergeOk

  function RunIds(cs: seq<Change>, b: nat, e: nat): set<Id>
    requires b <= e <= |cs|
  {
    set j, x | b <= j < e && x in SegIds(cs[j].run) :: x
  }

  /** The internal nodes numbered from n on. */
  function Inner(version: nat, n: nat, next: nat): set<Id> {
    set m | n <= m < next :: New(version, m, WholeNode)
  }

  ghost predicate Once(s: seq<Id>) {
    forall i, j :: 0 <= i < j < |s| ==> s[i] != s[j]
  }

  /** The replacing leaves share nothing with each other. */
  ghost predicate Separate(cs: seq<Change>) {
    && (forall j :: 0 <= j < |cs| ==> SegDistinct(cs[j].run))
    && (forall i, j :: 0 <= i < j < |cs| ==> SegIds(cs[i].run) !! SegIds(cs[j].run))
    && (forall j :: 0 <= j < |cs| ==> NoInner(SegIds(cs[j].run)))
  }

  ghost predicate NoInner(ids: set<Id>) {
    forall x :: x in ids ==> !(x.New? && x.role == WholeNode)
  }

  /** Nodes that are neither replacing leaves nor numbered by this merge. */
  ghost predicate Older(nodes: set<Id>, cs: seq<Change>, version: nat) {
    forall x :: x in nodes ==> x !in RunIds(cs, 0, |cs|) && !(x.New? && x.ticket == version && x.role == WholeNode)
  }

  /** A run that holds all nodes but the replaced ones, and the ones made. */
  ghost predicate Exact(r: Seg, nodes: set<Id>, repl: seq<Id>, runs: set<Id>, inner: set<Id>) {
    && SegDistinct(r)
    && SegIds(r) == (nodes - Elements(repl)) + (runs + inner)
    && Elements(repl) <= nodes
    && Once(repl)
  }

  lemma RunIdsSplit(cs: seq<Change>, b: nat, m: nat, e: nat)
    requires b <= m <= e <= |cs|
    ensures RunIds(cs, b, e) == RunIds(cs, b, m) + RunIds(cs, m, e)
    ensures Separate(cs) ==> RunIds(cs, b, m) !! RunIds(cs, m, e)
    ensures Separate(cs) ==> NoInner(RunIds(cs, b, e))
    ensures RunIds(cs, b, e) <= RunIds(cs, 0, |cs|)
    ensures RunIds(cs, b, b) == {}
  {
  }

  lemma RunIdsOne(cs: seq<Change>, b: nat)
    requires b < |cs|
    ensures RunIds(cs, b, b + 1) == SegIds(cs[b].run)
  {
  }

  lemma InnerSplit(version: nat, n: nat, m: nat, next: nat)
    requires n <= m <= next
    ensures Inner(version, n, next) == Inner(version, n, m) + Inner(version, m, next)
    ensures Inner(version, n, m) !! Inner(version, m, next)
    ensures Inner(version, n, n) == {}
    ensures Inner(version, n, n + 1) == {New(version, n, WholeNode)}
    ensures Inner(version, n, n + 2) == {New(version, n, WholeNode), New(version, n + 1, WholeNode)}
  {
  }

  lemma Appended(a: seq<Id>, b: seq<Id>)
    ensures Elements(a + b) == Elements(a) + Elements(b)
    ensures Once(a) && Once(b) && Elements(a) !! Elements(b) ==> Once(a + b)
  {
    if Once(a) && Once(b) && Elements(a) !! Elements(b) {
      forall i, j | 0 <= i < j < |a + b| ensures (a + b)[i] != (a + b)[j] {
        if i < |a| <= j {
          assert a[i] in Elements(a) && b[j - |a|] in Elements(b);
        }
      }
    }
  }

  lemma {:induction false} Counts(t: Tree, cs: seq<Change>, b: nat, e: nat, version: nat, n: nat)
    requires b <= e <= |cs| && AllShaped(cs)
    ensures n <= Merge(t, cs, b, e, version, n).next
    decreases t, 0
  {
    if t.Node? && b < e && |t.kids.chs| == |t.kids.keys| + 1 {
      CountsKids(t.kids, 0, cs, b, e, version, n);
    }
  }

  lemma {:induction false} CountsKids(s: Seg, i: nat, cs: seq<Change>, b: nat, e: nat, version: nat, n: nat)
    requires b <= e <= |cs| && AllShaped(cs) && i < |s.chs| == |s.keys| + 1
    ensures n <= MergeKids(s, i, cs, b, e, version, n).next
    decreases s, |s.chs| - i
  {
    hide Merge;
    if i == |s.keys| {
      Counts(s.chs[i], cs, b, e, version, n);
    } else {
      var m := Cut(cs, b, e, s.keys[i]);
      Counts(s.chs[i], cs, b, m, version, n);
      CountsKids(s, i + 1, cs, m, e, version, Merge(s.chs[i], cs, b, m, version, n).next);
    }
  }

  /** Retirement of a merge is exact: every old node is either shared or
      replaced, once, and all other nodes are new. */
  lemma {:induction false} MergeExact(t: Tree, cs: seq<Change>, b: nat, e: nat, version: nat, n: nat)
    requires b <= e <= |cs| && AllShaped(cs) && Separate(cs) && Accepted(t, cs, b, e)
    requires Distinct(t) && Older(Ids(t), cs, version)
    ensures var r := Merge(t, cs, b, e, version, n);
            n <= r.next && Exact(r.run, Ids(t), Replaced(t, cs, b, e), RunIds(cs, b, e), Inner(version, n, r.next))
    decreases t, 0
  {
    hide Exact, MergeKids, ReplacedKids, Separate, RunIds, Inner, Pack;
    Counts(t, cs, b, e, version, n);
    if b == e {
      ShareExact(t, cs, b, version, n);
    } else {
      match t {
        case Leaf(_, _, _, _) => LeafExact(t, cs, b, version, n);
        case Node(_, _, kids) =>
          OnlyAll(kids);
          MergeKidsExact(kids, 0, cs, b, e, version, n);
          CountsKids(kids, 0, cs, b, e, version, n);
          var m := MergeKids(kids, 0, cs, b, e, version, n);
          PackExact(t, m.run, cs, b, e, version, n, m.next, ReplacedKids(kids, 0, cs, b, e));
      }
    }
  }

  lemma OnlyAll(s: Seg)
    requires |s.chs| == |s.keys| + 1
    ensures Onward(s, 0) == s
  {
  }

  lemma ShareExact(t: Tree, cs: seq<Change>, b: nat, version: nat, n: nat)
    requires b <= |cs| && Distinct(t)
    ensures Exact(One(t), Ids(t), [], RunIds(cs, b, b), Inner(version, n, n))
  {
    OneIds(t);
    assert Elements([]) == {};
  }

  lemma LeafExact(t: Tree, cs: seq<Change>, b: nat, version: nat, n: nat)
    requires t.Leaf? && b < |cs| && Separate(cs)
    ensures Exact(cs[b].run, Ids(t), [t.id], RunIds(cs, b, b + 1), Inner(version, n, n))
  {
    RunIdsOne(cs, b);
    assert Elements([t.id]) == {t.id};
  }

  lemma {:induction false} MergeKidsExact(s: Seg, i: nat, cs: seq<Change>, b: nat, e: nat, version: nat, n: nat)
    requires b <= e <= |cs| && AllShaped(cs) && Separate(cs) && i < |s.chs| == |s.keys| + 1 && AcceptedKids(s, i, cs, b, e)
    requires SegDistinct(Onward(s, i)) && Older(SegIds(Onward(s, i)), cs, version)
    ensures var r := MergeKids(s, i, cs, b, e, version, n);
            n <= r.next && Exact(r.run, SegIds(Onward(s, i)), ReplacedKids(s, i, cs, b, e), RunIds(cs, b, e), Inner(version, n, r.next))
    decreases s, |s.chs| - i
  {
    hide Exact, Merge, Replaced, Accepted, Separate, RunIds, Inner, Cut, Join, Onward;
    OnwardIds(s, i);
    var m := if i == |s.keys| then e else Cut(cs, b, e, s.keys[i]);
    MergeExact(s.chs[i], cs, b, m, version, n);
    if i < |s.keys| {
      var r := Merge(s.chs[i], cs, b, m, version, n);
      MergeKidsExact(s, i + 1, cs, m, e, version, r.next);
      var rest := MergeKids(s, i + 1, cs, m, e, version, r.next);
      JoinExact(r.run, s.keys[i], rest.run, Ids(s.chs[i]), SegIds(Onward(s, i + 1)),
                Replaced(s.chs[i], cs, b, m), ReplacedKids(s, i + 1, cs, m, e), cs, b, m, e, version, n, r.next, rest.next);
    }
  }

  lemma OnwardIds(s: Seg, i: nat)
    requires i < |s.chs| == |s.keys| + 1 && SegDistinct(Onward(s, i))
    ensures Distinct(s.chs[i])
    ensures i == |s.keys| ==> SegIds(Onward(s, i)) == Ids(s.chs[i])
    ensures i < |s.keys| ==> SegDistinct(Onward(s, i + 1)) && Ids(s.chs[i]) !! SegIds(Onward(s, i + 1))
                             && SegIds(Onward(s, i)) == Ids(s.chs[i]) + SegIds(Onward(s, i + 1))
  {
    hide SegIds, Ids, Distinct;
    OneIds(s.chs[i]);
    if i < |s.keys| {
      OnwardStep(s, i);
      SplitDistinct(One(s.chs[i]), s.keys[i], Onward(s, i + 1));
      JoinIds(One(s.chs[i]), s.keys[i], Onward(s, i + 1));
    } else if i == 0 {
      OnlyChild(s);
    } else {
      OnwardStep(s, 0);
    }
  }

  lemma JoinExact(r: Seg, sep: Key, rest: Seg, left: set<Id>, right: set<Id>, p: seq<Id>, q: seq<Id>,
                  cs: seq<Change>, b: nat, m: nat, e: nat, version: nat, n: nat, n1: nat, n2: nat)
    requires b <= m <= e <= |cs| && n <= n1 <= n2 && left !! right && Separate(cs) && Older(left + right, cs, version)
    requires Exact(r, left, p, RunIds(cs, b, m), Inner(version, n, n1))
    requires Exact(rest, right, q, RunIds(cs, m, e), Inner(version, n1, n2))
    ensures Exact(Join(r, sep, rest), left + right, p + q, RunIds(cs, b, e), Inner(version, n, n2))
  {
    hide SegDistinct, SegIds, Elements, Once, RunIds, Separate, Join;
    RunIdsSplit(cs, b, m, e);
    RunIdsSplit(cs, b, b, m);
    RunIdsSplit(cs, m, m, e);
    InnerSplit(version, n, n1, n2);
    Appended(p, q);
    assert SegIds(r) !! SegIds(rest);
    JoinIds(r, sep, rest);
    JoinDistinct(r, sep, rest);
  }

  lemma PackExact(t: Tree, s: Seg, cs: seq<Change>, b: nat, e: nat, version: nat, n: nat, n1: nat, p: seq<Id>)
    requires t.Node? && t.id !in SegIds(t.kids) && Older(Ids(t), cs, version) && b <= e <= |cs| && n <= n1
    requires |s.chs| == |s.keys| + 1 && Separate(cs) && Exact(s, SegIds(t.kids), p, RunIds(cs, b, e), Inner(version, n, n1))
    ensures Exact(Pack(s, version, n1).run, Ids(t), p + [t.id], RunIds(cs, b, e), Inner(version, n, Pack(s, version, n1).next))
  {
    hide SegDistinct, SegIds, Elements, Once, RunIds, Separate;
    RunIdsSplit(cs, b, b, e);
    InnerSplit(version, n, n1, Pack(s, version, n1).next);
    InnerSplit(version, n1, n1, n1);
    Appended(p, [t.id]);
    LastOnce(t.id);
    NoneAhead(s, t, p, cs, b, e, version, n, n1);
    PackIds(s, version, n1);
  }

  lemma LastOnce(id: Id)
    ensures Elements([id]) == {id} && Once([id])
  {
  }

  /** The numbers the new nodes will get are not in use. */
  lemma NoneAhead(s: Seg, t: Tree, p: seq<Id>, cs: seq<Change>, b: nat, e: nat, version: nat, n: nat, n1: nat)
    requires t.Node? && Older(Ids(t), cs, version) && b <= e <= |cs| && Separate(cs)
    requires Exact(s, SegIds(t.kids), p, RunIds(cs, b, e), Inner(version, n, n1))
    ensures New(version, n1, WholeNode) !in SegIds(s) && New(version, n1 + 1, WholeNode) !in SegIds(s)
    ensures Ids(t) == {t.id} + SegIds(t.kids)
  {
    hide SegDistinct, SegIds, RunIds, Separate;
    RunIdsSplit(cs, b, b, e);
  }

  lemma PackIds(s: Seg, version: nat, n: nat)
    requires |s.chs| == |s.keys| + 1 && |s.chs| >= 1 && SegDistinct(s)
    requires New(version, n, WholeNode) !in SegIds(s) && New(version, n + 1, WholeNode) !in SegIds(s)
    ensures var p := Pack(s, version, n);
            SegDistinct(p.run) && n < p.next <= n + 2 && SegIds(p.run) == SegIds(s) + Inner(version, n, p.next)
  {
    hide SegDistinct, SegIds;
    InnerSplit(version, n, n, n);
    if |s.chs| <= 2 * B {
      OneIds(Node(New(version, n, WholeNode), version, s));
    } else {
      var i := |s.chs| / 2 - 1;
      var l := Node(New(version, n, WholeNode), version, Before(s, i));
      var r := Node(New(version, n + 1, WholeNode), version, After(s, i));
      CutIds(s, i);
      TwoIds(l, s.keys[i], r);
    }
  }

  lemma CutIds(s: Seg, i: nat)
    requires |s.chs| == |s.keys| + 1 && i < |s.keys| && SegDistinct(s)
    ensures SegDistinct(Before(s, i)) && SegDistinct(After(s, i)) && SegIds(Before(s, i)) !! SegIds(After(s, i))
    ensures SegIds(s) == SegIds(Before(s, i)) + SegIds(After(s, i))
  {
    hide SegDistinct, SegIds;
    assert s.keys == s.keys[..i] + [s.keys[i]] + s.keys[i+1..];
    assert s.chs == s.chs[..i+1] + s.chs[i+1..];
    assert s == Join(Before(s, i), s.keys[i], After(s, i));
    SplitDistinct(Before(s, i), s.keys[i], After(s, i));
    JoinIds(Before(s, i), s.keys[i], After(s, i));
  }

  // ---- the replaced nodes are the changed paths ------------------------------

  ghost predicate OnPath(t: Tree, cs: seq<Change>, b: nat, e: nat, x: Id)
    requires b <= e <= |cs|
  {
    exists j :: b <= j < e && x in Path(t, cs[j].route)
  }

  ghost predicate OnSegPath(s: Seg, cs: seq<Change>, b: nat, e: nat, x: Id)
    requires b <= e <= |cs|
  {
    exists j :: b <= j < e && x in SegPath(s, cs[j].route)
  }

  /** Exactly the nodes on the search paths of the changes are replaced. */
  lemma {:induction false} ReplacedArePaths(t: Tree, cs: seq<Change>, b: nat, e: nat, side: Side, lo: nat, hi: nat, h: nat, x: Id)
    requires Wf(t, side, lo, hi, h) && b <= e <= |cs| && Ascends(cs) && RoutesIn(cs, b, e, lo, hi)
    ensures x in Replaced(t, cs, b, e) <==> OnPath(t, cs, b, e, x)
    decreases t, 0
  {
    if b < e {
      match t {
        case Leaf(_, _, _, _) => assert x == t.id ==> x in Path(t, cs[b].route);
        case Node(_, _, kids) =>
          ReplacedKidsPaths(kids, 0, cs, b, e, side, lo, hi, h - 1, x);
          assert x == t.id ==> x in Path(t, cs[b].route);
          assert forall j :: b <= j < e ==> (x in Path(t, cs[j].route) <==> x == t.id || x in SegPath(kids, cs[j].route));
      }
    }
  }

  lemma {:induction false} ReplacedKidsPaths(s: Seg, i: nat, cs: seq<Change>, b: nat, e: nat, side: Side, lo: nat, hi: nat, h: nat, x: Id)
    requires Fits(s, side, lo, hi, h) && i < |s.chs| && b <= e <= |cs| && Ascends(cs)
    requires RoutesIn(cs, b, e, LoAt(s.keys, lo, i), hi)
    ensures x in ReplacedKids(s, i, cs, b, e) <==> OnSegPath(s, cs, b, e, x)
    decreases s, |s.chs| - i
  {
    hide Replaced, Wf, Cut, Path, SegPath, OnPath;
    var m := if i == |s.keys| then e else Cut(cs, b, e, s.keys[i]);
    if i < |s.keys| {
      CutRange(s, i, cs, b, e, lo, hi);
    }
    ReplacedArePaths(s.chs[i], cs, b, m, side, LoAt(s.keys, lo, i), HiAt(s.keys, hi, i), h, x);
    ChildPaths(s, i, cs, b, m, lo, hi, x);
    if i < |s.keys| {
      ReplacedKidsPaths(s, i + 1, cs, m, e, side, lo, hi, h, x);
    }
  }

  lemma ChildPaths(s: Seg, i: nat, cs: seq<Change>, b: nat, m: nat, lo: nat, hi: nat, x: Id)
    requires |s.chs| == |s.keys| + 1 && i < |s.chs| && Sorted(s.keys) && b <= m <= |cs|
    requires RoutesIn(cs, b, m, LoAt(s.keys, lo, i), HiAt(s.keys, hi, i))
    ensures OnPath(s.chs[i], cs, b, m, x) <==> OnSegPath(s, cs, b, m, x)
  {
    forall j | b <= j < m ensures SegPath(s, cs[j].route) == Path(s.chs[i], cs[j].route) {
      FindChIs(s.keys, cs[j].route, i, lo, hi);
    }
  }
}
