/** The map a batched merge of a BeTree shows, and when it raises an exception. */
module BeMergeOk {
  import opened Options
  import opened Records
  import opened Nodes
  import opened BeTree
  import opened BeUpdate
  import opened BeUpdateOk
  import opened BeMerge
  import opened BeRebuild
  import opened BeAppend

  // ---- changes --------------------------------------------------------------

  ghost predicate Ascends(cs: seq<Change>) {
    forall i, j :: 0 <= i < j < |cs| ==> cs[i].route <= cs[j].route
  }

  ghost predicate RoutesIn(cs: seq<Change>, b: nat, e: nat, lo: nat, hi: nat)
    requires b <= e <= |cs|
  {
    forall j :: b <= j < e ==> lo <= cs[j].route < hi
  }

  /** Each change holds what update_leaf_cow makes of its routed leaf. */
  ghost predicate Prepared(t: Node, cs: seq<Change>, rs: seq<Request>, b: nat, e: nat, side: Side, v: nat)
    requires b <= e <= |cs| == |rs|
  {
    forall j :: b <= j < e ==> PreparedAt(t, cs[j], rs[j], side, v)
  }

  ghost predicate PreparedAt(t: Node, c: Change, r: Request, side: Side, v: nat) {
    c.route == r.key && Asked(r, side, v) && Route(t, r.key).Leaf? && c.run == LeafCopies(Route(t, r.key), side, r, 0)
  }

  /** The value of a key after the requests of a range, else what was there. */
  function Written(rs: seq<Request>, b: nat, e: nat, k: Key, prior: Option<Val>): Option<Val>
    requires b <= e <= |rs|
    decreases e - b
  {
    if b == e then prior else if rs[b].key == k then Some(rs[b].val) else Written(rs, b + 1, e, k, prior)
  }

  lemma {:induction false} WrittenSplit(rs: seq<Request>, b: nat, m: nat, e: nat, k: Key, prior: Option<Val>)
    requires b <= m <= e <= |rs|
    ensures Written(rs, b, e, k, prior) == Written(rs, b, m, k, Written(rs, m, e, k, prior))
    decreases m - b
  {
    if b < m { WrittenSplit(rs, b + 1, m, e, k, prior); }
  }

  lemma {:induction false} WrittenNot(rs: seq<Request>, b: nat, e: nat, k: Key, prior: Option<Val>)
    requires b <= e <= |rs| && forall j :: b <= j < e ==> rs[j].key != k
    ensures Written(rs, b, e, k, prior) == prior
    decreases e - b
  {
    if b < e { WrittenNot(rs, b + 1, e, k, prior); }
  }

  lemma {:induction false} CutIs(cs: seq<Change>, b: nat, e: nat, bound: Key)
    requires b <= e <= |cs| && Ascends(cs)
    ensures forall j :: b <= j < Cut(cs, b, e, bound) ==> cs[j].route < bound
    ensures forall j :: Cut(cs, b, e, bound) <= j < e ==> bound <= cs[j].route
    decreases e - b
  {
    if b < e && cs[b].route < bound { CutIs(cs, b + 1, e, bound); }
  }

  /** Where the changes of child i end. */
  function Upto(keys: seq<Key>, i: nat, cs: seq<Change>, b: nat, e: nat): (m: nat)
    requires i <= |keys| && b <= e <= |cs|
    ensures b <= m <= e
  {
    if i == |keys| then e else Cut(cs, b, e, keys[i])
  }

  lemma UptoIs(keys: seq<Key>, i: nat, cs: seq<Change>, b: nat, e: nat, lo: nat, hi: nat)
    requires i <= |keys| && b <= e <= |cs| && Ascends(cs) && RoutesIn(cs, b, e, LoAt(keys, lo, i), hi)
    ensures RoutesIn(cs, b, Upto(keys, i, cs, b, e), LoAt(keys, lo, i), HiAt(keys, hi, i))
    ensures i < |keys| ==> RoutesIn(cs, Upto(keys, i, cs, b, e), e, keys[i], hi)
  {
    if i < |keys| { CutIs(cs, b, e, keys[i]); }
  }

  lemma ChildRoute(t: Node, i: nat, side: Side, lo: nat, hi: nat, key: Key)
    requires t.Inner? && RowOk(t.keys, t.chs, side, lo, hi) && i < |t.chs| && LoAt(t.keys, lo, i) <= key < HiAt(t.keys, hi, i)
    ensures Route(t, key) == Route(t.chs[i], key) && FindCh(t.keys, key) == i
  {
    hide Ordered, RowOk;
    RowFacts(t.keys, t.chs, side, lo, hi, i);
    FindChIs(t.keys, key, i, lo, hi);
  }

  lemma ChildPrepared(t: Node, i: nat, cs: seq<Change>, rs: seq<Request>, b: nat, e: nat, side: Side, v: nat, lo: nat, hi: nat)
    requires t.Inner? && RowOk(t.keys, t.chs, side, lo, hi) && i < |t.chs| && b <= e <= |cs| == |rs|
    requires Prepared(t, cs, rs, b, e, side, v) && RoutesIn(cs, b, e, LoAt(t.keys, lo, i), HiAt(t.keys, hi, i))
    ensures Prepared(t.chs[i], cs, rs, b, e, side, v)
  {
    hide RowOk, LeafCopies, Asked, Route;
    forall j | b <= j < e ensures PreparedAt(t.chs[i], cs[j], rs[j], side, v) {
      assert PreparedAt(t, cs[j], rs[j], side, v);
      ChildRoute(t, i, side, lo, hi, rs[j].key);
    }
  }

  // ---- rows -----------------------------------------------------------------

  function RunRow(run: Run): Row {
    match run case One(t) => Row([], [t]) case Two(left, sep, right) => Row([sep], [left, right])
  }

  lemma RunRowOk(run: Run, side: Side, lo: nat, hi: nat, v: nat, k: Key)
    requires RunOk(run, side, lo, hi) && lo <= k < hi
    ensures RowOk(RunRow(run).keys, RunRow(run).chs, side, lo, hi)
    ensures RowGet(RunRow(run).keys, RunRow(run).chs, side, v, k) == RunGet(run, side, v, k)
  {
    hide Ordered, Get;
  }

  lemma JoinGet(a: Row, sep: Key, b: Row, side: Side, v: nat, lo: nat, hi: nat, k: Key)
    requires RowOk(a.keys, a.chs, side, lo, sep) && RowOk(b.keys, b.chs, side, sep, hi) && lo < sep < hi && lo <= k < hi
    ensures RowGet(Join(a, sep, b).keys, Join(a, sep, b).chs, side, v, k)
            == if k < sep then RowGet(a.keys, a.chs, side, v, k) else RowGet(b.keys, b.chs, side, v, k)
  {
    hide Ordered, Get, RowOk;
    var r := Join(a, sep, b);
    JoinOk(a, sep, b, side, lo, hi);
    RowShape(a.keys, a.chs, side, lo, sep);
    RowShape(b.keys, b.chs, side, sep, hi);
    RowShape(r.keys, r.chs, side, lo, hi);
    if k < sep {
      var p := FindCh(a.keys, k);
      FindChAt(a.keys, k, lo, sep);
      assert LoAt(r.keys, lo, p) == LoAt(a.keys, lo, p) && HiAt(r.keys, hi, p) == HiAt(a.keys, sep, p);
      FindChIs(r.keys, k, p, lo, hi);
    } else {
      var p := FindCh(b.keys, k);
      FindChAt(b.keys, k, sep, hi);
      var q := |a.chs| + p;
      assert LoAt(r.keys, lo, q) == LoAt(b.keys, sep, p) && HiAt(r.keys, hi, q) == HiAt(b.keys, hi, p);
      FindChIs(r.keys, k, q, lo, hi);
    }
  }

  /** A row cut between children c - 1 and c. */
  lemma SplitRow(keys: seq<Key>, chs: seq<Node>, c: nat, side: Side, lo: nat, hi: nat, v: nat, k: Key)
    requires RowOk(keys, chs, side, lo, hi) && 0 < c < |chs| && lo <= k < hi && |chs| == |keys| + 1
    ensures lo < keys[c-1] < hi
    ensures RowOk(keys[..c-1], chs[..c], side, lo, keys[c-1]) && RowOk(keys[c..], chs[c..], side, keys[c-1], hi)
    ensures RowGet(keys, chs, side, v, k) == if k < keys[c-1] then RowGet(keys[..c-1], chs[..c], side, v, k) else RowGet(keys[c..], chs[c..], side, v, k)
  {
    hide Ordered, Get, RowGet;
    SplitParts(keys, chs, c, side, lo, hi);
    var a, b := Row(keys[..c-1], chs[..c]), Row(keys[c..], chs[c..]);
    assert Join(a, keys[c-1], b) == Row(keys, chs);
    JoinGet(a, keys[c-1], b, side, v, lo, hi, k);
  }

  lemma SplitParts(keys: seq<Key>, chs: seq<Node>, c: nat, side: Side, lo: nat, hi: nat)
    requires RowOk(keys, chs, side, lo, hi) && 0 < c < |chs| && |chs| == |keys| + 1
    ensures lo < keys[c-1] < hi
    ensures RowOk(keys[..c-1], chs[..c], side, lo, keys[c-1]) && RowOk(keys[c..], chs[c..], side, keys[c-1], hi)
  {
    hide Ordered;
    var sep := keys[c-1];
    forall j | 0 <= j < c ensures Ordered(chs[..c][j], side, LoAt(keys[..c-1], lo, j), HiAt(keys[..c-1], sep, j)) {
      assert chs[..c][j] == chs[j];
    }
    forall j | 0 <= j < |chs| - c ensures Ordered(chs[c..][j], side, LoAt(keys[c..], sep, j), HiAt(keys[c..], hi, j)) {
      assert chs[c..][j] == chs[c + j];
    }
  }

  lemma NodeOk(u: Node, keys: seq<Key>, chs: seq<Node>, side: Side, lo: nat, hi: nat, v: nat, k: Key)
    requires u.Inner? && u.keys == keys && u.chs == chs && RowOk(keys, chs, side, lo, hi)
    ensures Ordered(u, side, lo, hi) && Get(u, side, v, k) == RowGet(keys, chs, side, v, k)
  {
    hide RowOk;
    InnerRow(u, side, lo, hi);
    InnerGet(u, side, v, k);
  }

  lemma PackOk(t: Node, ticket: nat, names: Names, keys: seq<Key>, chs: seq<Node>, side: Side, lo: nat, hi: nat, v: nat, k: Key)
    requires t.Inner? && RowOk(keys, chs, side, lo, hi) && |chs| == |keys| + 1 && lo <= k < hi
    ensures RunOk(Pack(t, ticket, names, keys, chs), side, lo, hi)
    ensures RunGet(Pack(t, ticket, names, keys, chs), side, v, k) == RowGet(keys, chs, side, v, k)
  {
    hide Ordered, Get, RowOk, RowGet;
    var n := |chs|;
    var run := Pack(t, ticket, names, keys, chs);
    if n <= 2 * B {
      NodeOk(run.t, keys, chs, side, lo, hi, v, k);
    } else {
      var c := n / 2;
      SplitRow(keys, chs, c, side, lo, hi, v, k);
      NodeOk(run.left, keys[..c-1], chs[..c], side, lo, keys[c-1], v, k);
      NodeOk(run.right, keys[c..], chs[c..], side, keys[c-1], hi, v, k);
    }
  }

  lemma WrappedOk(t: Node, run: Run, ticket: nat, names: Names, side: Side, lo: nat, hi: nat, v: nat, k: Key)
    requires RunOk(run, side, lo, hi) && lo <= k < hi
    ensures var u := Wrapped(t, run, ticket, names); Ordered(u, side, lo, hi) && Get(u, side, v, k) == RunGet(run, side, v, k)
  {
    hide Ordered, Get;
    if run.Two? { PairOk(Wrapped(t, run, ticket, names), run, side, lo, hi, v, k); }
  }

  // ---- the merge ------------------------------------------------------------

  lemma WrittenBelow(rs: seq<Request>, cs: seq<Change>, b: nat, m: nat, e: nat, sep: Key, lo: nat, hi: nat, k: Key, prior: Option<Val>)
    requires b <= m <= e <= |cs| == |rs| && (forall j :: b <= j < e ==> cs[j].route == rs[j].key)
    requires RoutesIn(cs, b, m, lo, sep) && RoutesIn(cs, m, e, sep, hi)
    ensures Written(rs, b, e, k, prior) == if k < sep then Written(rs, b, m, k, prior) else Written(rs, m, e, k, prior)
  {
    WrittenSplit(rs, b, m, e, k, prior);
    if k < sep { WrittenNot(rs, m, e, k, prior); } else { WrittenNot(rs, b, m, k, Written(rs, m, e, k, prior)); }
  }

  lemma PreparedRoutes(t: Node, cs: seq<Change>, rs: seq<Request>, b: nat, e: nat, side: Side, v: nat)
    requires b <= e <= |cs| == |rs| && Prepared(t, cs, rs, b, e, side, v)
    ensures forall j :: b <= j < e ==> cs[j].route == rs[j].key
  {
    hide LeafCopies, Route, Asked;
    forall j | b <= j < e ensures cs[j].route == rs[j].key {
      assert PreparedAt(t, cs[j], rs[j], side, v);
    }
  }

  /** An accepted merge keeps the order of keys and shows the old map with the
      changes written over it. */
  lemma {:induction false} MergeOk(t: Node, cs: seq<Change>, rs: seq<Request>, b: nat, e: nat, ticket: nat, names: Names,
                                   side: Side, lo: nat, hi: nat, v: nat, k: Key)
    requires b <= e <= |cs| == |rs| && Ordered(t, side, lo, hi) && Prepared(t, cs, rs, b, e, side, v) && Ascends(cs)
    requires RoutesIn(cs, b, e, lo, hi) && lo <= k < hi && Merge(t, cs, b, e, ticket, names).ok
    ensures var run := Merge(t, cs, b, e, ticket, names).run;
            RunOk(run, side, lo, hi) && RunGet(run, side, v, k) == Written(rs, b, e, k, Get(t, side, v, k))
    decreases t, 0, 0
  {
    hide Ordered, RowOk, Get, RowGet, LeafCopies, MergeKids, BoundaryKids, Pack, RunOk, RunGet, Asked;
    if b == e {
      OneIs(t, side, lo, hi, v, k);
    } else if t.Leaf? {
      LeafChange(t, cs, rs, b, side, lo, hi, v, k);
    } else {
      InnerRow(t, side, lo, hi);
      InnerGet(t, side, v, k);
      if t.kind == Boundary {
        BoundaryOk(t, 0, cs, rs, b, e, ticket, names, side, lo, hi, v, k);
        var ks := BoundaryKids(t.keys, t.chs, 0, cs, b, e, ticket, names);
        assert t.keys[0..] == t.keys;
        var u := Like(t, ticket, names, WholeNode, t.keys, ks.chs);
        NodeOk(u, t.keys, ks.chs, side, lo, hi, v, k);
        OneIs(u, side, lo, hi, v, k);
      } else {
        MergeKidsOk(t, 0, cs, rs, b, e, ticket, names, side, lo, hi, v, k);
        var ks := MergeKids(t.keys, t.chs, 0, cs, b, e, ticket, names);
        PackOk(t, ticket, names, ks.keys, ks.chs, side, lo, hi, v, k);
      }
    }
  }

  lemma OneIs(t: Node, side: Side, lo: nat, hi: nat, v: nat, k: Key)
    ensures RunOk(One(t), side, lo, hi) <==> Ordered(t, side, lo, hi)
    ensures RunGet(One(t), side, v, k) == Get(t, side, v, k)
  {
    hide Ordered, Get;
  }

  lemma LeafChange(t: Node, cs: seq<Change>, rs: seq<Request>, b: nat, side: Side, lo: nat, hi: nat, v: nat, k: Key)
    requires t.Leaf? && Ordered(t, side, lo, hi) && b < |cs| == |rs| && PreparedAt(t, cs[b], rs[b], side, v) && lo <= cs[b].route < hi && lo <= k < hi
    ensures RunOk(cs[b].run, side, lo, hi) && RunGet(cs[b].run, side, v, k) == Written(rs, b, b + 1, k, Get(t, side, v, k))
  {
    hide Ordered, Get, LeafCopies, RunOk, RunGet;
    LeafCopiesOk(t, side, rs[b], 0, lo, hi, v, k);
    assert Written(rs, b + 1, b + 1, k, Get(t, side, v, k)) == Get(t, side, v, k);
  }

  /** A row of merged children from i on. */
  ghost predicate RowMerged(keys: seq<Key>, chs: seq<Node>, t: Node, rs: seq<Request>, b: nat, e: nat, side: Side, lo: nat, hi: nat, v: nat, k: Key)
    requires b <= e <= |rs| && t.Inner?
  {
    && RowOk(keys, chs, side, lo, hi)
    && (lo <= k < hi ==> RowGet(keys, chs, side, v, k) == Written(rs, b, e, k, RowGet(t.keys, t.chs, side, v, k)))
  }

  /** The child of index i and its changes, merged. */
  lemma {:induction false} KidOk(t: Node, i: nat, cs: seq<Change>, rs: seq<Request>, b: nat, e: nat, ticket: nat, names: Names,
                                 side: Side, lo: nat, hi: nat, v: nat, k: Key)
    requires t.Inner? && i < |t.chs| == |t.keys| + 1 && b <= e <= |cs| == |rs| && RowOk(t.keys, t.chs, side, lo, hi)
    requires Prepared(t, cs, rs, b, e, side, v) && Ascends(cs) && RoutesIn(cs, b, e, LoAt(t.keys, lo, i), HiAt(t.keys, hi, i))
    requires Merge(t.chs[i], cs, b, e, ticket, names).ok
    ensures var run, l, h := Merge(t.chs[i], cs, b, e, ticket, names).run, LoAt(t.keys, lo, i), HiAt(t.keys, hi, i);
            l < h && RunOk(run, side, l, h) && (l <= k < h ==> RunGet(run, side, v, k) == Written(rs, b, e, k, RowGet(t.keys, t.chs, side, v, k)))
    decreases t.chs, 1, 0
  {
    hide Ordered, RowOk, Get, Merge, RunOk, RunGet, Asked, Prepared;
    var l, h := LoAt(t.keys, lo, i), HiAt(t.keys, hi, i);
    RowFacts(t.keys, t.chs, side, lo, hi, i);
    OrderedRange(t.chs[i], side, l, h);
    ChildPrepared(t, i, cs, rs, b, e, side, v, lo, hi);
    var inside := if l <= k < h then k else l;
    MergeOk(t.chs[i], cs, rs, b, e, ticket, names, side, l, h, v, inside);
    if l <= k < h { FindChIs(t.keys, k, i, lo, hi); }
  }

  lemma PreparedSub(t: Node, cs: seq<Change>, rs: seq<Request>, b: nat, m: nat, e: nat, side: Side, v: nat)
    requires b <= m <= e <= |cs| == |rs| && Prepared(t, cs, rs, b, e, side, v)
    ensures Prepared(t, cs, rs, b, m, side, v) && Prepared(t, cs, rs, m, e, side, v)
  {
    hide PreparedAt;
  }

  /** One more child in front of the merged ones. */
  lemma FrontOk(a: Row, rest: Row, t: Node, i: nat, cs: seq<Change>, rs: seq<Request>, b: nat, m: nat, e: nat, side: Side, lo: nat, hi: nat, v: nat, k: Key)
    requires t.Inner? && i < |t.keys| && b <= m <= e <= |cs| == |rs| && lo < t.keys[i] < hi && (forall j :: b <= j < e ==> cs[j].route == rs[j].key)
    requires RoutesIn(cs, b, m, lo, t.keys[i]) && RoutesIn(cs, m, e, t.keys[i], hi)
    requires RowMerged(a.keys, a.chs, t, rs, b, m, side, lo, t.keys[i], v, k) && RowMerged(rest.keys, rest.chs, t, rs, m, e, side, t.keys[i], hi, v, k)
    ensures var r := Join(a, t.keys[i], rest); RowMerged(r.keys, r.chs, t, rs, b, e, side, lo, hi, v, k)
  {
    hide RowOk, RowGet, Written, Join;
    JoinOk(a, t.keys[i], rest, side, lo, hi);
    if lo <= k < hi {
      JoinGet(a, t.keys[i], rest, side, v, lo, hi, k);
      WrittenBelow(rs, cs, b, m, e, t.keys[i], lo, hi, k, RowGet(t.keys, t.chs, side, v, k));
    }
  }

  lemma RunMerged(run: Run, t: Node, rs: seq<Request>, b: nat, e: nat, side: Side, lo: nat, hi: nat, v: nat, k: Key)
    requires t.Inner? && b <= e <= |rs| && lo < hi && RunOk(run, side, lo, hi)
    requires lo <= k < hi ==> RunGet(run, side, v, k) == Written(rs, b, e, k, RowGet(t.keys, t.chs, side, v, k))
    ensures RowMerged(RunRow(run).keys, RunRow(run).chs, t, rs, b, e, side, lo, hi, v, k)
  {
    hide RowOk, RowGet, RunOk, RunGet;
    RunRowOk(run, side, lo, hi, v, if lo <= k < hi then k else lo);
  }

  lemma {:induction false} MergeKidsOk(t: Node, i: nat, cs: seq<Change>, rs: seq<Request>, b: nat, e: nat, ticket: nat, names: Names,
                                       side: Side, lo: nat, hi: nat, v: nat, k: Key)
    requires t.Inner? && i < |t.chs| == |t.keys| + 1 && b <= e <= |cs| == |rs| && RowOk(t.keys, t.chs, side, lo, hi)
    requires Prepared(t, cs, rs, b, e, side, v) && Ascends(cs) && RoutesIn(cs, b, e, LoAt(t.keys, lo, i), hi)
    requires MergeKids(t.keys, t.chs, i, cs, b, e, ticket, names).ok
    ensures var ks := MergeKids(t.keys, t.chs, i, cs, b, e, ticket, names);
            RowMerged(ks.keys, ks.chs, t, rs, b, e, side, LoAt(t.keys, lo, i), hi, v, k)
    decreases t.chs, 2, |t.chs| - i
  {
    hide RowOk, Merge, RunOk, RunGet, Prepared, RoutesIn, Ascends, RowMerged, RowGet;
    var m := Upto(t.keys, i, cs, b, e);
    UptoIs(t.keys, i, cs, b, e, lo, hi);
    PreparedSub(t, cs, rs, b, m, e, side, v);
    KidOk(t, i, cs, rs, b, m, ticket, names, side, lo, hi, v, k);
    var c := Merge(t.chs[i], cs, b, m, ticket, names);
    RunMerged(c.run, t, rs, b, m, side, LoAt(t.keys, lo, i), HiAt(t.keys, hi, i), v, k);
    if i < |t.keys| {
      RowFacts(t.keys, t.chs, side, lo, hi, i);
      KidOrder(t, i, side, lo, hi);
      PreparedRoutes(t, cs, rs, b, e, side, v);
      MergeKidsOk(t, i + 1, cs, rs, m, e, ticket, names, side, lo, hi, v, k);
      var rest := MergeKids(t.keys, t.chs, i + 1, cs, m, e, ticket, names);
      FrontOk(RunRow(c.run), Row(rest.keys, rest.chs), t, i, cs, rs, b, m, e, side, LoAt(t.keys, lo, i), hi, v, k);
    }
  }

  lemma KidOrder(t: Node, i: nat, side: Side, lo: nat, hi: nat)
    requires t.Inner? && RowOk(t.keys, t.chs, side, lo, hi) && i < |t.keys| && |t.chs| == |t.keys| + 1
    ensures LoAt(t.keys, lo, i) < t.keys[i] < hi
  {
    hide Ordered;
  }

  lemma {:induction false} BoundaryOk(t: Node, i: nat, cs: seq<Change>, rs: seq<Request>, b: nat, e: nat, ticket: nat, names: Names,
                                      side: Side, lo: nat, hi: nat, v: nat, k: Key)
    requires t.Inner? && i < |t.chs| == |t.keys| + 1 && b <= e <= |cs| == |rs| && RowOk(t.keys, t.chs, side, lo, hi)
    requires Prepared(t, cs, rs, b, e, side, v) && Ascends(cs) && RoutesIn(cs, b, e, LoAt(t.keys, lo, i), hi)
    requires BoundaryKids(t.keys, t.chs, i, cs, b, e, ticket, names).ok
    ensures var ks := BoundaryKids(t.keys, t.chs, i, cs, b, e, ticket, names);
            RowMerged(t.keys[i..], ks.chs, t, rs, b, e, side, LoAt(t.keys, lo, i), hi, v, k)
    decreases t.chs, 2, |t.chs| - i
  {
    hide RowOk, Merge, RunOk, RunGet, Prepared, RoutesIn, Ascends, RowMerged, RowGet, Wrapped;
    var m := Upto(t.keys, i, cs, b, e);
    UptoIs(t.keys, i, cs, b, e, lo, hi);
    PreparedSub(t, cs, rs, b, m, e, side, v);
    KidOk(t, i, cs, rs, b, m, ticket, names, side, lo, hi, v, k);
    var c := Merge(t.chs[i], cs, b, m, ticket, names);
    var l, h := LoAt(t.keys, lo, i), HiAt(t.keys, hi, i);
    WrappedOk(t.chs[i], c.run, ticket, names, side, l, h, v, if l <= k < h then k else l);
    var u := Wrapped(t.chs[i], c.run, ticket, names);
    OneIs(u, side, l, h, v, k);
    RunMerged(One(u), t, rs, b, m, side, l, h, v, k);
    if i < |t.keys| {
      KidOrder(t, i, side, lo, hi);
      PreparedRoutes(t, cs, rs, b, e, side, v);
      BoundaryOk(t, i + 1, cs, rs, m, e, ticket, names, side, lo, hi, v, k);
      var rest := BoundaryKids(t.keys, t.chs, i + 1, cs, m, e, ticket, names);
      FrontOk(Row([], [u]), Row(t.keys[i+1..], rest.chs), t, i, cs, rs, b, m, e, side, l, hi, v, k);
      assert t.keys[i..] == [] + [t.keys[i]] + t.keys[i+1..];
    } else {
      assert t.keys[i..] == [];
    }
  }
}
