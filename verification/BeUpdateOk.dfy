/** One update of a BeTree changes the map at its key only, for every snapshot
    that includes it. */
module BeUpdateOk {
  import opened Options
  import opened Records
  import opened Nodes
  import opened BeTree
  import opened BeUpdate
  import BTree
  import BTreeCow

  ghost predicate RunOk(run: Run, side: Side, lo: nat, hi: nat) {
    match run
    case One(t) => Ordered(t, side, lo, hi)
    case Two(left, sep, right) => lo < sep < hi && Ordered(left, side, lo, sep) && Ordered(right, side, sep, hi)
  }

  function RunGet(run: Run, side: Side, v: nat, k: Key): Option<Val> {
    match run
    case One(t) => Get(t, side, v, k)
    case Two(left, sep, right) => if k < sep then Get(left, side, v, k) else Get(right, side, v, k)
  }

  /** What a lookup finds once the request is in. */
  function After(r: Request, k: Key, before: Option<Val>): Option<Val> {
    if k == r.key then Some(r.val) else before
  }

  // ---- leaves ---------------------------------------------------------------

  lemma NewLeaf(id: Id, ticket: nat, verge: nat, keys: seq<Key>, vals: seq<Val>, side: Side, lo: nat, hi: nat, v: nat, k: Key)
    requires BTree.LeafOk(keys, vals, lo, hi) && lo < hi && BTreeCow.Below(side, ticket) && id.New? && id.ticket == ticket
    ensures Ordered(Leaf(id, ticket, verge, keys, vals), side, lo, hi)
    ensures Get(Leaf(id, ticket, verge, keys, vals), side, v, k) == Lookup(Base(keys, vals), k)
  {
    assert BTree.SlotsAt(side, id) == [];
  }

  /** The view of a leaf does not change past its newest slot. */
  lemma ViewSettled(t: Node, side: Side, ticket: nat, v: nat, lo: nat, hi: nat)
    requires t.Leaf? && Ordered(t, side, lo, hi) && BTreeCow.Below(side, ticket) && ticket <= v
    ensures View(t, side, v) == View(t, side, ticket)
  {
    OverlayAll(Base(t.keys, t.vals), BTree.SlotsAt(side, t.id), v, ticket);
  }

  lemma UpdatedView(t: Node, side: Side, r: Request, lo: nat, hi: nat)
    requires t.Leaf? && Ordered(t, side, lo, hi) && lo <= r.key < hi
    ensures var m := View(t, side, r.ticket)[r.key := r.val];
            1 <= |m| <= 2 * MAX_KEYS && forall k :: k in m ==> lo <= k < hi
  {
    hide LeafView;
    BTreeCow.ViewBounds(BTree.Leaf(t.id, t.ver, t.keys, t.vals), side, r.ticket, lo, hi);
    OneKeyMore(View(t, side, r.ticket), r.key, r.val);
  }

  lemma OneKeyMore(m: map<Key, Val>, k: Key, val: Val)
    ensures 1 <= |m[k := val]| <= |m| + 1
  {
    var n := m[k := val];
    assert n.Keys == m.Keys + {k};
    assert |n| == |n.Keys| && |m| == |m.Keys|;
    if k in m { assert n.Keys == m.Keys; }
    assert n.Keys != {} by { assert k in n.Keys; }
  }

  lemma MapLeaves(m: map<Key, Val>, verge: nat, r: Request, stage: nat, side: Side, lo: nat, hi: nat, v: nat, k: Key)
    requires 1 <= |m| <= 2 * MAX_KEYS && (forall k :: k in m ==> lo <= k < hi) && BTreeCow.Below(side, r.ticket) && lo < hi
    ensures forall i :: 0 <= i < |Ascending(m.Keys)| ==> Ascending(m.Keys)[i] in m
    ensures var ks := Ascending(m.Keys);
            var run := CutLeaves(ks, ValuesOf(m, ks), verge, r, stage);
            RunOk(run, side, lo, hi) && RunGet(run, side, v, k) == Lookup(m, k)
  {
    hide Ascending, Base, Ordered, Get, BTreeCow.Below;
    var ks := Ascending(m.Keys);
    BTreeCow.AscendingIn(m.Keys);
    var vs := ValuesOf(m, ks);
    BTreeCow.BaseOf(m, ks);
    assert |ks| == |m.Keys| == |m|;
    KeysBetween(ks, m, lo, hi);
    var n := |ks| / 2;
    if |ks| <= MAX_KEYS {
      NewLeaf(New(r.ticket, stage, WholeLeaf), r.ticket, verge, ks, vs, side, lo, hi, v, k);
    } else {
      BTreeCow.BaseCut(ks, vs, n, k);
      KeysCut(ks, vs, n, lo, hi);
      NewLeaf(New(r.ticket, stage, LeftLeaf), r.ticket, 0, ks[..n], vs[..n], side, lo, ks[n], v, k);
      NewLeaf(New(r.ticket, stage, RightLeaf), r.ticket, 0, ks[n..], vs[n..], side, ks[n], hi, v, k);
    }
  }

  lemma KeysBetween(ks: seq<Key>, m: map<Key, Val>, lo: nat, hi: nat)
    requires (forall i :: 0 <= i < |ks| ==> ks[i] in m) && forall k :: k in m ==> lo <= k < hi
    ensures Within(ks, lo, hi)
  {
  }

  lemma KeysCut(ks: seq<Key>, vs: seq<Val>, n: nat, lo: nat, hi: nat)
    requires |ks| == |vs| && MAX_KEYS < |ks| <= 2 * MAX_KEYS && n == |ks| / 2 && Sorted(ks) && Within(ks, lo, hi)
    ensures lo < ks[n] < hi && BTree.LeafOk(ks[..n], vs[..n], lo, ks[n]) && BTree.LeafOk(ks[n..], vs[n..], ks[n], hi)
  {
    assert lo <= ks[0] < ks[n] < hi;
  }

  lemma LeafCopiesOk(t: Node, side: Side, r: Request, stage: nat, lo: nat, hi: nat, v: nat, k: Key)
    requires t.Leaf? && Ordered(t, side, lo, hi) && BTreeCow.Below(side, r.ticket) && lo <= r.key < hi && r.ticket <= v
    ensures var run := LeafCopies(t, side, r, stage);
            RunOk(run, side, lo, hi) && RunGet(run, side, v, k) == After(r, k, Get(t, side, v, k))
  {
    hide LeafView, Ordered, RunOk, RunGet, Ascending, CutLeaves;
    LeafKeys(t, side, lo, hi);
    UpdatedView(t, side, r, lo, hi);
    MapLeaves(View(t, side, r.ticket)[r.key := r.val], t.verge, r, stage, side, lo, hi, v, k);
    ViewSettled(t, side, r.ticket, v, lo, hi);
  }

  lemma LeafKeys(t: Node, side: Side, lo: nat, hi: nat)
    requires t.Leaf? && Ordered(t, side, lo, hi)
    ensures |t.keys| == |t.vals|
  {
  }

  // ---- splicing -------------------------------------------------------------

  /** The j-th child after a splice, and its bounds. */
  lemma TwoAt(keys: seq<Key>, chs: seq<Node>, i: nat, run: Run, lo: nat, hi: nat, j: nat)
    requires run.Two? && i < |chs| == |keys| + 1 && j <= |chs|
    ensures var ks, cs := SpliceKeys(keys, i, run), SpliceKids(chs, i, run);
            && |ks| == |keys| + 1 && |cs| == |chs| + 1
            && cs[j] == (if j < i then chs[j] else if j == i then run.left else if j == i + 1 then run.right else chs[j-1])
            && LoAt(ks, lo, j) == (if j <= i then LoAt(keys, lo, j) else if j == i + 1 then run.sep else LoAt(keys, lo, j - 1))
            && HiAt(ks, hi, j) == (if j < i then HiAt(keys, hi, j) else if j == i then run.sep else HiAt(keys, hi, j - 1))
  {
  }

  lemma OneAt(keys: seq<Key>, chs: seq<Node>, i: nat, run: Run, j: nat)
    requires run.One? && i < |chs| == |keys| + 1 && j < |chs|
    ensures SpliceKeys(keys, i, run) == keys && |SpliceKids(chs, i, run)| == |chs|
    ensures SpliceKids(chs, i, run)[j] == if j == i then run.t else chs[j]
  {
  }

  lemma SpliceOk(keys: seq<Key>, chs: seq<Node>, i: nat, run: Run, side: Side, lo: nat, hi: nat)
    requires RowOk(keys, chs, side, lo, hi) && i < |chs| == |keys| + 1 && RunOk(run, side, LoAt(keys, lo, i), HiAt(keys, hi, i))
    ensures RowOk(SpliceKeys(keys, i, run), SpliceKids(chs, i, run), side, lo, hi)
  {
    hide Ordered, SpliceKeys, SpliceKids, LoAt, HiAt, Sorted;
    var ks, cs := SpliceKeys(keys, i, run), SpliceKids(chs, i, run);
    if run.One? {
      OneAt(keys, chs, i, run, 0);
      forall j | 0 <= j < |cs| ensures Ordered(cs[j], side, LoAt(ks, lo, j), HiAt(ks, hi, j)) {
        OneAt(keys, chs, i, run, j);
      }
    } else {
      TwoAt(keys, chs, i, run, lo, hi, 0);
      SpliceTwoKeys(keys, i, run.sep, lo, hi);
      SpliceIs(keys, i, run);
      forall j | 0 <= j < |cs| ensures Ordered(cs[j], side, LoAt(ks, lo, j), HiAt(ks, hi, j)) {
        TwoAt(keys, chs, i, run, lo, hi, j);
      }
    }
  }

  lemma SpliceIs(keys: seq<Key>, i: nat, run: Run)
    requires run.Two? && i <= |keys|
    ensures SpliceKeys(keys, i, run) == keys[..i] + [run.sep] + keys[i..]
  {
  }

  lemma SpliceTwoKeys(keys: seq<Key>, i: nat, sep: Key, lo: nat, hi: nat)
    requires i <= |keys| && Sorted(keys) && (forall j :: 0 <= j < |keys| ==> lo < keys[j] < hi) && LoAt(keys, lo, i) < sep < HiAt(keys, hi, i)
    ensures var ks := keys[..i] + [sep] + keys[i..];
            Sorted(ks) && (forall j :: 0 <= j < |ks| ==> lo < ks[j] < hi)
  {
    var ks := keys[..i] + [sep] + keys[i..];
    forall j, k | 0 <= j < k < |ks| ensures ks[j] < ks[k] {
      assert ks[j] == if j < i then keys[j] else if j == i then sep else keys[j-1];
      assert ks[k] == if k < i then keys[k] else if k == i then sep else keys[k-1];
      assert j < i && i > 0 ==> keys[j] <= keys[i-1];
      assert i < |keys| && k > i ==> keys[i] <= keys[k-1];
    }
  }

  /** Only the keys of child i see the replacement. */
  lemma SpliceGet(keys: seq<Key>, chs: seq<Node>, i: nat, run: Run, side: Side, v: nat, lo: nat, hi: nat, k: Key)
    requires RowOk(keys, chs, side, lo, hi) && i < |chs| == |keys| + 1 && RunOk(run, side, LoAt(keys, lo, i), HiAt(keys, hi, i)) && lo <= k < hi
    ensures RowGet(SpliceKeys(keys, i, run), SpliceKids(chs, i, run), side, v, k)
            == if LoAt(keys, lo, i) <= k < HiAt(keys, hi, i) then RunGet(run, side, v, k) else RowGet(keys, chs, side, v, k)
  {
    hide Ordered, RowOk, Get, SpliceKeys, SpliceKids, LoAt, HiAt, Sorted, RunOk;
    RowFacts(keys, chs, side, lo, hi, i);
    SpliceOk(keys, chs, i, run, side, lo, hi);
    var p := FindCh(keys, k);
    FindChAt(keys, k, lo, hi);
    ChildRange(keys, k, i, lo, hi);
    if run.One? {
      OneAt(keys, chs, i, run, p);
    } else {
      var ks := SpliceKeys(keys, i, run);
      var q := if p < i || (p == i && k < run.sep) then p else p + 1;
      TwoAt(keys, chs, i, run, lo, hi, q);
      RowFacts(ks, SpliceKids(chs, i, run), side, lo, hi, 0);
      FindChIs(ks, k, q, lo, hi);
    }
  }

  lemma FindChAt(keys: seq<Key>, k: Key, lo: nat, hi: nat)
    requires Sorted(keys) && lo <= k < hi
    ensures var p := FindCh(keys, k); LoAt(keys, lo, p) <= k < HiAt(keys, hi, p)
  {
  }

  lemma ChildRange(keys: seq<Key>, k: Key, i: nat, lo: nat, hi: nat)
    requires Sorted(keys) && i <= |keys| && lo <= k < hi
    ensures FindCh(keys, k) == i <==> LoAt(keys, lo, i) <= k < HiAt(keys, hi, i)
  {
    FindChAt(keys, k, lo, hi);
    if LoAt(keys, lo, i) <= k < HiAt(keys, hi, i) { FindChIs(keys, k, i, lo, hi); }
  }

  // ---- the way down ---------------------------------------------------------

  lemma InnerGet(t: Node, side: Side, v: nat, k: Key)
    requires t.Inner?
    ensures Get(t, side, v, k) == RowGet(t.keys, t.chs, side, v, k)
  {
  }

  /** The halves of a full node. */
  lemma CutRow(keys: seq<Key>, chs: seq<Node>, side: Side, lo: nat, hi: nat)
    requires RowOk(keys, chs, side, lo, hi) && |keys| == MAX_KEYS && |chs| == 2 * B
    ensures lo < keys[B-1] < hi
    ensures RowOk(keys[..B-1], chs[..B], side, lo, keys[B-1]) && RowOk(keys[B..], chs[B..], side, keys[B-1], hi)
  {
    hide Ordered;
    var sep := keys[B-1];
    forall j | 0 <= j < B ensures Ordered(chs[..B][j], side, LoAt(keys[..B-1], lo, j), HiAt(keys[..B-1], sep, j)) {
      assert chs[..B][j] == chs[j];
    }
    forall j | 0 <= j < B ensures Ordered(chs[B..][j], side, LoAt(keys[B..], sep, j), HiAt(keys[B..], hi, j)) {
      assert chs[B..][j] == chs[B + j];
    }
  }

  lemma FindChBelow(keys: seq<Key>, k: Key, n: nat)
    requires n < |keys| && k < keys[n]
    ensures FindCh(keys, k) <= n
  {
  }

  lemma CutRowGet(keys: seq<Key>, chs: seq<Node>, side: Side, v: nat, lo: nat, hi: nat, k: Key)
    requires RowOk(keys, chs, side, lo, hi) && |keys| == MAX_KEYS && |chs| == 2 * B && lo <= k < hi
    ensures RowGet(keys, chs, side, v, k)
            == if k < keys[B-1] then RowGet(keys[..B-1], chs[..B], side, v, k) else RowGet(keys[B..], chs[B..], side, v, k)
  {
    hide Ordered, Get;
    var p := FindCh(keys, k);
    FindChAt(keys, k, lo, hi);
    if k < keys[B-1] {
      FindChBelow(keys, k, B - 1);
      FindChIs(keys[..B-1], k, p, lo, keys[B-1]);
    } else {
      FindChIs(keys[B..], k, p - B, keys[B-1], hi);
    }
  }

  ghost predicate Asked(r: Request, side: Side, v: nat) {
    BTreeCow.Below(side, r.ticket) && r.ticket <= v
  }

  lemma {:induction false} DescendOk(keys: seq<Key>, chs: seq<Node>, side: Side, r: Request, stage: nat, lo: nat, hi: nat, v: nat, k: Key)
    requires RowOk(keys, chs, side, lo, hi) && Asked(r, side, v) && lo <= r.key < hi && lo <= k < hi
    ensures |chs| == |keys| + 1
    ensures var d := Descend(keys, chs, side, r, stage);
            RowOk(d.0, d.1, side, lo, hi) && RowGet(d.0, d.1, side, v, k) == After(r, k, RowGet(keys, chs, side, v, k))
    decreases chs, 0
  {
    hide Ordered, RowOk, Get, Replace, SpliceKeys, SpliceKids, Asked, RunOk, RunGet;
    RowLength(keys, chs, side, lo, hi);
    var i := FindCh(keys, r.key);
    RowFacts(keys, chs, side, lo, hi, i);
    FindChAt(keys, r.key, lo, hi);
    var a, b := LoAt(keys, lo, i), HiAt(keys, hi, i);
    var inside := if a <= k < b then k else r.key;
    ReplaceOk(chs[i], side, r, stage, a, b, v, inside);
    SpliceOk(keys, chs, i, Replace(chs[i], side, r, stage), side, lo, hi);
    SpliceGet(keys, chs, i, Replace(chs[i], side, r, stage), side, v, lo, hi, k);
    ChildRange(keys, k, i, lo, hi);
  }

  lemma RowLength(keys: seq<Key>, chs: seq<Node>, side: Side, lo: nat, hi: nat)
    requires RowOk(keys, chs, side, lo, hi)
    ensures |chs| == |keys| + 1
  {
  }

  lemma {:induction false} ReplaceOk(t: Node, side: Side, r: Request, stage: nat, lo: nat, hi: nat, v: nat, k: Key)
    requires Ordered(t, side, lo, hi) && Asked(r, side, v) && lo <= r.key < hi && lo <= k < hi
    ensures var run := Replace(t, side, r, stage);
            RunOk(run, side, lo, hi) && RunGet(run, side, v, k) == After(r, k, Get(t, side, v, k))
    decreases t, 2
  {
    hide Ordered, RowOk, Get, Descend, LeafCopies, Halves;
    if t.Leaf? {
      LeafCopiesOk(t, side, r, stage, lo, hi, v, k);
    } else {
      InnerRow(t, side, lo, hi);
      InnerGet(t, side, v, k);
      if |t.keys| == MAX_KEYS {
        HalvesOk(t, side, r, stage, lo, hi, v, k);
      } else {
        DescendOk(t.keys, t.chs, side, r, stage + 1, lo, hi, v, k);
        var d := Descend(t.keys, t.chs, side, r, stage + 1);
        var u := Copied(t, New(r.ticket, stage, WholeNode), r.ticket, d.0, d.1);
        InnerRow(u, side, lo, hi);
        InnerGet(u, side, v, k);
      }
    }
  }

  lemma {:induction false} HalvesOk(t: Node, side: Side, r: Request, stage: nat, lo: nat, hi: nat, v: nat, k: Key)
    requires t.Inner? && RowOk(t.keys, t.chs, side, lo, hi) && |t.keys| == MAX_KEYS && |t.chs| == 2 * B
    requires Asked(r, side, v) && lo <= r.key < hi && lo <= k < hi
    ensures var run := Halves(t, side, r, stage);
            RunOk(run, side, lo, hi) && RunGet(run, side, v, k) == After(r, k, RowGet(t.keys, t.chs, side, v, k))
    decreases t, 1
  {
    hide Ordered, RowOk, RowGet, Get, Descend;
    var sep := t.keys[B-1];
    CutRow(t.keys, t.chs, side, lo, hi);
    CutRowGet(t.keys, t.chs, side, v, lo, hi, k);
    if r.key < sep {
      DescendOk(t.keys[..B-1], t.chs[..B], side, r, stage + 1, lo, sep, v, if k < sep then k else r.key);
    } else {
      DescendOk(t.keys[B..], t.chs[B..], side, r, stage + 1, sep, hi, v, if k < sep then r.key else k);
    }
    var run := Halves(t, side, r, stage);
    InnerRow(run.left, side, lo, sep);
    InnerRow(run.right, side, sep, hi);
    InnerGet(run.left, side, v, k);
    InnerGet(run.right, side, v, k);
  }

  lemma RaisedOk(t: Node, run: Run, r: Request, stage: nat, side: Side, lo: nat, hi: nat, v: nat, k: Key)
    requires RunOk(run, side, lo, hi) && lo <= k < hi
    ensures var u := Raised(t, run, r, stage); Ordered(u, side, lo, hi) && Get(u, side, v, k) == RunGet(run, side, v, k)
  {
    if run.Two? {
      PairOk(Raised(t, run, r, stage), run, side, lo, hi, v, k);
    }
  }

  lemma PairOk(u: Node, run: Run, side: Side, lo: nat, hi: nat, v: nat, k: Key)
    requires run.Two? && RunOk(run, side, lo, hi) && lo <= k < hi && u.Inner? && u.keys == [run.sep] && u.chs == [run.left, run.right]
    ensures Ordered(u, side, lo, hi) && Get(u, side, v, k) == RunGet(run, side, v, k)
  {
    hide Ordered;
    InnerRow(u, side, lo, hi);
    InnerGet(u, side, v, k);
    FindChIs([run.sep], k, if k < run.sep then 0 else 1, lo, hi);
  }

  /** One update: the tree stays ordered, and every snapshot from the ticket on
      sees the key set and nothing else changed. */
  lemma {:induction false} UpdateOk(t: Node, side: Side, r: Request, stage: nat, lo: nat, hi: nat, v: nat, k: Key)
    requires Ordered(t, side, lo, hi) && Asked(r, side, v) && lo <= r.key < hi && lo <= k < hi
    ensures var u := Update(t, side, r, stage).t;
            Ordered(u, side, lo, hi) && Get(u, side, v, k) == After(r, k, Get(t, side, v, k))
    decreases t
  {
    hide Ordered, RowOk, Get, Replace, LeafCopies, Asked, Raised, RunOk, RunGet, RowGet;
    if t.Leaf? {
      LeafUpdate(t, side, r, stage, lo, hi, v, k);
    } else {
      InnerRow(t, side, lo, hi);
      InnerGet(t, side, v, k);
      var i := FindCh(t.keys, r.key);
      RowFacts(t.keys, t.chs, side, lo, hi, i);
      FindChAt(t.keys, r.key, lo, hi);
      var a, b := LoAt(t.keys, lo, i), HiAt(t.keys, hi, i);
      var inside := if a <= k < b then k else r.key;
      var u;
      if t.kind == Boundary {
        ReplaceOk(t.chs[i], side, r, stage + 1, a, b, v, inside);
        RaisedOk(t.chs[i], Replace(t.chs[i], side, r, stage + 1), r, stage + 1, side, a, b, v, inside);
        u := Raised(t.chs[i], Replace(t.chs[i], side, r, stage + 1), r, stage + 1);
      } else {
        UpdateOk(t.chs[i], side, r, stage + 1, a, b, v, inside);
        u := Update(t.chs[i], side, r, stage + 1).t;
      }
      OneChild(t, i, u, Update(t, side, r, stage).t, side, lo, hi, v, k);
      ChildRange(t.keys, k, i, lo, hi);
      RowIs(t.keys, t.chs, side, v, k);
    }
  }

  lemma RowIs(keys: seq<Key>, chs: seq<Node>, side: Side, v: nat, k: Key)
    requires |chs| == |keys| + 1
    ensures RowGet(keys, chs, side, v, k) == Get(chs[FindCh(keys, k)], side, v, k)
  {
    hide Get;
  }

  /** A child store in a copied node. */
  lemma OneChild(t: Node, i: nat, u: Node, w: Node, side: Side, lo: nat, hi: nat, v: nat, k: Key)
    requires t.Inner? && RowOk(t.keys, t.chs, side, lo, hi) && i < |t.chs| == |t.keys| + 1 && lo <= k < hi
    requires Ordered(u, side, LoAt(t.keys, lo, i), HiAt(t.keys, hi, i)) && w.Inner? && w.keys == t.keys && w.chs == t.chs[i := u]
    ensures Ordered(w, side, lo, hi)
    ensures Get(w, side, v, k) == if LoAt(t.keys, lo, i) <= k < HiAt(t.keys, hi, i) then Get(u, side, v, k) else RowGet(t.keys, t.chs, side, v, k)
  {
    hide Ordered, RowOk, Get, RowGet;
    SpliceOk(t.keys, t.chs, i, One(u), side, lo, hi);
    SpliceGet(t.keys, t.chs, i, One(u), side, v, lo, hi, k);
    InnerRow(w, side, lo, hi);
    InnerGet(w, side, v, k);
  }

  lemma LeafUpdate(t: Node, side: Side, r: Request, stage: nat, lo: nat, hi: nat, v: nat, k: Key)
    requires t.Leaf? && Ordered(t, side, lo, hi) && Asked(r, side, v) && lo <= r.key < hi && lo <= k < hi
    ensures var u := Update(t, side, r, stage).t;
            Ordered(u, side, lo, hi) && Get(u, side, v, k) == After(r, k, Get(t, side, v, k))
  {
    hide Ordered, Get, LeafCopies;
    LeafCopiesOk(t, side, r, stage, lo, hi, v, k);
    var run := LeafCopies(t, side, r, stage);
    if run.Two? {
      PairOk(Update(t, side, r, stage).t, run, side, lo, hi, v, k);
    }
  }
}
