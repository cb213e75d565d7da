/** Ordered scans over a snapshot of a B+Tree. */
module BTreeScan {
  import opened Options
  import opened Records
  import opened Nodes
  import opened BTree
  import opened BTreeHistory
  import opened LeafScan
  import BTreeCow

  /** The pairs of a snapshot, leaf by leaf. */
  function Entries(t: Tree, side: Side, version: nat): seq<(Key, Val)>
    decreases t, 0
  {
    match t
    case Leaf(id, _, keys, vals) => if |keys| == |vals| then Items(LeafView(keys, vals, SlotsAt(side, id), version)) else []
    case Node(_, _, kids) => SegEntries(kids, 0, side, version)
  }

  function SegEntries(s: Seg, i: nat, side: Side, version: nat): seq<(Key, Val)>
    decreases s, |s.chs| - i
  {
    if i >= |s.chs| then [] else Entries(s.chs[i], side, version) + SegEntries(s, i + 1, side, version)
  }

  ghost predicate InOrder(s: seq<(Key, Val)>, lo: nat, hi: nat) {
    && (forall i :: 0 <= i < |s| ==> lo <= s[i].0 < hi)
    && (forall i, j :: 0 <= i < j < |s| ==> s[i].0 < s[j].0)
  }

  /** The value listed for a key. */
  function Assoc(s: seq<(Key, Val)>, k: Key): Option<Val> {
    if s == [] then None else if s[0].0 == k then Some(s[0].1) else Assoc(s[1..], k)
  }

  lemma {:induction false} AssocSplit(a: seq<(Key, Val)>, b: seq<(Key, Val)>, lo: nat, mid: nat, hi: nat, k: Key)
    requires InOrder(a, lo, mid) && InOrder(b, mid, hi)
    ensures Assoc(a + b, k) == if k < mid then Assoc(a, k) else Assoc(b, k)
    decreases |a|
  {
    if a == [] {
      assert a + b == b;
      if k < mid { NotListed(b, k); }
    } else {
      assert (a + b)[1..] == a[1..] + b;
      AssocSplit(a[1..], b, lo, mid, hi, k);
      if k >= mid { assert a[0].0 < mid; }
    }
  }

  lemma {:induction false} NotListed(s: seq<(Key, Val)>, k: Key)
    requires forall i :: 0 <= i < |s| ==> s[i].0 != k
    ensures Assoc(s, k) == None
  {
    if s != [] {
      NotListed(s[1..], k);
    }
  }

  lemma OrderJoin(a: seq<(Key, Val)>, b: seq<(Key, Val)>, lo: nat, mid: nat, hi: nat)
    requires lo <= mid <= hi && InOrder(a, lo, mid) && InOrder(b, mid, hi)
    ensures InOrder(a + b, lo, hi)
  {
  }

  lemma {:induction false} ItemsAssoc(s: seq<(Key, Val)>, m: map<Key, Val>, k: Key)
    requires (forall i, j :: 0 <= i < j < |s| ==> s[i].0 < s[j].0) && (forall i :: 0 <= i < |s| ==> s[i].0 in m && s[i].1 == m[s[i].0])
    ensures Assoc(s, k) == if exists i :: 0 <= i < |s| && s[i].0 == k then Lookup(m, k) else None
  {
    if s != [] && s[0].0 != k {
      ItemsAssoc(s[1..], m, k);
      if i :| 0 <= i < |s| && s[i].0 == k {
        assert s[1..][i-1].0 == k;
      }
    }
  }

  lemma LeafEntries(t: Tree, side: Side, version: nat, lo: nat, hi: nat, k: Key)
    requires t.Leaf? && Wf(t, side, lo, hi, 0)
    ensures InOrder(Entries(t, side, version), lo, hi) && Assoc(Entries(t, side, version), k) == Get(t, side, version, k)
  {
    hide Assoc, Ascending, Base, Overlay;
    var m := LeafView(t.keys, t.vals, SlotsAt(side, t.id), version);
    var s, ks := Items(m), Ascending(m.Keys);
    BTreeCow.ViewBounds(t, side, version, lo, hi);
    assert forall i :: 0 <= i < |s| ==> s[i].0 == ks[i];
    ItemsAssoc(s, m, k);
    if k in m {
      assert k in KeySet(ks);
      var i :| 0 <= i < |ks| && ks[i] == k;
      assert s[i].0 == k;
    }
  }

  /** The entries of a well-formed tree are sorted, and list for each key what
      a lookup finds. */
  lemma {:induction false} EntriesAre(t: Tree, side: Side, version: nat, lo: nat, hi: nat, h: nat, k: Key)
    requires Wf(t, side, lo, hi, h)
    ensures InOrder(Entries(t, side, version), lo, hi)
    ensures lo <= k < hi ==> Assoc(Entries(t, side, version), k) == Get(t, side, version, k)
    decreases t, 0
  {
    if t.Leaf? {
      LeafEntries(t, side, version, lo, hi, k);
    } else {
      SegEntriesAre(t.kids, 0, side, version, lo, hi, h - 1, k);
      if lo <= k < hi {
        var i := FindCh(t.kids.keys, k);
        SegAssoc(t.kids, 0, i, side, version, lo, hi, h - 1, k);
      }
    }
  }

  lemma {:induction false} SegEntriesAre(s: Seg, i: nat, side: Side, version: nat, lo: nat, hi: nat, h: nat, k: Key)
    requires Fits(s, side, lo, hi, h) && i < |s.chs|
    ensures InOrder(SegEntries(s, i, side, version), LoAt(s.keys, lo, i), hi)
    decreases s, |s.chs| - i
  {
    EntriesAre(s.chs[i], side, version, LoAt(s.keys, lo, i), HiAt(s.keys, hi, i), h, k);
    if i + 1 < |s.chs| {
      SegEntriesAre(s, i + 1, side, version, lo, hi, h, k);
      assert i > 0 ==> s.keys[i-1] < s.keys[i];
      OrderJoin(Entries(s.chs[i], side, version), SegEntries(s, i + 1, side, version), LoAt(s.keys, lo, i), s.keys[i], hi);
    } else {
      assert SegEntries(s, i + 1, side, version) == [];
    }
  }

  /** Among siblings, the entries of a key are those of the child it leads to. */
  lemma {:induction false} SegAssoc(s: Seg, from: nat, i: nat, side: Side, version: nat, lo: nat, hi: nat, h: nat, k: Key)
    requires Fits(s, side, lo, hi, h) && from <= i < |s.chs| && LoAt(s.keys, lo, i) <= k < HiAt(s.keys, hi, i)
    ensures Assoc(SegEntries(s, from, side, version), k) == Get(s.chs[i], side, version, k)
    decreases s, |s.chs| - from
  {
    hide InOrder, Get, Entries, Assoc, Wf;
    EntriesAre(s.chs[from], side, version, LoAt(s.keys, lo, from), HiAt(s.keys, hi, from), h, k);
    if from + 1 < |s.chs| {
      SegEntriesAre(s, from + 1, side, version, lo, hi, h, k);
      AssocSplit(Entries(s.chs[from], side, version), SegEntries(s, from + 1, side, version), LoAt(s.keys, lo, from), s.keys[from], hi, k);
      if from < i {
        SegAssoc(s, from + 1, i, side, version, lo, hi, h, k);
        assert from < i - 1 ==> s.keys[from] < s.keys[i-1];
      }
    } else {
      assert SegEntries(s, from + 1, side, version) == [];
      assert Entries(s.chs[from], side, version) + [] == Entries(s.chs[from], side, version);
    }
  }

  // ---- bounds and counts ----------------------------------------------------

  lemma {:induction false} FromSplit(a: seq<(Key, Val)>, b: seq<(Key, Val)>, key: Key)
    requires (forall i :: 0 <= i < |b| ==> b[i].0 >= key)
    ensures From(a + b, key) == From(a, key) + b
    decreases |a|
  {
    if a == [] {
      assert a + b == b;
      assert From(b, key) == b;
    } else if a[0].0 < key {
      assert (a + b)[1..] == a[1..] + b;
      FromSplit(a[1..], b, key);
    }
  }

  lemma {:induction false} FromSkips(a: seq<(Key, Val)>, b: seq<(Key, Val)>, key: Key)
    requires (forall i :: 0 <= i < |a| ==> a[i].0 < key)
    ensures From(a + b, key) == From(b, key)
    decreases |a|
  {
    if a == [] {
      assert a + b == b;
    } else {
      assert (a + b)[1..] == a[1..] + b;
      FromSkips(a[1..], b, key);
    }
  }

  lemma TakeMore<T>(a: seq<T>, b: seq<T>, k: int)
    requires k >= 0
    ensures Take(a + b, k) == Take(a, k) + Take(b, k - |Take(a, k)|)
    ensures |Take(a, k)| <= k
  {
  }

  // ---- the scan -------------------------------------------------------------

  /** What has been found, and what the children from i on would still add. */
  function Listed(s: Seg, i: nat, side: Side, version: nat, n: nat, ret: seq<(Key, Val)>): seq<(Key, Val)> {
    ret + Take(SegEntries(s, i, side, version), n - |ret|)
  }

  lemma ListedStep(s: Seg, i: nat, side: Side, version: nat, n: nat, ret: seq<(Key, Val)>)
    requires i < |s.chs| && |ret| <= n
    ensures var ret' := ret + Take(Entries(s.chs[i], side, version), n - |ret|);
            |ret'| <= n && Listed(s, i + 1, side, version, n, ret') == Listed(s, i, side, version, n, ret)
  {
    hide Take, Entries;
    var a, b, k := Entries(s.chs[i], side, version), SegEntries(s, i + 1, side, version), n - |ret|;
    TakeMore(a, b, k);
    assert (ret + Take(a, k)) + Take(b, k - |Take(a, k)|) == ret + (Take(a, k) + Take(b, k - |Take(a, k)|));
  }

  lemma ListedAll(s: Seg, i: nat, side: Side, version: nat, n: nat, ret: seq<(Key, Val)>)
    requires |ret| <= n && (i >= |s.chs| || |ret| == n)
    ensures Listed(s, i, side, version, n, ret) == ret
  {
  }

  lemma ListedNone(t: Tree, side: Side, version: nat, n: nat, before: seq<(Key, Val)>)
    requires t.Node?
    ensures before + Take(Entries(t, side, version), n - |before|) == Listed(t.kids, 0, side, version, n, before)
  {
  }

  /** scan_visible_append: the leading entries of a subtree. */
  method ScanAppend(t: Tree, side: Side, version: nat, n: nat, before: seq<(Key, Val)>) returns (ret: seq<(Key, Val)>)
    requires |before| <= n
    ensures ret == before + Take(Entries(t, side, version), n - |before|)
    decreases t
  {
    hide Take, Entries, SegEntries, Listed;
    match t {
      case Leaf(id, ver, keys, vals) =>
        ret := before + Take(Entries(t, side, version), n - |before|);
      case Node(id, ver, kids) =>
        ret := AppendFrom(kids, 0, side, version, n, before);
        ListedNone(t, side, version, n, before);
    }
  }

  method AppendFrom(s: Seg, i: nat, side: Side, version: nat, n: nat, before: seq<(Key, Val)>) returns (ret: seq<(Key, Val)>)
    requires |before| <= n
    ensures ret == Listed(s, i, side, version, n, before)
    decreases s
  {
    hide Take, Entries, SegEntries, Listed;
    var j := i;
    ret := before;
    while j < |s.chs| && |ret| < n
      invariant |ret| <= n
      invariant Listed(s, j, side, version, n, ret) == Listed(s, i, side, version, n, before)
    {
      ListedStep(s, j, side, version, n, ret);
      ret := ScanAppend(s.chs[j], side, version, n, ret);
      j := j + 1;
    }
    ListedAll(s, j, side, version, n, ret);
  }

  /** scan_visible_search: from a key on. */
  method ScanSearch(t: Tree, side: Side, version: nat, key: Key, n: nat, ghost lo: nat, ghost hi: nat, ghost h: nat)
    returns (ret: seq<(Key, Val)>)
    requires Wf(t, side, lo, hi, h) && lo <= key < hi
    ensures ret == Take(From(Entries(t, side, version), key), n)
    decreases t
  {
    hide Take, From, Entries, SegEntries, Listed;
    match t {
      case Leaf(id, ver, keys, vals) =>
        ret := Take(From(Entries(t, side, version), key), n);
      case Node(id, ver, kids) =>
        var i := FindCh(kids.keys, key);
        SearchListed(t, side, version, key, n, lo, hi, h);
        ret := ScanSearch(kids.chs[i], side, version, key, n, LoAt(kids.keys, lo, i), HiAt(kids.keys, hi, i), h - 1);
        ret := AppendFrom(kids, i + 1, side, version, n, ret);
    }
  }

  lemma NodeEntries(t: Tree, side: Side, version: nat)
    requires t.Node?
    ensures Entries(t, side, version) == SegEntries(t.kids, 0, side, version)
  {
  }

  /** The child searched, then the children after it. */
  lemma SearchListed(t: Tree, side: Side, version: nat, key: Key, n: nat, lo: nat, hi: nat, h: nat)
    requires t.Node? && FindCh(t.kids.keys, key) < |t.kids.chs| && lo <= key < hi && Wf(t, side, lo, hi, h)
    ensures var i := FindCh(t.kids.keys, key);
            var first := Take(From(Entries(t.kids.chs[i], side, version), key), n);
            |first| <= n && Take(From(Entries(t, side, version), key), n) == Listed(t.kids, i + 1, side, version, n, first)
  {
    hide Take, From, Entries, SegEntries;
    NodeEntries(t, side, version);
    var i := FindCh(t.kids.keys, key);
    SearchFrom(t.kids, 0, i, side, version, lo, hi, h - 1, key);
    TakeMore(From(Entries(t.kids.chs[i], side, version), key), SegEntries(t.kids, i + 1, side, version), n);
  }

  /** Children before the one searched hold smaller keys, later ones larger. */
  lemma {:induction false} SearchFrom(s: Seg, from: nat, i: nat, side: Side, version: nat, lo: nat, hi: nat, h: nat, key: Key)
    requires Fits(s, side, lo, hi, h) && from <= i < |s.chs| && LoAt(s.keys, lo, i) <= key < HiAt(s.keys, hi, i)
    ensures From(SegEntries(s, from, side, version), key)
            == From(Entries(s.chs[i], side, version), key) + SegEntries(s, i + 1, side, version)
    decreases |s.chs| - from
  {
    EntriesAre(s.chs[from], side, version, LoAt(s.keys, lo, from), HiAt(s.keys, hi, from), h, key);
    if from < i {
      assert from < i - 1 ==> s.keys[from] < s.keys[i-1];
      FromSkips(Entries(s.chs[from], side, version), SegEntries(s, from + 1, side, version), key);
      SearchFrom(s, from + 1, i, side, version, lo, hi, h, key);
    } else {
      if i + 1 < |s.chs| {
        SegEntriesAre(s, i + 1, side, version, lo, hi, h, key);
      }
      FromSplit(Entries(s.chs[i], side, version), SegEntries(s, i + 1, side, version), key);
    }
  }

  /** scan: the first n pairs of the snapshot with keys from `key` on. */
  method Scan(t: Tree, side: Side, version: nat, key: Key, n: nat, ghost hi: nat, ghost h: nat) returns (ret: seq<(Key, Val)>)
    requires Wf(t, side, 0, hi, h) && key < hi
    ensures ret == Take(From(Entries(t, side, version), key), n)
  {
    ret := [];
    if n != 0 {
      ret := ScanSearch(t, side, version, key, n, 0, hi, h);
    }
  }

  /** A scan of version v, at any later time, lists in key order exactly the
      pairs that tickets 1..v leave. */
  lemma EntriesModel(w: World, ops: seq<Ticket>, capacity: nat, limit: nat, v: nat, k: Key)
    requires Legal(w, ops, capacity, limit) && v <= |ops| && k < limit
    ensures var t, side := AfterOps(w, ops, capacity, v).tree, AfterOps(w, ops, capacity, v).side;
            InOrder(Entries(t, side, v), 0, limit) && Assoc(Entries(t, side, v), k) == Model(w, ops, v, k)
  {
    hide Wf, Entries, Assoc, Model, AfterOps, Get;
    AfterGood(w, ops, capacity, limit, v);
    AfterGet(w, ops, capacity, limit, v, v, k);
    var p := AfterOps(w, ops, capacity, v);
    EntriesAre(p.tree, p.side, v, 0, limit, p.h, k);
  }

  /** Later slots do not change what a scan of version v lists. */
  lemma {:induction false} EntriesStable(w: World, ops: seq<Ticket>, capacity: nat, limit: nat, v: nat, n: nat)
    requires Legal(w, ops, capacity, limit) && v <= n <= |ops|
    ensures Entries(AfterOps(w, ops, capacity, v).tree, AfterOps(w, ops, capacity, n).side, v)
            == Entries(AfterOps(w, ops, capacity, v).tree, AfterOps(w, ops, capacity, v).side, v)
    decreases n
  {
    hide Entries, BTreeCow.Cow, BTreeCow.CowHeight;
    if v < n {
      EntriesStable(w, ops, capacity, limit, v, n - 1);
      var p := AfterOps(w, ops, capacity, n - 1);
      if Appends(p, ops[n-1], capacity) {
        EntriesLater(AfterOps(w, ops, capacity, v).tree, p.side, Route(p.tree, ops[n-1].key).id,
                     Slot(n, ops[n-1].key, ops[n-1].val), v);
      }
    }
  }

  /** Sequential histories as a whole: after any later tickets the root of version
      v, read at v, finds under each key what tickets 1..v leave there, and lists
      the pairs they leave, in key order. */
  lemma SnapshotReads(w: World, ops: seq<Ticket>, capacity: nat, limit: nat, v: nat, n: nat, k: Key)
    requires Legal(w, ops, capacity, limit) && v <= n <= |ops| && k < limit
    ensures var t, side := AfterOps(w, ops, capacity, v).tree, AfterOps(w, ops, capacity, n).side;
            && Get(t, side, v, k) == Model(w, ops, v, k)
            && InOrder(Entries(t, side, v), 0, limit) && Assoc(Entries(t, side, v), k) == Model(w, ops, v, k)
  {
    hide Legal, Entries, Assoc, Model, AfterOps, Get, InOrder;
    SnapshotStable(w, ops, capacity, limit, v, n, k);
    EntriesModel(w, ops, capacity, limit, v, k);
    EntriesStable(w, ops, capacity, limit, v, n);
  }

  lemma {:induction false} EntriesLater(t: Tree, side: Side, id: Id, s: Slot, version: nat)
    requires version < s.version
    ensures Entries(t, Append(side, id, s), version) == Entries(t, side, version)
    decreases t, 0
  {
    match t {
      case Leaf(_, _, keys, vals) =>
        if t.id == id && |keys| == |vals| {
          OverlayPrefix(Base(keys, vals), SlotsAt(side, id), [s], version);
        }
      case Node(_, _, kids) => SegLater(kids, 0, side, id, s, version);
    }
  }

  lemma {:induction false} SegLater(c: Seg, i: nat, side: Side, id: Id, s: Slot, version: nat)
    requires version < s.version
    ensures SegEntries(c, i, Append(side, id, s), version) == SegEntries(c, i, side, version)
    decreases c, |c.chs| - i
  {
    if i < |c.chs| {
      EntriesLater(c.chs[i], side, id, s, version);
      SegLater(c, i + 1, side, id, s, version);
    }
  }
}
