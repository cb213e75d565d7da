/** Scanning a fat leaf: base and visible slots together, newest per key. */
module LeafScan {
  import opened Records
  import opened StagedCow
  import opened LeafRecords
  import opened FatLeaf
  import opened LeafReplace
  import opened BTreeCow

  /** The pairs of a map in key order. */
  function Items(m: map<Key, Val>): (r: seq<(Key, Val)>)
    ensures |r| == |Ascending(m.Keys)|
    ensures forall i :: 0 <= i < |r| ==> r[i].0 == Ascending(m.Keys)[i] && r[i].0 in m && r[i].1 == m[r[i].0]
  {
    AscendingIn(m.Keys);
    var ks := Ascending(m.Keys);
    var vs := ValuesOf(m, ks);
    seq(|ks|, i requires 0 <= i < |ks| => (ks[i], vs[i]))
  }

  /** The pairs from a key on. */
  function From(s: seq<(Key, Val)>, lower: Key): seq<(Key, Val)> {
    if s == [] then [] else if s[0].0 >= lower then s else From(s[1..], lower)
  }

  function Take<T>(s: seq<T>, n: int): seq<T> {
    if n < 0 then [] else if n < |s| then s[..n] else s
  }

  /** Newest records that pass the bound, as pairs. */
  function Pairs(d: seq<Rec>, lower: Key): seq<(Key, Val)> {
    if d == [] then [] else
    var last := d[|d|-1];
    Pairs(d[..|d|-1], lower) + (if last.key >= lower then [(last.key, last.value)] else [])
  }

  lemma PairsStep(d: seq<Rec>, r: Rec, lower: Key)
    ensures Pairs(d + [r], lower) == Pairs(d, lower) + (if r.key >= lower then [(r.key, r.value)] else [])
  {
    assert (d + [r])[..|d|] == d;
  }

  /** Ordered records, newest of each key, until n pairs have been found. */
  method Emit(a: array<Rec>, count: nat, lower: Key, n: nat, before: seq<(Key, Val)>) returns (ret: seq<(Key, Val)>, ghost d: seq<Rec>, ghost rest: seq<Rec>)
    requires count <= a.Length && Ordered(a[..count]) && |before| <= n
    ensures d <= rest && NewestOf(a[..count], rest) && (d == rest || |ret| == n)
    ensures ret == before + Pairs(d, lower) && |ret| <= n
  {
    hide Pairs, NewestOf, Ordered;
    ghost var s := a[..count];
    ret := before;
    d := [];
    NothingYet(s, lower);
    var begin := 0;
    while begin < count && |ret| < n
      invariant 0 <= begin <= count && a[..count] == s
      invariant NewestOf(s[..begin], d) && ret == before + Pairs(d, lower) && |ret| <= n
      invariant 0 < begin < count ==> s[begin-1].key < s[begin].key
    {
      var end := begin + 1;
      while end < count && a[end].key == a[begin].key
        invariant begin < end <= count && forall i :: begin <= i < end ==> s[i].key == s[begin].key
      {
        assert s[end] == a[end] && s[begin] == a[begin];
        end := end + 1;
      }
      assert end < count ==> s[end] == a[end];
      assert s[begin] == a[begin];
      var newest := a[end-1];
      assert newest == s[end-1];
      GroupNewest(s, begin, end, d);
      PairsStep(d, newest, lower);
      d := d + [newest];
      if newest.key >= lower {
        ret := ret + [(newest.key, newest.value)];
      }
      begin := end;
    }
    rest := AllNewest(s, begin, d);
  }

  lemma NothingYet(s: seq<Rec>, lower: Key)
    ensures NewestOf(s[..0], []) && Pairs([], lower) == []
  {
  }

  /** The groups the loop did not get to. */
  lemma {:induction false} AllNewest(s: seq<Rec>, begin: nat, d: seq<Rec>) returns (rest: seq<Rec>)
    requires Ordered(s) && begin <= |s| && NewestOf(s[..begin], d)
    requires 0 < begin < |s| ==> s[begin-1].key < s[begin].key
    ensures d <= rest && NewestOf(s, rest) && (begin == |s| ==> rest == d)
    decreases |s| - begin
  {
    if begin == |s| {
      assert s[..begin] == s;
      rest := d;
    } else {
      var end := begin + 1;
      while end < |s| && s[end].key == s[begin].key
        invariant begin < end <= |s| && forall i :: begin <= i < end ==> s[i].key == s[begin].key
      {
        end := end + 1;
      }
      GroupNewest(s, begin, end, d);
      rest := AllNewest(s, end, d + [s[end-1]]);
    }
  }

  // ---- records as the view --------------------------------------------------

  lemma {:induction false} BaseMapped(keys: seq<Key>, vals: seq<Val>, ver: nat)
    requires |keys| == |vals|
    ensures RecMap(map[], BaseRecs(keys, vals, ver)) == Base(keys, vals)
  {
    if keys != [] {
      var n := |keys| - 1;
      BaseMapped(keys[..n], vals[..n], ver);
      assert BaseRecs(keys, vals, ver)[..n] == BaseRecs(keys[..n], vals[..n], ver);
    }
  }

  lemma {:induction false} RecMapAppend(m: map<Key, Val>, a: seq<Rec>, b: seq<Rec>)
    ensures RecMap(m, a + b) == RecMap(RecMap(m, a), b)
  {
    if b == [] {
      assert a + b == a;
    } else {
      var n := |b| - 1;
      RecMapAppend(m, a, b[..n]);
      assert (a + b)[..|a + b| - 1] == a + b[..n];
    }
  }

  /** The newest records of base and slots are the pairs of the view. */
  lemma NewestAreItems(keys: seq<Key>, vals: seq<Val>, ver: nat, rs: seq<Rec>, d: seq<Rec>)
    requires |keys| == |vals| && Sorted(keys) && VersionsRise(rs) && (forall i :: 0 <= i < |rs| ==> ver < rs[i].version)
    requires NewestOf(BaseRecs(keys, vals, ver) + rs, d)
    ensures Sorted(KeysOf(d)) && KeysOf(d) == Ascending(RecMap(Base(keys, vals), rs).Keys)
    ensures forall i :: 0 <= i < |d| ==> d[i].key in RecMap(Base(keys, vals), rs) && RecMap(Base(keys, vals), rs)[d[i].key] == d[i].value
  {
    hide RecMap, Base, NewestOf, Ascending;
    var bs := BaseRecs(keys, vals, ver);
    var all := bs + rs;
    BaseMapped(keys, vals, ver);
    RecMapAppend(map[], bs, rs);
    AllRise(keys, vals, ver, rs);
    NewestMapped(all, d);
    SortedUnique(KeysOf(d), Ascending(RecMap(map[], all).Keys));
  }

  lemma NewestMapped(all: seq<Rec>, d: seq<Rec>)
    requires KeysRise(all) && NewestOf(all, d)
    ensures var m := RecMap(map[], all);
            && Sorted(KeysOf(d)) && KeySet(KeysOf(d)) == m.Keys
            && forall i :: 0 <= i < |d| ==> d[i].key in m && m[d[i].key] == d[i].value
  {
    hide RecMap, NewestIn;
    var m := RecMap(map[], all);
    forall i | 0 <= i < |d| ensures d[i].key in m && m[d[i].key] == d[i].value {
      NewestIsMapped(map[], all, d[i]);
    }
    forall k | k in m ensures k in KeySet(KeysOf(d)) {
      KeyKept(all, d, k);
    }
  }

  lemma KeyKept(all: seq<Rec>, d: seq<Rec>, k: Key)
    requires NewestOf(all, d) && k in RecMap(map[], all)
    ensures k in KeySet(KeysOf(d))
  {
    hide RecMap, NewestIn;
    if !HasKey(all, k) {
      UntouchedKey(map[], all, k);
    }
    var i :| 0 <= i < |all| && all[i].key == k;
    assert HasKey(d, all[i].key);
    var x :| 0 <= x < |d| && d[x].key == k;
    assert KeysOf(d)[x] == k;
  }

  lemma AllRise(keys: seq<Key>, vals: seq<Val>, ver: nat, rs: seq<Rec>)
    requires |keys| == |vals| && Sorted(keys) && VersionsRise(rs) && (forall i :: 0 <= i < |rs| ==> ver < rs[i].version)
    ensures KeysRise(BaseRecs(keys, vals, ver) + rs)
  {
  }

  /** In key order, the bound cuts off a prefix. */
  lemma {:induction false} PairsAre(d: seq<Rec>, m: map<Key, Val>, lower: Key)
    requires KeysOf(d) == Ascending(m.Keys) && forall i :: 0 <= i < |d| ==> d[i].key in m && m[d[i].key] == d[i].value
    ensures Pairs(d, lower) == From(Items(m), lower)
  {
    var s := Items(m);
    assert |s| == |d| && forall i :: 0 <= i < |d| ==> s[i] == (d[i].key, d[i].value);
    PairsFrom(d, s, lower);
  }

  lemma {:induction false} PairsFrom(d: seq<Rec>, s: seq<(Key, Val)>, lower: Key)
    requires |s| == |d| && Sorted(KeysOf(d)) && forall i :: 0 <= i < |d| ==> s[i] == (d[i].key, d[i].value)
    ensures Pairs(d, lower) == From(s, lower)
  {
    hide Pairs, From, Sorted;
    if d == [] {
      NoPairs(s, lower);
    } else {
      var n := |d| - 1;
      KeysFront(d, n);
      PairsFrom(d[..n], s[..n], lower);
      FromAppend(s[..n], s[n], lower);
      PairsStep(d[..n], d[n], lower);
      assert s == s[..n] + [s[n]] && d == d[..n] + [d[n]];
    }
  }

  lemma NoPairs(s: seq<(Key, Val)>, lower: Key)
    ensures Pairs([], lower) == [] && (s == [] ==> From(s, lower) == [])
  {
  }

  lemma KeysFront(d: seq<Rec>, n: nat)
    requires Sorted(KeysOf(d)) && n < |d|
    ensures Sorted(KeysOf(d[..n])) && forall i :: 0 <= i < n ==> d[i].key < d[n].key
  {
    assert KeysOf(d[..n]) == KeysOf(d)[..n];
    forall i | 0 <= i < n ensures d[i].key < d[n].key {
      assert KeysOf(d)[i] < KeysOf(d)[n];
    }
  }

  lemma {:induction false} FromAppend(s: seq<(Key, Val)>, x: (Key, Val), lower: Key)
    requires forall i :: 0 <= i < |s| ==> s[i].0 < x.0
    ensures From(s + [x], lower) == From(s, lower) + (if x.0 >= lower then [x] else [])
  {
    if s != [] {
      if s[0].0 < lower {
        assert (s + [x])[1..] == s[1..] + [x];
        FromAppend(s[1..], x, lower);
      }
    }
  }

  lemma {:induction false} PairsPrefix(d: seq<Rec>, rest: seq<Rec>, lower: Key)
    requires d <= rest
    ensures Pairs(d, lower) <= Pairs(rest, lower)
    decreases |rest|
  {
    if |d| < |rest| {
      PairsPrefix(d, rest[..|rest|-1], lower);
    } else {
      assert d == rest;
    }
  }

  // ---- the scan -------------------------------------------------------------

  /** scan_visible_leaf: the next pairs of the snapshot's view, in key order,
      from the bound on, until n are found. */
  method ScanVisible(leaf: Leaf, lower: Key, n: nat, snapshot: nat, before: seq<(Key, Val)>) returns (ret: seq<(Key, Val)>)
    requires leaf.Valid() && |before| <= n
    ensures var view := Overlay(Base(leaf.Keys(), leaf.Vals()), Visible(leaf.Slots()), snapshot);
            ret == before + Take(From(Items(view), lower), n - |before|)
  {
    hide Overlay, Base, Visible, Recs, RecMap, NewestOf, Pairs, From, Items, VersionsRise, Take;
    var a, count := GatherAll(leaf, snapshot);
    ghost var all := a[..count];
    Sort(a, count);
    ghost var d, rest;
    ret, d, rest := Emit(a, count, lower, n, before);
    SortedNewest(all, a[..count], rest);
    ScanPairs(leaf.Keys(), leaf.Vals(), leaf.ver, leaf.Slots(), snapshot, rest, lower);
    PairsPrefix(d, rest, lower);
    TakeIs(Pairs(d, lower), Pairs(rest, lower), n - |before|);
  }

  lemma TakeIs<T>(p: seq<T>, q: seq<T>, k: int)
    requires p <= q && |p| <= k && (p == q || |p| == k)
    ensures p == Take(q, k)
  {
  }

  lemma ScanPairs(keys: seq<Key>, vals: seq<Val>, ver: nat, hs: seq<HSlot>, snapshot: nat, d: seq<Rec>, lower: Key)
    requires |keys| == |vals| && Sorted(keys)
    requires var rs := Recs(Visible(hs), snapshot);
             && VersionsRise(rs) && (forall i :: 0 <= i < |rs| ==> ver < rs[i].version)
             && NewestOf(BaseRecs(keys, vals, ver) + rs, d)
    ensures Pairs(d, lower) == From(Items(Overlay(Base(keys, vals), Visible(hs), snapshot)), lower)
  {
    hide Overlay, Base, Visible, Recs, RecMap, NewestOf, Pairs, From, Items, VersionsRise;
    NewestAreItems(keys, vals, ver, Recs(Visible(hs), snapshot), d);
    RecsMap(Base(keys, vals), Visible(hs), snapshot);
    PairsAre(d, Overlay(Base(keys, vals), Visible(hs), snapshot), lower);
  }

  /** All base records, then the visible slots up to the snapshot. */
  method GatherAll(leaf: Leaf, snapshot: nat) returns (a: array<Rec>, count: nat)
    requires leaf.Valid()
    ensures fresh(a) && count <= a.Length
    ensures a[..count] == BaseRecs(leaf.Keys(), leaf.Vals(), leaf.ver) + Recs(Visible(leaf.Slots()), snapshot)
    ensures var rs := Recs(Visible(leaf.Slots()), snapshot); VersionsRise(rs) && forall i :: 0 <= i < |rs| ==> leaf.ver < rs[i].version
  {
    hide Recs, Visible;
    a := new Rec[MAX_KEYS + MAX_SLOTS](_ => Rec(0, 0, 0));
    count := 0;
    while count < leaf.size
      invariant count <= leaf.size
      invariant forall i :: 0 <= i < count ==> a[i] == Rec(leaf.keys[i], leaf.vals[i], leaf.ver)
    {
      a[count] := Rec(leaf.keys[count], leaf.vals[count], leaf.ver);
      count := count + 1;
    }
    assert a[..count] == BaseRecs(leaf.Keys(), leaf.Vals(), leaf.ver);
    VisibleRise(leaf, snapshot);
    if leaf.block != null {
      count := Collect(leaf.block, snapshot, a, count);
    } else {
      NoRecs(leaf.Slots(), snapshot);
      assert BaseRecs(leaf.Keys(), leaf.Vals(), leaf.ver) + [] == BaseRecs(leaf.Keys(), leaf.Vals(), leaf.ver);
    }
  }

  lemma VisibleRise(leaf: Leaf, snapshot: nat)
    requires leaf.Valid()
    ensures var rs := Recs(Visible(leaf.Slots()), snapshot); VersionsRise(rs) && forall i :: 0 <= i < |rs| ==> leaf.ver < rs[i].version
  {
    var hs := leaf.Slots();
    RecsRiseAny(hs, leaf.ver, snapshot, if hs == [] then 0 else hs[|hs|-1].version);
  }

  lemma {:induction false} RecsRiseAny(hs: seq<HSlot>, ver: nat, snapshot: nat, top: nat)
    requires (forall i :: 0 <= i < |hs| ==> ver < hs[i].version <= top) && (forall i, j :: 0 <= i < j < |hs| ==> hs[i].version < hs[j].version)
    ensures var rs := Recs(Visible(hs), snapshot);
            VersionsRise(rs) && forall i :: 0 <= i < |rs| ==> ver < rs[i].version <= top
  {
    if hs != [] {
      var n := |hs| - 1;
      assert hs[..n+1] == hs;
      RecsRiseAny(hs[..n], ver, snapshot, hs[n].version - 1);
      RecsStep(hs, n, snapshot);
    }
  }
}
