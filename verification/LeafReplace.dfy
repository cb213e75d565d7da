/** Replacing a fat leaf: in one go, or topology first and values later. */
module LeafReplace {
  import opened Records
  import opened StagedCow
  import opened LeafRecords
  import opened FatLeaf

  // ---- records and maps -----------------------------------------------------

  /** The records of the slots up to a version. */
  function Recs(ss: seq<Slot>, ticket: nat): seq<Rec> {
    if ss == [] then [] else
    var last := ss[|ss|-1];
    Recs(ss[..|ss|-1], ticket) + (if last.version <= ticket then [Rec(last.key, last.value, last.version)] else [])
  }

  /** Records written over a map, in order. */
  function RecMap(m: map<Key, Val>, rs: seq<Rec>): map<Key, Val> {
    if rs == [] then m else
    var last := rs[|rs|-1];
    RecMap(m, rs[..|rs|-1])[last.key := last.value]
  }

  lemma {:induction false} RecsMap(m: map<Key, Val>, ss: seq<Slot>, ticket: nat)
    ensures RecMap(m, Recs(ss, ticket)) == Overlay(m, ss, ticket)
  {
    if ss != [] {
      var n := |ss| - 1;
      RecsMap(m, ss[..n], ticket);
      var t := Recs(ss[..n], ticket);
      if ss[n].version <= ticket {
        assert Recs(ss, ticket)[..|t|] == t;
      } else {
        assert Recs(ss, ticket) == t;
      }
    }
  }

  /** A slot more, in terms of its cell. */
  lemma RecsStep(hs: seq<HSlot>, i: nat, ticket: nat)
    requires i < |hs|
    ensures Recs(Visible(hs[..i+1]), ticket)
            == Recs(Visible(hs[..i]), ticket)
               + (if hs[i].value.Some? && hs[i].version <= ticket then [Rec(hs[i].key, hs[i].value.value, hs[i].version)] else [])
  {
    assert hs[..i+1][..i] == hs[..i];
    var v := Visible(hs[..i]);
    if hs[i].value.Some? {
      assert Visible(hs[..i+1]) == v + [Plain(hs[i])];
      assert (v + [Plain(hs[i])])[..|v|] == v;
    }
  }

  ghost predicate SlotsRise(hs: seq<HSlot>, ver: nat, ticket: nat) {
    && (forall i :: 0 <= i < |hs| ==> ver < hs[i].version < ticket)
    && (forall i, j :: 0 <= i < j < |hs| ==> hs[i].version < hs[j].version)
  }

  lemma {:induction false} RecsRise(hs: seq<HSlot>, ver: nat, ticket: nat, top: nat)
    requires SlotsRise(hs, ver, ticket) && forall i :: 0 <= i < |hs| ==> hs[i].version <= top
    ensures var rs := Recs(Visible(hs), ticket);
            && |rs| <= |hs| && VersionsRise(rs)
            && (forall i :: 0 <= i < |rs| ==> ver < rs[i].version < ticket && rs[i].version <= top)
  {
    if hs != [] {
      var n := |hs| - 1;
      assert SlotsRise(hs[..n], ver, ticket);
      assert hs[..n+1] == hs;
      RecsRise(hs[..n], ver, ticket, hs[n].version - 1);
      RecsStep(hs, n, ticket);
    }
  }

  ghost predicate VersionsRise(rs: seq<Rec>) {
    forall i, j :: 0 <= i < j < |rs| ==> rs[i].version < rs[j].version
  }

  /** Of two records of one key, the later one is newer. */
  ghost predicate KeysRise(rs: seq<Rec>) {
    forall i, j :: 0 <= i < j < |rs| && rs[i].key == rs[j].key ==> rs[i].version < rs[j].version
  }

  /** The newest record of a key is the one written last. */
  lemma {:induction false} NewestIsMapped(m: map<Key, Val>, rs: seq<Rec>, r: Rec)
    requires KeysRise(rs) && NewestIn(rs, r)
    ensures r.key in RecMap(m, rs) && RecMap(m, rs)[r.key] == r.value
  {
    var n := |rs| - 1;
    var last := rs[n];
    if last.key == r.key {
      var i :| 0 <= i < |rs| && rs[i] == r;
    } else {
      var i :| 0 <= i < |rs| && rs[i] == r;
      assert rs[..n][i] == r;
      assert NewestIn(rs[..n], r);
      NewestIsMapped(m, rs[..n], r);
    }
  }

  lemma {:induction false} UntouchedKey(m: map<Key, Val>, rs: seq<Rec>, k: Key)
    requires !HasKey(rs, k)
    ensures k in RecMap(m, rs) <==> k in m
    ensures k in m ==> RecMap(m, rs)[k] == m[k]
  {
    if rs != [] {
      var n := |rs| - 1;
      assert rs[n].key != k;
      forall i | 0 <= i < n ensures rs[..n][i].key != k {
        assert rs[i].key != k;
      }
      UntouchedKey(m, rs[..n], k);
    }
  }

  lemma {:induction false} WrittenKey(m: map<Key, Val>, rs: seq<Rec>, i: nat)
    requires i < |rs|
    ensures rs[i].key in RecMap(m, rs)
  {
    var n := |rs| - 1;
    if i < n {
      WrittenKey(m, rs[..n], i);
    }
  }

  function KeysOf(rs: seq<Rec>): (r: seq<Key>)
    ensures |r| == |rs| && forall i :: 0 <= i < |r| ==> r[i] == rs[i].key
  {
    seq(|rs|, i requires 0 <= i < |rs| => rs[i].key)
  }

  function ValsOf(rs: seq<Rec>): (r: seq<Val>)
    ensures |r| == |rs| && forall i :: 0 <= i < |r| ==> r[i] == rs[i].value
  {
    seq(|rs|, i requires 0 <= i < |rs| => rs[i].value)
  }

  /** The merged list stands for the base with the overlay written over it. */
  lemma MergedMap(keys: seq<Key>, vals: seq<Val>, ver: nat, rs: seq<Rec>, d: seq<Rec>, out: seq<Rec>)
    requires |keys| == |vals| && Sorted(keys) && VersionsRise(rs) && (forall i :: 0 <= i < |rs| ==> ver < rs[i].version)
    requires NewestOf(rs, d) && Merged(BaseRecs(keys, vals, ver), d, out)
    ensures Sorted(KeysOf(out)) && Base(KeysOf(out), ValsOf(out)) == RecMap(Base(keys, vals), rs)
  {
    var m, r := RecMap(Base(keys, vals), rs), Base(KeysOf(out), ValsOf(out));
    hide RecMap, Base, NewestOf, Wins;
    BaseKeys(KeysOf(out), ValsOf(out));
    forall i | 0 <= i < |out| ensures out[i].key in m && m[out[i].key] == out[i].value {
      OutMapped(keys, vals, ver, rs, d, out[i]);
    }
    forall k | k in m ensures k in r {
      MissingKey(keys, vals, ver, rs, d, out, k);
    }
    RecordsAre(out, m, r);
  }

  /** A map is given by its records. */
  lemma RecordsAre(out: seq<Rec>, m: map<Key, Val>, r: map<Key, Val>)
    requires Sorted(KeysOf(out)) && r == Base(KeysOf(out), ValsOf(out)) && r.Keys == KeySet(KeysOf(out))
    requires forall i :: 0 <= i < |out| ==> out[i].key in m && m[out[i].key] == out[i].value
    requires forall k :: k in m ==> k in r
    ensures r == m
  {
    hide Base;
    BaseKeys(KeysOf(out), ValsOf(out));
    forall k | k in r ensures k in m && r[k] == m[k] {
      assert k in KeySet(KeysOf(out));
      var i :| 0 <= i < |out| && KeysOf(out)[i] == k;
      assert out[i].key in m;
    }
  }

  lemma OutMapped(keys: seq<Key>, vals: seq<Val>, ver: nat, rs: seq<Rec>, d: seq<Rec>, r: Rec)
    requires |keys| == |vals| && Sorted(keys) && VersionsRise(rs) && (forall i :: 0 <= i < |rs| ==> ver < rs[i].version)
    requires NewestOf(rs, d) && Wins(BaseRecs(keys, vals, ver), d, r)
    ensures r.key in RecMap(Base(keys, vals), rs) && RecMap(Base(keys, vals), rs)[r.key] == r.value
  {
    var bs, base := BaseRecs(keys, vals, ver), Base(keys, vals);
    if r in d {
      var i :| 0 <= i < |d| && d[i] == r;
      NewestIsMapped(base, rs, r);
    } else {
      var i :| 0 <= i < |bs| && bs[i] == r;
      forall j | 0 <= j < |d| ensures d[j].key != r.key {
        var x :| 0 <= x < |rs| && rs[x] == d[j];
      }
      assert !HasKey(rs, r.key) by {
        forall j | 0 <= j < |rs| ensures rs[j].key != r.key {
          assert HasKey(d, rs[j].key);
        }
      }
      UntouchedKey(base, rs, r.key);
      BaseKeys(keys, vals);
      assert keys[i] in KeySet(keys);
    }
  }

  lemma MissingKey(keys: seq<Key>, vals: seq<Val>, ver: nat, rs: seq<Rec>, d: seq<Rec>, out: seq<Rec>, k: Key)
    requires |keys| == |vals| && NewestOf(rs, d) && Merged(BaseRecs(keys, vals, ver), d, out) && k in RecMap(Base(keys, vals), rs)
    ensures k in Base(KeysOf(out), ValsOf(out))
  {
    BaseKeys(keys, vals);
    BaseKeys(KeysOf(out), ValsOf(out));
    assert HasKey(out, k) by {
      if HasKey(rs, k) {
        var j :| 0 <= j < |rs| && rs[j].key == k;
        assert HasKey(d, rs[j].key);
        var x :| 0 <= x < |d| && d[x].key == k;
        assert HasKey(out, d[x].key);
      } else {
        UntouchedKey(Base(keys, vals), rs, k);
        assert k in KeySet(keys);
        var i :| 0 <= i < |keys| && keys[i] == k;
        assert HasKey(out, BaseRecs(keys, vals, ver)[i].key);
      }
    }
    var x :| 0 <= x < |out| && out[x].key == k;
    assert KeysOf(out)[x] == k;
  }

  /** Reordering records with distinct versions does not change the newest. */
  lemma SortedNewest(rs: seq<Rec>, s: seq<Rec>, d: seq<Rec>)
    requires multiset(rs) == multiset(s) && NewestOf(s, d)
    ensures NewestOf(rs, d)
  {
    SameRecords(rs, s);
    forall i | 0 <= i < |d| ensures NewestIn(rs, d[i]) {
      assert NewestIn(s, d[i]);
      forall j | 0 <= j < |rs| && rs[j].key == d[i].key ensures rs[j].version <= d[i].version {
        assert rs[j] in s;
        var x :| 0 <= x < |s| && s[x] == rs[j];
      }
    }
    forall j | 0 <= j < |rs| ensures HasKey(d, rs[j].key) {
      assert rs[j] in s;
      var x :| 0 <= x < |s| && s[x] == rs[j];
      assert HasKey(d, s[x].key);
    }
  }

  // ---- gathering ------------------------------------------------------------

  /** The overlay: the published slots up to the ticket, and its own record. */
  method Gather(source: Leaf, ticket: nat, key: Key, val: Val) returns (a: array<Rec>, n: nat)
    requires source.Valid() && source.Later(ticket)
    ensures fresh(a) && n <= a.Length == MAX_SLOTS + 1
    ensures a[..n] == Recs(Visible(source.Slots()), ticket) + [Rec(key, val, ticket)]
    ensures VersionsRise(a[..n]) && forall i :: 0 <= i < n ==> source.ver < a[i].version
  {
    hide Recs, Visible;
    a := new Rec[MAX_SLOTS + 1](_ => Rec(0, 0, 0));
    ghost var hs := source.Slots();
    SourceSlots(source, ticket);
    RecsRise(hs, source.ver, ticket, ticket);
    n := 0;
    if source.block != null {
      n := Collect(source.block, ticket, a, 0);
    } else {
      NoRecs(hs, ticket);
    }
    a[n] := Rec(key, val, ticket);
    n := n + 1;
    assert a[..n] == Recs(Visible(hs), ticket) + [Rec(key, val, ticket)];
  }

  lemma SourceSlots(source: Leaf, ticket: nat)
    requires source.Valid() && source.Later(ticket)
    ensures SlotsRise(source.Slots(), source.ver, ticket) && |source.Slots()| <= MAX_SLOTS
    ensures source.block == null ==> source.Slots() == []
  {
  }

  lemma NoRecs(hs: seq<HSlot>, ticket: nat)
    requires hs == []
    ensures Recs(Visible(hs), ticket) == []
  {
  }

  /** The loop over a block's slots, behind what the array already holds. */
  method Collect(b: DeltaBlock, ticket: nat, a: array<Rec>, from: nat) returns (n: nat)
    requires b.Valid() && from + MAX_SLOTS <= a.Length
    modifies a
    ensures from <= n <= from + MAX_SLOTS
    ensures a[..n] == old(a[..from]) + Recs(Visible(SlotsIn(b.slots[..b.count])), ticket)
  {
    hide Recs, Visible;
    ghost var hs, had := SlotsIn(b.slots[..b.count]), a[..from];
    NoRecs(hs[..0], ticket);
    n := from;
    var i := 0;
    while i < b.capacity
      invariant i <= b.capacity && from <= n <= from + i
      invariant a[..n] == had + Recs(Visible(hs[..if i <= b.count then i else b.count]), ticket)
    {
      var cell := b.slots[i];
      if i < b.count {
        assert hs[i] == SlotIn(cell);
        RecsStep(hs, i, ticket);
      }
      if cell.version != 0 && !cell.pending && cell.version <= ticket {
        ghost var sofar := a[..n];
        a[n] := Rec(cell.key, cell.value, cell.version);
        n := n + 1;
        assert a[..n] == sofar + [Rec(cell.key, cell.value, cell.version)];
      }
      i := i + 1;
    }
    assert hs[..b.count] == hs;
  }

  // ---- the new leaves -------------------------------------------------------

  /** One leaf, or two halves, with these records. */
  ghost predicate Holds(left: Leaf, right: Leaf?, ks: seq<Key>)
    reads left.Repr()
    reads if right == null then {} else right.Repr()
  {
    && left.Valid() && (right != null ==> right.Valid())
    && if |ks| <= MAX_KEYS then right == null && left.Keys() == ks
       else right != null && left.Keys() == ks[..|ks|/2] && right.Keys() == ks[|ks|/2..]
  }

  ghost predicate HoldsVals(left: Leaf, right: Leaf?, vs: seq<Val>)
    reads left.Repr()
    reads if right == null then {} else right.Repr()
    requires left.Valid() && (right != null ==> right.Valid())
  {
    if right == null then left.Vals() == vs
    else |vs| >= 2 && left.Vals() == vs[..|vs|/2] && right.Vals() == vs[|vs|/2..]
  }

  /** The leaves for a list of sorted keys. */
  method Allocate(ticket: nat, ks: seq<Key>) returns (left: Leaf, right: Leaf?)
    requires Sorted(ks) && |ks| <= 2 * MAX_KEYS
    ensures Holds(left, right, ks) && fresh(left.Repr()) && left.ver == ticket && left.block == null
    ensures right != null ==> fresh(right.Repr()) && right.Repr() !! left.Repr() && right.ver == ticket && right.block == null
  {
    if |ks| <= MAX_KEYS {
      left := new Leaf(ticket, ks);
      right := null;
    } else {
      left := new Leaf(ticket, ks[..|ks|/2]);
      right := new Leaf(ticket, ks[|ks|/2..]);
    }
  }

  method CopyVals(leaf: Leaf, vs: seq<Val>)
    requires leaf.Valid() && |vs| == leaf.size
    modifies leaf.vals
    ensures leaf.Valid() && leaf.Keys() == old(leaf.Keys()) && leaf.Vals() == vs
  {
    var i := 0;
    while i < |vs|
      invariant i <= |vs| && leaf.Valid() && leaf.vals[..i] == vs[..i] && leaf.Keys() == old(leaf.Keys())
    {
      leaf.vals[i] := vs[i];
      i := i + 1;
    }
  }

  /** The map a replaced leaf's successors stand for. */
  ghost function ViewOfLeaf(source: Leaf, ticket: nat, key: Key, val: Val): map<Key, Val>
    reads source.Repr()
    requires source.Valid()
  {
    Overlay(Base(source.Keys(), source.Vals()), Visible(source.Slots()), ticket)[key := val]
  }

  lemma ExactLeaf(m: map<Key, Val>, ks: seq<Key>, vs: seq<Val>)
    requires |ks| == |vs| && Sorted(ks) && Base(ks, vs) == m
    ensures ks == Ascending(m.Keys) && (forall i :: 0 <= i < |ks| ==> ks[i] in m) && vs == ValuesOf(m, ks)
  {
    BaseKeys(ks, vs);
    SortedUnique(ks, Ascending(m.Keys));
    forall i | 0 <= i < |ks| ensures ks[i] in m && vs[i] == m[ks[i]] {
      assert ks[i] in KeySet(ks);
    }
  }

  /** materialize_leaf_cow: the leaf's view with the ticket's key updated, in
      one leaf or two halves, and the separator between them. */
  method Materialize(source: Leaf, ticket: nat, key: Key, val: Val) returns (sep: Key, left: Leaf, right: Leaf?)
    requires source.Valid() && source.Later(ticket)
    ensures fresh(left.Repr()) && (right != null ==> fresh(right.Repr()))
    ensures var m := ViewOfLeaf(source, ticket, key, val);
            var ks := Ascending(m.Keys);
            && (forall i :: 0 <= i < |ks| ==> ks[i] in m)
            && Holds(left, right, ks) && HoldsVals(left, right, ValuesOf(m, ks))
            && sep == (if right == null then key else ks[|ks|/2])
            && left.ver == ticket && (right != null ==> right.ver == ticket)
  {
    hide Overlay, Base, Visible, Ascending, Holds, HoldsVals;
    var ks, vs := SortedRecords(source, ticket, key, val);
    ExactLeaf(ViewOfLeaf(source, ticket, key, val), ks, vs);
    left, right := Build(ticket, ks, vs);
    sep := key;
    if right != null {
      SecondHalf(left, right, ks);
      sep := right.keys[0];
    }
  }

  lemma SecondHalf(left: Leaf, right: Leaf, ks: seq<Key>)
    requires Holds(left, right, ks)
    ensures right.Valid() && right.size > 0 && right.keys[0] == ks[|ks|/2]
  {
    assert right.Keys()[0] == ks[|ks|/2..][0];
  }

  method Build(ticket: nat, ks: seq<Key>, vs: seq<Val>) returns (left: Leaf, right: Leaf?)
    requires |ks| == |vs| <= 2 * MAX_KEYS && Sorted(ks)
    ensures fresh(left.Repr()) && left.ver == ticket && (right != null ==> fresh(right.Repr()) && right.ver == ticket)
    ensures Holds(left, right, ks) && HoldsVals(left, right, vs)
  {
    left, right := Allocate(ticket, ks);
    if right == null {
      CopyVals(left, vs);
    } else {
      CopyVals(left, vs[..|vs|/2]);
      CopyVals(right, vs[|vs|/2..]);
    }
  }

  /** Sorting, deduplicating and merging give the sorted records of the view. */
  method SortedRecords(source: Leaf, ticket: nat, key: Key, val: Val) returns (ks: seq<Key>, vs: seq<Val>)
    requires source.Valid() && source.Later(ticket)
    ensures |ks| == |vs| <= 2 * MAX_KEYS && Sorted(ks) && Base(ks, vs) == ViewOfLeaf(source, ticket, key, val)
  {
    hide Overlay, Base, Visible, Recs, RecMap, NewestOf, Merged, Rising, VersionsRise;
    var a, n := Gather(source, ticket, key, val);
    ghost var rs := a[..n];
    Sort(a, n);
    ghost var s := a[..n];
    var m := Dedupe(a, n);
    SortedNewest(rs, s, a[..m]);
    RisingOf(rs, a[..m]);
    var out, c := MergeInto(source.keys[..source.size], source.vals[..source.size], source.ver, a, m);
    MergedMap(source.Keys(), source.Vals(), source.ver, rs, a[..m], out[..c]);
    OneMore(Base(source.Keys(), source.Vals()), source.Slots(), ticket, key, val);
    ks, vs := KeysOf(out[..c]), ValsOf(out[..c]);
  }

  lemma OneMore(m: map<Key, Val>, hs: seq<HSlot>, ticket: nat, key: Key, val: Val)
    ensures RecMap(m, Recs(Visible(hs), ticket) + [Rec(key, val, ticket)]) == Overlay(m, Visible(hs), ticket)[key := val]
  {
    RecsMap(m, Visible(hs), ticket);
    var t := Recs(Visible(hs), ticket) + [Rec(key, val, ticket)];
    assert t[..|t|-1] == Recs(Visible(hs), ticket);
  }

  lemma RisingOf(rs: seq<Rec>, d: seq<Rec>)
    requires NewestOf(rs, d)
    ensures Rising(d)
  {
  }
}
