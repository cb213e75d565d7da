/** Replacing a leaf in two phases: the topology while older values are still
    pending, the values when they have all been published. */
module LeafTwoPhase {
  import opened Options
  import opened Records
  import opened StagedCow
  import opened LeafRecords
  import opened FatLeaf
  import opened LeafReplace

  // ---- the keys -------------------------------------------------------------

  ghost function KeysIn(rs: seq<Rec>): set<Key> {
    set r | r in rs :: r.key
  }

  lemma SlotKeyStep(hs: seq<HSlot>, i: nat, ticket: nat)
    requires i < |hs|
    ensures SlotKeys(Erase(hs[..i+1]), ticket)
            == SlotKeys(Erase(hs[..i]), ticket) + (if hs[i].version <= ticket then {hs[i].key} else {})
  {
    var a, b := Erase(hs[..i]), Erase(hs[..i+1]);
    assert b[i] == Plain(hs[i]);
    assert forall j :: 0 <= j < i ==> b[j] == a[j];
    forall k ensures k in SlotKeys(b, ticket) <==> k in SlotKeys(a, ticket) || (hs[i].version <= ticket && k == hs[i].key) {
      if k in SlotKeys(a, ticket) {
        var j :| 0 <= j < i && a[j].version <= ticket && a[j].key == k;
        assert b[j].key == k;
      }
      if k in SlotKeys(b, ticket) {
        var j :| 0 <= j < i + 1 && b[j].version <= ticket && b[j].key == k;
      }
    }
  }

  /** The keys of all slots up to the ticket; no value is read. */
  method CollectKeys(b: DeltaBlock, ticket: nat, a: array<Rec>) returns (n: nat)
    requires b.Valid() && a.Length == MAX_SLOTS + 1
    modifies a
    ensures n <= MAX_SLOTS && KeysIn(a[..n]) == SlotKeys(Erase(SlotsIn(b.slots[..b.count])), ticket)
  {
    hide SlotKeys, Erase;
    ghost var hs := SlotsIn(b.slots[..b.count]);
    NoSlotKeys(hs[..0], ticket);
    n := 0;
    var i := 0;
    while i < b.capacity
      invariant i <= b.capacity && n <= i
      invariant KeysIn(a[..n]) == SlotKeys(Erase(hs[..if i <= b.count then i else b.count]), ticket)
    {
      var cell := b.slots[i];
      if i < b.count {
        assert hs[i] == SlotIn(cell);
        SlotKeyStep(hs, i, ticket);
      }
      if cell.version != 0 && cell.version <= ticket {
        ghost var had := a[..n];
        a[n] := Rec(cell.key, 0, 0);
        n := n + 1;
        assert a[..n] == had + [Rec(cell.key, 0, 0)];
        AddKey(had, Rec(cell.key, 0, 0));
      }
      i := i + 1;
    }
    assert hs[..b.count] == hs;
  }

  lemma NoSlotKeys(hs: seq<HSlot>, ticket: nat)
    requires hs == []
    ensures SlotKeys(Erase(hs), ticket) == {}
  {
  }

  lemma AddKey(rs: seq<Rec>, r: Rec)
    ensures KeysIn(rs + [r]) == KeysIn(rs) + {r.key}
  {
    forall k ensures k in KeysIn(rs + [r]) <==> k in KeysIn(rs) || k == r.key {
      if k in KeysIn(rs) {
        var x :| x in rs && x.key == k;
        assert x in rs + [r];
      }
      assert r in rs + [r];
    }
  }

  /** Merging keeps exactly the keys of both lists. */
  lemma MergedKeys(keys: seq<Key>, zeros: seq<Val>, rs: seq<Rec>, s: seq<Rec>, d: seq<Rec>, out: seq<Rec>)
    requires |zeros| == |keys| && multiset(rs) == multiset(s) && NewestOf(s, d) && Merged(BaseRecs(keys, zeros, 0), d, out)
    ensures Sorted(KeysOf(out)) && KeySet(KeysOf(out)) == KeySet(keys) + KeysIn(rs)
  {
    SameRecords(rs, s);
    var ks := KeysOf(out);
    forall k ensures k in KeySet(ks) <==> k in KeySet(keys) + KeysIn(rs) {
      if k in KeySet(ks) {
        var i :| 0 <= i < |out| && out[i].key == k;
        KeyFrom(keys, zeros, s, d, out[i]);
        if out[i] in s { assert out[i] in rs; }
      }
      if k in KeySet(keys) {
        var i :| 0 <= i < |keys| && keys[i] == k;
        assert HasKey(out, BaseRecs(keys, zeros, 0)[i].key);
        InKeys(out, k);
      }
      if k in KeysIn(rs) {
        var r :| r in rs && r.key == k;
        assert r in s;
        var i :| 0 <= i < |s| && s[i] == r;
        assert HasKey(d, s[i].key);
        var j :| 0 <= j < |d| && d[j].key == k;
        assert HasKey(out, d[j].key);
        InKeys(out, k);
      }
    }
  }

  lemma InKeys(out: seq<Rec>, k: Key)
    requires HasKey(out, k)
    ensures k in KeySet(KeysOf(out))
  {
    var i :| 0 <= i < |out| && out[i].key == k;
    assert KeysOf(out)[i] == k;
  }

  lemma KeyFrom(keys: seq<Key>, zeros: seq<Val>, s: seq<Rec>, d: seq<Rec>, r: Rec)
    requires |zeros| == |keys| && NewestOf(s, d) && Wins(BaseRecs(keys, zeros, 0), d, r)
    ensures r.key in KeySet(keys) || r in s
  {
    if r in d {
      var i :| 0 <= i < |d| && d[i] == r;
      assert NewestIn(s, d[i]);
    } else {
      var i :| 0 <= i < |keys| && BaseRecs(keys, zeros, 0)[i] == r;
      assert keys[i] == r.key;
    }
  }

  /** The keys to add: those of the slots, and the ticket's own. */
  method GatherKeys(source: Leaf, ticket: nat, key: Key) returns (a: array<Rec>, n: nat)
    requires source.Valid()
    ensures fresh(a) && n <= a.Length == MAX_SLOTS + 1
    ensures KeysIn(a[..n]) == SlotKeys(Erase(source.Slots()), ticket) + {key}
  {
    hide SlotKeys, Erase, KeysIn;
    a := new Rec[MAX_SLOTS + 1](_ => Rec(0, 0, 0));
    n := 0;
    if source.block != null {
      n := CollectKeys(source.block, ticket, a);
    } else {
      NoSlotKeys(source.Slots(), ticket);
      NoKeys(a[..0]);
    }
    ghost var had := a[..n];
    a[n] := Rec(key, 0, 0);
    n := n + 1;
    assert a[..n] == had + [Rec(key, 0, 0)];
    AddKey(had, Rec(key, 0, 0));
  }

  /** The sorted union of the base keys and the overlay keys. */
  method UnionKeys(source: Leaf, ticket: nat, key: Key) returns (ks: seq<Key>)
    requires source.Valid()
    ensures |ks| <= 2 * MAX_KEYS
    ensures ks == NewKeys(source.Keys(), source.Slots(), Request(ticket, key, 0, true))
  {
    hide SlotKeys, Erase, NewestOf, Merged, Rising, KeysIn, NewKeys;
    var a, n := GatherKeys(source, ticket, key);
    ghost var rs := a[..n];
    Sort(a, n);
    ghost var s := a[..n];
    var m := Dedupe(a, n);
    RisingOf(s, a[..m]);
    var zeros := seq(source.size, _ => 0);
    var out, c := MergeInto(source.keys[..source.size], zeros, 0, a, m);
    MergedKeys(source.Keys(), zeros, rs, s, a[..m], out[..c]);
    ks := KeysOf(out[..c]);
    KeysAreNew(ks, source.Keys(), source.Slots(), Request(ticket, key, 0, true));
  }

  lemma KeysAreNew(ks: seq<Key>, keys: seq<Key>, hs: seq<HSlot>, r: Request)
    requires Sorted(ks) && KeySet(ks) == KeySet(keys) + (SlotKeys(Erase(hs), r.ticket) + {r.key})
    ensures ks == NewKeys(keys, hs, r)
  {
    assert KeySet(keys) + (SlotKeys(Erase(hs), r.ticket) + {r.key}) == KeySet(keys) + SlotKeys(Erase(hs), r.ticket) + {r.key};
    SortedUnique(ks, NewKeys(keys, hs, r));
  }

  lemma NoKeys(rs: seq<Rec>)
    requires rs == []
    ensures KeysIn(rs) == {}
  {
  }

  /** prepare_leaf_cow: the leaves with their final keys, and the separator. */
  method Prepare(source: Leaf, ticket: nat, key: Key) returns (sep: Key, left: Leaf, right: Leaf?)
    requires source.Valid()
    ensures fresh(left.Repr()) && (right != null ==> fresh(right.Repr()) && right.Repr() !! left.Repr())
    ensures var ks := NewKeys(source.Keys(), source.Slots(), Request(ticket, key, 0, true));
            && Holds(left, right, ks) && sep == (if right == null then key else ks[|ks|/2])
            && left.ver == ticket && (right != null ==> right.ver == ticket)
  {
    hide NewKeys;
    var ks := UnionKeys(source, ticket, key);
    NewKeysSorted(source.Keys(), source.Slots(), Request(ticket, key, 0, true));
    left, right := Allocate(ticket, ks);
    sep := key;
    if right != null {
      SecondHalf(left, right, ks);
      sep := right.keys[0];
    }
  }

  lemma NewKeysSorted(keys: seq<Key>, hs: seq<HSlot>, r: Request)
    ensures Sorted(NewKeys(keys, hs, r))
  {
  }

  // ---- the values -----------------------------------------------------------

  function ValueOr0(m: map<Key, Val>, k: Key): Val {
    if k in m then m[k] else 0
  }

  /** Every destination value is what the map says so far. */
  ghost predicate ValuesFrom(ks: seq<Key>, vs: seq<Val>, m: map<Key, Val>) {
    |vs| == |ks| && forall i :: 0 <= i < |ks| ==> vs[i] == ValueOr0(m, ks[i])
  }

  /** findval on a sorted list of keys. */
  method Position(ks: seq<Key>, key: Key) returns (pos: nat)
    ensures pos <= |ks| && (forall i :: 0 <= i < pos ==> ks[i] < key) && (pos < |ks| ==> key <= ks[pos])
  {
    pos := 0;
    while pos < |ks| && ks[pos] < key
      invariant pos <= |ks| && forall i :: 0 <= i < pos ==> ks[i] < key
    {
      pos := pos + 1;
    }
  }

  lemma PositionOf(ks: seq<Key>, key: Key, pos: nat)
    requires Sorted(ks) && key in ks && pos <= |ks|
    requires (forall i :: 0 <= i < pos ==> ks[i] < key) && (pos < |ks| ==> key <= ks[pos])
    ensures pos < |ks| && ks[pos] == key
  {
    var k :| 0 <= k < |ks| && ks[k] == key;
    assert pos <= k;
  }

  /** Walks the sorted source once, copying the values of the keys it shares
      with the destination. */
  method FillBase(keys: seq<Key>, vals: seq<Val>, dk: seq<Key>, dv: array<Val>, from: nat) returns (next: nat)
    requires |keys| == |vals| && Sorted(keys) && Sorted(dk) && |dk| <= dv.Length && from <= |keys|
    requires forall x, i :: 0 <= x < from && 0 <= i < |dk| ==> keys[x] < dk[i]
    modifies dv
    ensures from <= next <= |keys| && (|dk| == 0 ==> next == from)
    ensures |dk| > 0 ==> forall x :: 0 <= x < next ==> keys[x] < dk[|dk|-1]
    ensures ValuesFrom(dk, dv[..|dk|], Base(keys, vals))
  {
    hide Base;
    next := from;
    var i := 0;
    while i < |dk|
      invariant i <= |dk| && from <= next <= |keys| && (i == 0 ==> next == from)
      invariant forall x, j :: 0 <= x < next && i <= j < |dk| ==> keys[x] < dk[j]
      invariant i > 0 ==> forall x :: 0 <= x < next ==> keys[x] < dk[i-1]
      invariant forall j :: 0 <= j < i ==> dv[j] == ValueOr0(Base(keys, vals), dk[j])
    {
      while next < |keys| && keys[next] < dk[i]
        invariant from <= next <= |keys| && forall x :: 0 <= x < next ==> keys[x] < dk[i]
      {
        next := next + 1;
      }
      BaseLookup(keys, vals, dk[i], next);
      dv[i] := if next < |keys| && keys[next] == dk[i] then vals[next] else 0;
      i := i + 1;
    }
  }

  /** The base values, for both destinations: the walk goes on where the first
      one ended. */
  method FillBoth(keys: seq<Key>, vals: seq<Val>, lk: seq<Key>, lv: array<Val>, rk: seq<Key>, rv: array<Val>)
    requires |keys| == |vals| && Sorted(keys) && Sorted(lk + rk) && |lk| <= lv.Length && |rk| <= rv.Length && lv != rv
    modifies lv, rv
    ensures ValuesFrom(lk + rk, lv[..|lk|] + rv[..|rk|], Base(keys, vals))
  {
    SortedParts(lk, rk);
    var next := FillBase(keys, vals, lk, lv, 0);
    forall x, i | 0 <= x < next && 0 <= i < |rk| ensures keys[x] < rk[i] {
      assert lk[|lk|-1] < rk[i];
    }
    next := FillBase(keys, vals, rk, rv, next);
  }

  lemma SortedParts(a: seq<Key>, b: seq<Key>)
    requires Sorted(a + b)
    ensures Sorted(a) && Sorted(b) && forall i, j :: 0 <= i < |a| && 0 <= j < |b| ==> a[i] < b[j]
  {
    var s := a + b;
    assert forall i :: 0 <= i < |a| ==> s[i] == a[i];
    assert forall j :: 0 <= j < |b| ==> s[|a| + j] == b[j];
  }

  /** Writes one value, to whichever destination has the key. */
  method Put(lk: seq<Key>, lv: array<Val>, rk: seq<Key>, rv: array<Val>, key: Key, value: Val) returns (ghost pos: nat)
    requires Sorted(lk + rk) && |lk| <= lv.Length && |rk| <= rv.Length && lv != rv && key in lk + rk
    modifies lv, rv
    ensures pos < |lk + rk| && (lk + rk)[pos] == key
    ensures lv[..|lk|] + rv[..|rk|] == (old(lv[..|lk|]) + old(rv[..|rk|]))[pos := value]
  {
    SortedParts(lk, rk);
    if rk != [] && key >= rk[0] {
      var i := Position(rk, key);
      PositionOf(rk, key, i);
      rv[i] := value;
      pos := |lk| + i;
    } else {
      var i := Position(lk, key);
      PositionOf(lk, key, i);
      lv[i] := value;
      pos := i;
    }
  }

  lemma PutMaps(ks: seq<Key>, vs: seq<Val>, m: map<Key, Val>, pos: nat, key: Key, value: Val)
    requires ValuesFrom(ks, vs, m) && Sorted(ks) && pos < |ks| && ks[pos] == key
    ensures ValuesFrom(ks, vs[pos := value], m[key := value])
  {
    forall i | 0 <= i < |ks| && i != pos ensures ks[i] != key {
      if i < pos { assert ks[i] < ks[pos]; } else { assert ks[pos] < ks[i]; }
    }
  }

  /** The overlay values, slot by slot in the order they were reserved. */
  method PutSlots(cells: array<Cell>, count: nat, ticket: nat, lk: seq<Key>, lv: array<Val>, rk: seq<Key>, rv: array<Val>,
                  ghost base: map<Key, Val>)
    requires count <= cells.Length && (forall i :: 0 <= i < cells.Length ==> (cells[i].version > 0 <==> i < count))
    requires forall i :: 0 <= i < count ==> !cells[i].pending && (cells[i].version <= ticket ==> cells[i].key in lk + rk)
    requires Sorted(lk + rk) && |lk| <= lv.Length && |rk| <= rv.Length && lv != rv
    requires ValuesFrom(lk + rk, lv[..|lk|] + rv[..|rk|], base)
    modifies lv, rv
    ensures ValuesFrom(lk + rk, lv[..|lk|] + rv[..|rk|], Overlay(base, Visible(SlotsIn(cells[..count])), ticket))
  {
    hide Overlay, Visible, ValuesFrom, Sorted;
    ghost var hs := SlotsIn(cells[..count]);
    NoSlots(base, hs[..0], ticket);
    var i := 0;
    while i < cells.Length
      invariant i <= cells.Length
      invariant ValuesFrom(lk + rk, lv[..|lk|] + rv[..|rk|], Overlay(base, Visible(hs[..if i <= count then i else count]), ticket))
    {
      var cell := cells[i];
      if i < count {
        assert hs[i] == SlotIn(cell);
        SlotOverlay(base, hs, i, ticket);
      }
      if cell.version != 0 && cell.version <= ticket {
        ghost var vs := lv[..|lk|] + rv[..|rk|];
        ghost var pos := Put(lk, lv, rk, rv, cell.key, cell.value);
        PutMaps(lk + rk, vs, Overlay(base, Visible(hs[..i]), ticket), pos, cell.key, cell.value);
      }
      i := i + 1;
    }
    assert hs[..count] == hs;
  }

  lemma SlotOverlay(m: map<Key, Val>, hs: seq<HSlot>, i: nat, ticket: nat)
    requires i < |hs| && hs[i].value.Some?
    ensures Overlay(m, Visible(hs[..i+1]), ticket)
            == if hs[i].version <= ticket then Overlay(m, Visible(hs[..i]), ticket)[hs[i].key := hs[i].value.value]
               else Overlay(m, Visible(hs[..i]), ticket)
  {
    assert hs[..i+1][..i] == hs[..i];
    var v := Visible(hs[..i]);
    assert Visible(hs[..i+1]) == v + [Plain(hs[i])];
    assert (v + [Plain(hs[i])])[..|v|] == v;
  }

  /** The values of both destinations, from the source leaf and the slots. */
  method FinishValues(keys: seq<Key>, vals: seq<Val>, cells: array<Cell>, count: nat, ticket: nat, key: Key, val: Val,
                      lk: seq<Key>, lv: array<Val>, rk: seq<Key>, rv: array<Val>)
    requires |keys| == |vals| && Sorted(keys) && Sorted(lk + rk) && |lk| <= lv.Length && |rk| <= rv.Length && lv != rv
    requires count <= cells.Length && (forall i :: 0 <= i < cells.Length ==> (cells[i].version > 0 <==> i < count))
    requires Published(SlotsIn(cells[..count]))
    requires lk + rk == NewKeys(keys, SlotsIn(cells[..count]), Request(ticket, key, 0, true))
    modifies lv, rv
    ensures var m := Overlay(Base(keys, vals), Visible(SlotsIn(cells[..count])), ticket)[key := val];
            && lk + rk == Ascending(m.Keys) && (forall i :: 0 <= i < |lk + rk| ==> (lk + rk)[i] in m)
            && lv[..|lk|] + rv[..|rk|] == ValuesOf(m, lk + rk)
  {
    hide Base, Overlay, Visible, ValuesFrom, NewKeys, Ascending, Sorted;
    ghost var hs := SlotsIn(cells[..count]);
    ghost var m := Overlay(Base(keys, vals), Visible(hs), ticket);
    NewKeysHave(keys, vals, hs, ticket, key, val);
    assert forall i :: 0 <= i < count ==> hs[i].value.Some? && hs[i] == SlotIn(cells[i]);
    FillBoth(keys, vals, lk, lv, rk, rv);
    PutSlots(cells, count, ticket, lk, lv, rk, rv, Base(keys, vals));
    ghost var vs := lv[..|lk|] + rv[..|rk|];
    ghost var pos := Put(lk, lv, rk, rv, key, val);
    PutMaps(lk + rk, vs, m, pos, key, val);
    AllValues(lk + rk, lv[..|lk|] + rv[..|rk|], m[key := val]);
  }

  /** The map and keys a replacement must end with. */
  ghost predicate Final(source: Leaf, ticket: nat, key: Key, val: Val, ks: seq<Key>, vs: seq<Val>)
    reads source.Repr()
    requires source.Valid()
  {
    var m := ViewOfLeaf(source, ticket, key, val);
    ks == Ascending(m.Keys) && (forall i :: 0 <= i < |ks| ==> ks[i] in m) && vs == ValuesOf(m, ks)
  }

  method FinishTwo(source: Leaf, ticket: nat, key: Key, val: Val, lk: seq<Key>, lv: array<Val>, rk: seq<Key>, rv: array<Val>)
    requires source.Valid() && Published(source.Slots()) && |lk| <= lv.Length && |rk| <= rv.Length
    requires lv !in source.Repr() && rv !in source.Repr() && lv != rv
    requires lk + rk == NewKeys(source.Keys(), source.Slots(), Request(ticket, key, 0, true))
    modifies lv, rv
    ensures source.Valid() && source.Keys() == old(source.Keys()) && source.Vals() == old(source.Vals()) && source.Slots() == old(source.Slots())
    ensures Final(source, ticket, key, val, lk + rk, lv[..|lk|] + rv[..|rk|])
  {
    hide NewKeys, Base, Overlay, Visible, Ascending, SlotKeys, Erase;
    NewKeysSorted(source.Keys(), source.Slots(), Request(ticket, key, 0, true));
    var cells, count := CellsOf(source);
    FinishValues(source.keys[..source.size], source.vals[..source.size], cells, count, ticket, key, val, lk, lv, rk, rv);
  }

  method FinishOne(source: Leaf, ticket: nat, key: Key, val: Val, left: Leaf)
    requires source.Valid() && Published(source.Slots()) && left.Valid() && left.vals !in source.Repr()
    requires left.Keys() == NewKeys(source.Keys(), source.Slots(), Request(ticket, key, 0, true))
    modifies left.vals
    ensures source.Valid() && source.Keys() == old(source.Keys()) && source.Vals() == old(source.Vals()) && source.Slots() == old(source.Slots())
    ensures left.Valid() && left.Keys() == old(left.Keys()) && Final(source, ticket, key, val, left.Keys(), left.Vals())
  {
    hide NewKeys, Published, Final;
    var none := new Val[0];
    var lk := left.keys[..left.size];
    assert lk + [] == lk;
    FinishTwo(source, ticket, key, val, lk, left.vals, [], none);
    assert left.vals[..|lk|] + none[..0] == left.vals[..|lk|];
  }

  method FinishPair(source: Leaf, ticket: nat, key: Key, val: Val, left: Leaf, right: Leaf)
    requires source.Valid() && Published(source.Slots()) && left.Valid() && right.Valid()
    requires left.vals !in source.Repr() && right.vals !in source.Repr() && right.vals !in left.Repr() && left.vals !in right.Repr()
    requires left.Keys() + right.Keys() == NewKeys(source.Keys(), source.Slots(), Request(ticket, key, 0, true))
    modifies left.vals, right.vals
    ensures source.Valid() && source.Keys() == old(source.Keys()) && source.Vals() == old(source.Vals()) && source.Slots() == old(source.Slots())
    ensures left.Valid() && left.Keys() == old(left.Keys()) && right.Valid() && right.Keys() == old(right.Keys())
    ensures Final(source, ticket, key, val, left.Keys() + right.Keys(), left.Vals() + right.Vals())
  {
    hide NewKeys, Published, Final;
    FinishTwo(source, ticket, key, val, left.keys[..left.size], left.vals, right.keys[..right.size], right.vals);
  }

  /** finish_leaf_cow: every value of both leaves, once the sources are there. */
  method Finish(source: Leaf, ticket: nat, key: Key, val: Val, left: Leaf, right: Leaf?)
    requires source.Valid() && Published(source.Slots())
    requires Holds(left, right, NewKeys(source.Keys(), source.Slots(), Request(ticket, key, 0, true)))
    requires left.vals !in source.Repr() && left.vals != left.keys
    requires right != null ==> right.vals !in source.Repr() && right.vals !in left.Repr() && left.vals !in right.Repr()
    modifies left.vals, if right == null then {} else {right.vals}
    ensures source.Valid() && source.Keys() == old(source.Keys()) && source.Vals() == old(source.Vals()) && source.Slots() == old(source.Slots())
    ensures var m := ViewOfLeaf(source, ticket, key, val);
            var ks := Ascending(m.Keys);
            && ks == old(NewKeys(source.Keys(), source.Slots(), Request(ticket, key, 0, true)))
            && (forall i :: 0 <= i < |ks| ==> ks[i] in m)
            && Holds(left, right, ks) && HoldsVals(left, right, ValuesOf(m, ks))
  {
    hide NewKeys, Published, Final, Ascending, ViewOfLeaf, Leaf.Valid;
    KeysOfView(source, ticket, key, val);
    ghost var ks := NewKeys(source.Keys(), source.Slots(), Request(ticket, key, 0, true));
    if right == null {
      FinishOne(source, ticket, key, val, left);
      DestOne(source, ticket, key, val, left);
    } else {
      assert left.Keys() + right.Keys() == ks;
      FinishPair(source, ticket, key, val, left, right);
      DestTwo(source, ticket, key, val, left, right, ks);
    }
  }

  lemma DestOne(source: Leaf, ticket: nat, key: Key, val: Val, left: Leaf)
    requires source.Valid() && left.Valid() && Final(source, ticket, key, val, left.Keys(), left.Vals())
    ensures var m := ViewOfLeaf(source, ticket, key, val);
            var ks := Ascending(m.Keys);
            && (forall i :: 0 <= i < |ks| ==> ks[i] in m)
            && Holds(left, null, ks) && HoldsVals(left, null, ValuesOf(m, ks))
  {
    hide Ascending, ViewOfLeaf;
  }

  lemma DestTwo(source: Leaf, ticket: nat, key: Key, val: Val, left: Leaf, right: Leaf, ks: seq<Key>)
    requires source.Valid() && left.Valid() && right.Valid() && Final(source, ticket, key, val, ks, left.Vals() + right.Vals())
    requires |ks| > MAX_KEYS && left.Keys() == ks[..|ks|/2] && right.Keys() == ks[|ks|/2..]
    ensures var m := ViewOfLeaf(source, ticket, key, val);
            ks == Ascending(m.Keys) && (forall i :: 0 <= i < |ks| ==> ks[i] in m)
            && Holds(left, right, ks) && HoldsVals(left, right, ValuesOf(m, ks))
  {
    hide Ascending, ViewOfLeaf;
    SplitValues(left.Vals(), right.Vals(), ks, left.Vals() + right.Vals());
  }

  lemma SplitValues(lv: seq<Val>, rv: seq<Val>, ks: seq<Key>, vs: seq<Val>)
    requires lv + rv == vs && |vs| == |ks|
    ensures vs[..|lv|] == lv && vs[|lv|..] == rv
  {
  }

  method CellsOf(source: Leaf) returns (cells: array<Cell>, count: nat)
    requires source.Valid()
    ensures count <= cells.Length && (forall i :: 0 <= i < cells.Length ==> (cells[i].version > 0 <==> i < count))
    ensures SlotsIn(cells[..count]) == source.Slots()
    ensures source.block == null ==> fresh(cells)
    ensures source.block != null ==> cells == source.block.slots
  {
    if source.block == null {
      cells, count := new Cell[0], 0;
    } else {
      cells, count := source.block.slots, source.block.count;
    }
  }

  lemma AllValues(ks: seq<Key>, vs: seq<Val>, m: map<Key, Val>)
    requires ValuesFrom(ks, vs, m) && ks == Ascending(m.Keys)
    ensures (forall i :: 0 <= i < |ks| ==> ks[i] in m) && vs == ValuesOf(m, ks)
  {
    forall i | 0 <= i < |ks| ensures ks[i] in m {
      assert ks[i] in KeySet(ks);
    }
  }

  /** The prepared keys are the keys of the final view. */
  lemma NewKeysHave(keys: seq<Key>, vals: seq<Val>, hs: seq<HSlot>, ticket: nat, key: Key, val: Val)
    requires |keys| == |vals| && Published(hs)
    ensures var ks := NewKeys(keys, hs, Request(ticket, key, 0, true));
            && key in ks && (forall i :: 0 <= i < |hs| && hs[i].version <= ticket ==> hs[i].key in ks)
            && ks == Ascending(Overlay(Base(keys, vals), Visible(hs), ticket)[key := val].Keys)
  {
    hide Base, Overlay, Visible, Ascending, SlotKeys, Erase, Published;
    var ks := NewKeys(keys, hs, Request(ticket, key, 0, true));
    var all := KeySet(keys) + SlotKeys(Erase(hs), ticket) + {key};
    ViewKeys(keys, vals, hs, ticket, key, val);
    assert KeySet(ks) == all;
    assert key in KeySet(ks);
    forall i | 0 <= i < |hs| && hs[i].version <= ticket ensures hs[i].key in ks {
      SlotKeyIn(hs, i, ticket);
      assert hs[i].key in KeySet(ks);
    }
  }

  lemma SlotKeyIn(hs: seq<HSlot>, i: nat, ticket: nat)
    requires i < |hs| && hs[i].version <= ticket
    ensures hs[i].key in SlotKeys(Erase(hs), ticket)
  {
    assert Erase(hs)[i].key == hs[i].key && Erase(hs)[i].version == hs[i].version;
  }

  lemma ViewKeys(keys: seq<Key>, vals: seq<Val>, hs: seq<HSlot>, ticket: nat, key: Key, val: Val)
    requires |keys| == |vals| && Published(hs)
    ensures Overlay(Base(keys, vals), Visible(hs), ticket)[key := val].Keys == KeySet(keys) + SlotKeys(Erase(hs), ticket) + {key}
  {
    hide Base, Overlay, Visible, SlotKeys, Erase;
    AllVisible(hs);
    BaseKeys(keys, vals);
    OverlayKeys(Base(keys, vals), Erase(hs), ticket);
  }

  lemma {:induction false} AllVisible(hs: seq<HSlot>)
    requires Published(hs)
    ensures Visible(hs) == Erase(hs)
  {
    if hs != [] {
      var n := |hs| - 1;
      AllVisible(hs[..n]);
      assert Erase(hs) == Erase(hs[..n]) + [Plain(hs[n])];
    }
  }

  /** The second phase, after slots have been published. */
  method FinishLate(source: Leaf, ticket: nat, key: Key, val: Val, late: seq<(nat, Val)>, left: Leaf, right: Leaf?)
    requires source.Valid() && left.Repr() !! source.Repr() && (right != null ==> right.Repr() !! source.Repr() && right.Repr() !! left.Repr())
    requires Holds(left, right, NewKeys(source.Keys(), source.Slots(), Request(ticket, key, 0, true)))
    requires forall i :: 0 <= i < |late| ==> late[i].0 < |source.Slots()|
    requires forall k :: 0 <= k < |source.Slots()| && source.Slots()[k].value.None? ==> Among(late, |late|, k)
    modifies if source.block == null then {} else {source.block.slots}
    modifies left.vals, if right == null then {} else {right.vals}
    ensures source.Valid() && source.Keys() == old(source.Keys()) && source.Vals() == old(source.Vals())
    ensures source.Slots() == WithLate(old(source.Slots()), late, |late|)
    ensures var m := ViewOfLeaf(source, ticket, key, val);
            var ks := Ascending(m.Keys);
            && ks == old(NewKeys(source.Keys(), source.Slots(), Request(ticket, key, 0, true)))
            && (forall i :: 0 <= i < |ks| ==> ks[i] in m)
            && Holds(left, right, ks) && HoldsVals(left, right, ValuesOf(m, ks))
  {
    hide NewKeys, Ascending, ViewOfLeaf, Holds, HoldsVals, Sorted, Among, Published, SamePlaces, WithLate, Leaf.Valid;
    PublishAll(source, late);
    AllPublished(old(source.Slots()), source.Slots(), late);
    TwoArrays(left, right, NewKeys(old(source.Keys()), old(source.Slots()), Request(ticket, key, 0, true)));
    SameNewKeys(source.Keys(), old(source.Slots()), source.Slots(), Request(ticket, key, 0, true));
    Finish(source, ticket, key, val, left, right);
  }

  /** Two phases are one: whatever slots are published in between, and in
      whatever order, preparing the leaves first and finishing them later ends
      with the leaves, and the separator between them, that replacing the leaf
      in one go would give. */
  method InTwoPhases(source: Leaf, ticket: nat, key: Key, val: Val, late: seq<(nat, Val)>) returns (sep: Key, left: Leaf, right: Leaf?)
    requires source.Valid()
    requires forall i :: 0 <= i < |late| ==> late[i].0 < |source.Slots()|
    requires forall k :: 0 <= k < |source.Slots()| && source.Slots()[k].value.None? ==> Among(late, |late|, k)
    modifies if source.block == null then {} else {source.block.slots}
    ensures source.Valid() && source.Keys() == old(source.Keys()) && source.Vals() == old(source.Vals())
    ensures source.Slots() == WithLate(old(source.Slots()), late, |late|)
    ensures var m := ViewOfLeaf(source, ticket, key, val);
            var ks := Ascending(m.Keys);
            && (forall i :: 0 <= i < |ks| ==> ks[i] in m)
            && Holds(left, right, ks) && HoldsVals(left, right, ValuesOf(m, ks))
            && sep == (if right == null then key else ks[|ks|/2])
            && left.ver == ticket && (right != null ==> right.ver == ticket)
  {
    hide NewKeys, Ascending, ViewOfLeaf, HoldsVals, Sorted, Among, SamePlaces;
    sep, left, right := Prepare(source, ticket, key);
    FinishLate(source, ticket, key, val, late, left, right);
  }

  lemma AllPublished(was: seq<HSlot>, hs: seq<HSlot>, late: seq<(nat, Val)>)
    requires |hs| == |was| && forall k :: 0 <= k < |was| && was[k].value.None? ==> Among(late, |late|, k)
    requires forall k :: 0 <= k < |hs| && (was[k].value.Some? || Among(late, |late|, k)) ==> hs[k].value.Some?
    ensures Published(hs)
  {
  }

  lemma TwoArrays(left: Leaf, right: Leaf?, ks: seq<Key>)
    requires Holds(left, right, ks)
    ensures left.vals != left.keys
  {
  }

  lemma KeysOfView(source: Leaf, ticket: nat, key: Key, val: Val)
    requires source.Valid() && Published(source.Slots())
    ensures NewKeys(source.Keys(), source.Slots(), Request(ticket, key, 0, true)) == Ascending(ViewOfLeaf(source, ticket, key, val).Keys)
  {
    hide NewKeys, Ascending, Base, Overlay, Visible;
    NewKeysHave(source.Keys(), source.Vals(), source.Slots(), ticket, key, val);
  }

  /** The slots of a leaf, whatever their values. */
  ghost predicate SamePlaces(a: seq<HSlot>, b: seq<HSlot>) {
    |a| == |b| && forall i :: 0 <= i < |a| ==> a[i].version == b[i].version && a[i].key == b[i].key
  }

  /** The slots once the first n values have been published, one after
      another. */
  function WithLate(hs: seq<HSlot>, late: seq<(nat, Val)>, n: nat): (r: seq<HSlot>)
    requires n <= |late| && forall i :: 0 <= i < |late| ==> late[i].0 < |hs|
    ensures SamePlaces(hs, r)
  {
    if n == 0 then hs else
    var rest := WithLate(hs, late, n - 1);
    rest[late[n-1].0 := rest[late[n-1].0].(value := Some(late[n-1].1))]
  }

  predicate Among(late: seq<(nat, Val)>, n: nat, k: nat)
    requires n <= |late|
  {
    exists i :: 0 <= i < n && late[i].0 == k
  }

  method PublishAll(source: Leaf, late: seq<(nat, Val)>)
    requires source.Valid() && forall i :: 0 <= i < |late| ==> late[i].0 < |source.Slots()|
    modifies if source.block == null then {} else {source.block.slots}
    ensures source.Valid() && source.Keys() == old(source.Keys()) && source.Vals() == old(source.Vals())
    ensures source.Slots() == WithLate(old(source.Slots()), late, |late|) && SamePlaces(old(source.Slots()), source.Slots())
    ensures |source.Slots()| == |old(source.Slots())|
    ensures forall k :: 0 <= k < |source.Slots()| && (old(source.Slots())[k].value.Some? || Among(late, |late|, k))
              ==> source.Slots()[k].value.Some?
  {
    hide Leaf.Valid, Leaf.Keys, Leaf.Vals;
    var i := 0;
    ghost var was := source.Slots();
    while i < |late|
      invariant i <= |late| && source.Valid() && source.Keys() == old(source.Keys()) && source.Vals() == old(source.Vals())
      invariant source.Slots() == WithLate(was, late, i)
      invariant forall k :: 0 <= k < |was| && (was[k].value.Some? || Among(late, i, k)) ==> source.Slots()[k].value.Some?
    {
      PublishOne(source, late[i].0, late[i].1);
      i := i + 1;
    }
  }

  method PublishOne(source: Leaf, i: nat, v: Val)
    requires source.Valid() && i < |source.Slots()|
    modifies if source.block == null then {} else {source.block.slots}
    ensures source.Valid() && source.Keys() == old(source.Keys()) && source.Vals() == old(source.Vals())
    ensures source.Slots() == old(source.Slots())[i := old(source.Slots())[i].(value := Some(v))]
  {
    source.Publish(i, source.block.slots[i].version, v);
  }

  lemma SameNewKeys(keys: seq<Key>, a: seq<HSlot>, b: seq<HSlot>, r: Request)
    requires SamePlaces(a, b)
    ensures NewKeys(keys, a, r) == NewKeys(keys, b, r)
  {
    var x, y := Erase(a), Erase(b);
    forall k ensures k in SlotKeys(x, r.ticket) <==> k in SlotKeys(y, r.ticket) {
      if k in SlotKeys(x, r.ticket) {
        var i :| 0 <= i < |x| && x[i].version <= r.ticket && x[i].key == k;
        assert y[i].version <= r.ticket && y[i].key == k;
      }
      if k in SlotKeys(y, r.ticket) {
        var i :| 0 <= i < |y| && y[i].version <= r.ticket && y[i].key == k;
        assert x[i].version <= r.ticket && x[i].key == k;
      }
    }
    assert SlotKeys(x, r.ticket) == SlotKeys(y, r.ticket);
  }
}
