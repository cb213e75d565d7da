/** Fat leaves as they lie in memory: a sorted base array and an append-only
    block of versioned slots with one writer. */
module FatLeaf {
  import opened Options
  import opened Records
  import opened StagedCow

  /** A slot word: the version, the pending bit, the key and the value. */
  datatype Cell = Cell(version: nat, pending: bool, key: Key, value: Val)

  predicate Supported(capacity: nat) {
    capacity == 2 || capacity == 4 || capacity == 8
  }

  function SlotIn(c: Cell): HSlot {
    HSlot(c.version, c.key, if c.pending then None else Some(c.value))
  }

  function SlotsIn(cells: seq<Cell>): (r: seq<HSlot>)
    ensures |r| == |cells| && forall i :: 0 <= i < |r| ==> r[i] == SlotIn(cells[i])
  {
    seq(|cells|, i requires 0 <= i < |cells| => SlotIn(cells[i]))
  }

  class DeltaBlock {
    const capacity: nat
    var count: nat
    const slots: array<Cell>

    /** Used slots come first, in the order of their versions. */
    ghost predicate Valid()
      reads this, slots
    {
      && Supported(capacity) && slots.Length == capacity && count <= capacity
      && (forall i :: 0 <= i < capacity ==> (slots[i].version > 0 <==> i < count))
      && (forall i, j :: 0 <= i < j < count ==> slots[i].version < slots[j].version)
    }

    constructor (capacity: nat)
      requires Supported(capacity)
      ensures Valid() && fresh(slots) && this.capacity == capacity && count == 0
    {
      this.capacity := capacity;
      count := 0;
      slots := new Cell[capacity](_ => Cell(0, false, 0, 0));
    }

    /** The one writer fills the next slot. */
    method Take(c: Cell)
      requires Valid() && count < capacity && c.version > 0 && forall i :: 0 <= i < count ==> slots[i].version < c.version
      modifies this`count, slots
      ensures Valid() && count == old(count) + 1
      ensures slots[..count] == old(slots[..count]) + [c]
    {
      slots[count] := c;
      count := count + 1;
    }

    /** The scan of the slots: a published slot that is not too new replaces
        what was found before. */
    method Newest(key: Key, snapshot: nat, found: Option<Val>, since: nat, ghost base: map<Key, Val>) returns (r: Option<Val>)
      requires Valid() && found == Lookup(base, key) && forall i :: 0 <= i < count ==> since <= slots[i].version
      ensures r == Lookup(Overlay(base, Visible(SlotsIn(slots[..count])), snapshot), key)
    {
      hide Overlay, Visible, Lookup;
      ghost var hs := SlotsIn(slots[..count]);
      NoSlots(base, hs[..0], snapshot);
      r := found;
      var newest := since;
      var j := 0;
      while j < capacity
        invariant j <= capacity
        invariant r == Lookup(Overlay(base, Visible(hs[..if j <= count then j else count]), snapshot), key)
        invariant forall k :: j <= k < count ==> newest <= slots[k].version
      {
        var cell := slots[j];
        if j < count {
          assert hs[j] == SlotIn(cell);
          OneMoreSlot(base, hs, j, snapshot, key);
        }
        if cell.version != 0 && !cell.pending && cell.version <= snapshot && cell.version >= newest && cell.key == key {
          r := Some(cell.value);
          newest := cell.version;
        }
        j := j + 1;
      }
      assert hs[..count] == hs;
    }
  }

  class Leaf {
    const ver: nat
    const size: nat
    const keys: array<Key>
    const vals: array<Val>
    var block: DeltaBlock?

    ghost function Repr(): set<object>
      reads this
    {
      {this, keys, vals} + (if block == null then {} else {block, block.slots})
    }

    ghost predicate Valid()
      reads Repr()
    {
      && keys.Length == MAX_KEYS && vals.Length == MAX_KEYS && keys != vals && size <= MAX_KEYS
      && Sorted(keys[..size])
      && (block != null ==> block.Valid() && forall i :: 0 <= i < block.count ==> ver < block.slots[i].version)
    }

    ghost function Keys(): seq<Key>
      reads Repr()
      requires Valid()
    {
      keys[..size]
    }

    ghost function Vals(): seq<Val>
      reads Repr()
      requires Valid()
    {
      vals[..size]
    }

    /** The slots taken, in order. */
    ghost function Slots(): (r: seq<HSlot>)
      reads Repr()
      requires Valid()
    {
      if block == null then [] else SlotsIn(block.slots[..block.count])
    }

    /** Slots are taken in ticket order. */
    ghost predicate Later(version: nat)
      reads Repr()
      requires Valid()
    {
      ver < version && (block != null ==> forall i :: 0 <= i < block.count ==> block.slots[i].version < version)
    }

    constructor (ver: nat, ks: seq<Key>)
      requires |ks| <= MAX_KEYS && Sorted(ks)
      ensures Valid() && fresh(Repr()) && this.ver == ver && Keys() == ks && block == null
    {
      this.ver := ver;
      size := |ks|;
      keys := new Key[MAX_KEYS](i => if 0 <= i < |ks| then ks[i] else 0);
      vals := new Val[MAX_KEYS](_ => 0);
      block := null;
      new;
      assert keys[..size] == ks;
    }

    /** The block for a capacity, made on first use. */
    method Block(capacity: nat) returns (b: DeltaBlock)
      requires Valid() && Supported(capacity)
      modifies this`block
      ensures Valid() && block == b && Slots() == old(Slots())
      ensures old(block) != null ==> b == old(block)
      ensures old(block) == null ==> fresh(b) && fresh(b.slots) && b.capacity == capacity
    {
      if block == null {
        block := new DeltaBlock(capacity);
      }
      b := block;
    }

    /** Fills the next slot of the block. */
    method TakeSlot(c: Cell)
      requires Valid() && Later(c.version) && block != null && block.count < block.capacity
      modifies block, block.slots
      ensures Valid() && Slots() == old(Slots()) + [SlotIn(c)] && Keys() == old(Keys()) && Vals() == old(Vals())
    {
      hide Sorted, SlotIn;
      block.Take(c);
      assert Slots() == old(Slots()) + [SlotIn(c)];
    }

    /** append_leaf_delta: takes the next slot, or reports a full or
        incompatible block. */
    method Append(capacity: nat, version: nat, key: Key, value: Val) returns (ok: bool)
      requires Valid() && Later(version)
      modifies Repr()
      ensures Valid() && Keys() == old(Keys()) && Vals() == old(Vals())
      ensures ok == (Supported(capacity) && (old(block) == null || (old(block.capacity) == capacity && old(block.count) < capacity)))
      ensures Slots() == old(Slots()) + if ok then [HSlot(version, key, Some(value))] else []
      ensures old(block) != null ==> block == old(block)
      ensures fresh(Repr() - old(Repr()))
    {
      hide Sorted;
      if !Supported(capacity) { return false; }
      var b := Block(capacity);
      if b.capacity != capacity || b.count >= b.capacity { return false; }
      TakeSlot(Cell(version, false, key, value));
      ok := true;
    }

    /** reserve_leaf_delta: the same, with the value still to come; -1 when
        there is no slot. */
    method Reserve(capacity: nat, version: nat, key: Key) returns (index: int)
      requires Valid() && Later(version)
      modifies Repr()
      ensures Valid() && Keys() == old(Keys()) && Vals() == old(Vals())
      ensures index >= 0 <==> Supported(capacity) && (old(block) == null || (old(block.capacity) == capacity && old(block.count) < capacity))
      ensures index >= 0 ==> index == |old(Slots())|
      ensures index < 0 ==> index == -1
      ensures Slots() == old(Slots()) + if index >= 0 then [HSlot(version, key, None)] else []
      ensures old(block) != null ==> block == old(block)
      ensures fresh(Repr() - old(Repr()))
    {
      hide Sorted;
      if !Supported(capacity) { return -1; }
      var b := Block(capacity);
      if b.capacity != capacity || b.count == capacity { return -1; }
      index := b.count;
      TakeSlot(Cell(version, true, key, 0));
    }

    /** handle_fat_append: the reserving ticket's worker publishes the value. */
    method Publish(i: nat, version: nat, value: Val)
      requires Valid() && i < |Slots()| && Slots()[i].version == version
      modifies if block == null then {} else {block.slots}
      ensures Valid() && Keys() == old(Keys()) && Vals() == old(Vals()) && block == old(block)
      ensures Slots() == old(Slots())[i := old(Slots())[i].(value := Some(value))]
    {
      var c := block.slots[i];
      block.slots[i] := Cell(version, false, c.key, value);
    }

    /** findval: the first position whose key is not below. */
    method FindVal(key: Key) returns (pos: nat)
      requires Valid()
      ensures pos <= size && (forall i :: 0 <= i < pos ==> keys[i] < key) && (pos < size ==> key <= keys[pos])
    {
      pos := 0;
      while pos < size && keys[pos] < key
        invariant pos <= size && forall i :: 0 <= i < pos ==> keys[i] < key
      {
        pos := pos + 1;
      }
    }

    /** The versioned lookup finds what the snapshot's view of the leaf says,
        ignoring slots that are pending or newer. */
    method Find(key: Key, snapshot: nat) returns (r: Option<Val>)
      requires Valid()
      ensures r == Lookup(Overlay(Base(Keys(), Vals()), Visible(Slots()), snapshot), key)
    {
      hide Base, Overlay, Visible, Lookup;
      var i := FindVal(key);
      ghost var base := Base(Keys(), Vals());
      BaseLookup(Keys(), Vals(), key, i);
      r := None;
      var newest := 0;
      if i < size && keys[i] == key {
        r := Some(vals[i]);
        newest := ver;
      }
      if block != null {
        r := block.Newest(key, snapshot, r, newest, base);
      } else {
        NoSlots(base, Slots(), snapshot);
      }
    }
  }

  /** A sorted array's lookup stops at the first key that is not below. */
  lemma BaseLookup(keys: seq<Key>, vals: seq<Val>, key: Key, i: nat)
    requires |keys| == |vals| && Sorted(keys) && i <= |keys|
    requires (forall k :: 0 <= k < i ==> keys[k] < key) && (i < |keys| ==> key <= keys[i])
    ensures Lookup(Base(keys, vals), key) == if i < |keys| && keys[i] == key then Some(vals[i]) else None
  {
    BaseKeys(keys, vals);
    if i < |keys| && keys[i] == key {
      assert key in KeySet(keys);
    } else {
      forall k | 0 <= k < |keys| ensures keys[k] != key {
        if k > i { assert keys[i] < keys[k]; }
      }
      assert key !in KeySet(keys);
    }
  }

  lemma NoSlots(m: map<Key, Val>, hs: seq<HSlot>, snapshot: nat)
    requires hs == []
    ensures Overlay(m, Visible(hs), snapshot) == m
  {
  }

  /** What one more slot adds to a snapshot's view. */
  lemma OneMoreSlot(m: map<Key, Val>, hs: seq<HSlot>, j: nat, snapshot: nat, key: Key)
    requires j < |hs|
    ensures Lookup(Overlay(m, Visible(hs[..j+1]), snapshot), key)
            == if hs[j].value.Some? && hs[j].version <= snapshot && hs[j].key == key then Some(hs[j].value.value)
               else Lookup(Overlay(m, Visible(hs[..j]), snapshot), key)
  {
    assert hs[..j+1][..j] == hs[..j];
    if hs[j].value.Some? {
      assert Visible(hs[..j+1]) == Visible(hs[..j]) + [Plain(hs[j])];
      assert Visible(hs[..j+1])[..|Visible(hs[..j])|] == Visible(hs[..j]);
    }
  }
}
