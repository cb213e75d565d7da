/** The four layouts of radix tree branches: sorted arrays of 4 and 16 bytes, a
    slot table over 48 children, and a table of 256 children. Each one shows the
    children in the order of their bytes, whatever order they came in. */
module ArtNodes {
  import opened Options
  import opened Art
  import Records

  // ---- arrays ---------------------------------------------------------------

  /** insert: one place further for everything from pos on. */
  method InsertInto<T>(a: array<T>, size: nat, pos: nat, x: T)
    requires pos <= size < a.Length
    modifies a
    ensures a[..size+1] == InsertAt(old(a[..size]), pos, x)
  {
    ghost var was := a[..];
    var j := size;
    while j > pos
      invariant pos <= j <= size
      invariant forall k :: 0 <= k <= j && k < size ==> a[k] == was[k]
      invariant forall k :: j < k <= size ==> a[k] == was[k-1]
    {
      a[j] := a[j-1];
      j := j - 1;
    }
    a[pos] := x;
    InsertedIs(was[..size], a[..size+1], pos, x);
  }

  lemma InsertedIs<T>(s: seq<T>, r: seq<T>, pos: nat, x: T)
    requires pos <= |s| && |r| == |s| + 1
    requires (forall k :: 0 <= k < pos ==> r[k] == s[k]) && r[pos] == x && (forall k :: pos < k < |r| ==> r[k] == s[k-1])
    ensures r == InsertAt(s, pos, x)
  {
  }

  /** copy. */
  method CopyInto<T>(dst: array<T>, src: array<T>, size: nat)
    requires size <= dst.Length && size <= src.Length && dst != src
    modifies dst
    ensures dst[..size] == src[..size] && dst[size..] == old(dst[size..])
  {
    var j := 0;
    while j < size
      invariant 0 <= j <= size
      invariant forall k :: 0 <= k < j ==> dst[k] == src[k]
      invariant forall k :: j <= k < dst.Length ==> dst[k] == old(dst[k])
    {
      dst[j] := src[j];
      j := j + 1;
    }
  }

  // ---- what a layout shows --------------------------------------------------

  /** A child pointer; None is null. */
  type Kids<C> = seq<Option<C>>

  /** Bytes and children after the child of byte b has been set to c. */
  function PutKeys(keys: seq<Byte>, b: Byte): seq<Byte> {
    if IndexOf(keys, b, 0).Some? then keys else InsertAt(keys, FindGt(keys, b, 0), b)
  }

  function PutKids<C>(keys: seq<Byte>, kids: Kids<C>, b: Byte, c: Option<C>): Kids<C>
    requires |keys| == |kids|
  {
    var i := IndexOf(keys, b, 0);
    if i.Some? then kids[i.value := c] else InsertAt(kids, FindGt(keys, b, 0), c)
  }

  /** The child of a byte, or null. */
  function ChildOf<C>(keys: seq<Byte>, kids: Kids<C>, b: Byte): Option<C>
    requires |keys| == |kids|
  {
    var i := IndexOf(keys, b, 0);
    if i.Some? then kids[i.value] else None
  }

  /** A full node makes room in the next larger one. */
  function PutKind(kind: Kind, keys: seq<Byte>, b: Byte): Kind {
    if IndexOf(keys, b, 0).None? && |keys| >= kind.Capacity() then kind.Next() else kind
  }

  /** Children that are all there. */
  function Present<C>(chs: seq<C>): Kids<C> {
    seq(|chs|, i requires 0 <= i < |chs| => Some(chs[i]))
  }

  /** The child update_inplace leaves under the byte at which a key goes on. */
  function Child(t: Radix, o: nat, w: Word, v: Records.Val): Radix
    requires t.Inner? && |t.keys| == |t.chs| && o < 8
  {
    var i := IndexOf(t.keys, w[o], 0);
    if i.Some? then Insert(t.chs[i.value], o + 1, w, v) else Tip(o + 1, w, v)
  }

  /** At each branch it passes, update_inplace is the layouts' put of that child:
      in place under a byte that has a child, as a new child, in a larger node
      when this one is full, under one that has none. */
  lemma InsertIsPut(t: Radix, ofs: nat, w: Word, v: Records.Val)
    requires t.Inner? && t.ofs == ofs && ofs + |t.pfx| < 8 && |t.keys| == |t.chs|
    requires MatchLen(t.pfx, w, ofs) == |t.pfx|
    ensures var o, u := ofs + |t.pfx|, Insert(t, ofs, w, v);
            && u.Inner? && u.ofs == t.ofs && u.pfx == t.pfx && |u.keys| == |u.chs|
            && u.kind == PutKind(t.kind, t.keys, w[o]) && u.keys == PutKeys(t.keys, w[o])
            && Present(u.chs) == PutKids(t.keys, Present(t.chs), w[o], Some(Child(t, o, w, v)))
  {
    hide FindGt;
    var o, u := ofs + |t.pfx|, Insert(t, ofs, w, v);
    var c := Child(t, o, w, v);
    var i := IndexOf(t.keys, w[o], 0);
    if i.Some? {
      assert u.chs == t.chs[i.value := c];
    } else {
      var p := FindGt(t.keys, w[o], 0);
      PresentInserted(t.chs, p, c);
    }
  }

  lemma PresentInserted<C>(chs: seq<C>, p: nat, c: C)
    requires p <= |chs|
    ensures Present(InsertAt(chs, p, c)) == InsertAt(Present(chs), p, Some(c))
  {
  }

  // ---- NODE4 and NODE16 -----------------------------------------------------

  class Small<C> {
    var size: nat
    const keys: array<Byte>
    const chs: array<Option<C>>

    ghost predicate Valid()
      reads this, keys
    {
      && (keys.Length == 4 || keys.Length == 16) && chs.Length == keys.Length
      && 2 <= size <= keys.Length && Ascends(keys[..size])
    }

    /** new_node: the first half-full size, keys still to come. */
    constructor (capacity: nat)
      requires capacity == 4 || capacity == 16
      ensures keys.Length == capacity && chs.Length == capacity && size == (if capacity == 4 then 2 else 4)
      ensures fresh(keys) && fresh(chs)
    {
      size := if capacity == 4 then 2 else 4;
      keys := new Byte[capacity];
      chs := new Option<C>[capacity];
    }

    ghost predicate Shows(ks: seq<Byte>, kids: Kids<C>)
      reads this, keys, chs
    {
      Valid() && keys[..size] == ks && chs[..size] == kids
    }

    /** node4_find. */
    method Find4(b: Byte) returns (r: Option<nat>)
      requires Valid() && keys.Length == 4
      ensures r == IndexOf(keys[..size], b, 0)
    {
      ghost var ks := keys[..size];
      IndexFrom(ks, b);
      if keys[0] == b { return Some(0); }
      if keys[1] == b { return Some(1); }
      if size == 2 { return None; }
      if keys[2] == b { return Some(2); }
      if size == 3 { return None; }
      if keys[3] == b { return Some(3); }
      return None;
    }

    /** node16_find. */
    method Find16(b: Byte) returns (r: Option<nat>)
      requires Valid()
      ensures r == IndexOf(keys[..size], b, 0)
    {
      ghost var ks := keys[..size];
      IndexFrom(ks, b);
      var i := 0;
      while i < size
        invariant 0 <= i <= size && forall k :: 0 <= k < i ==> ks[k] != b
      {
        if keys[i] == b { return Some(i); }
        i := i + 1;
      }
      return None;
    }

    method Find(b: Byte) returns (r: Option<nat>)
      requires Valid()
      ensures r == IndexOf(keys[..size], b, 0)
    {
      if keys.Length == 4 { r := Find4(b); } else { r := Find16(b); }
    }

    /** findgt. */
    method Above(b: Byte) returns (i: nat)
      requires Valid()
      ensures i == FindGt(keys[..size], b, 0)
    {
      ghost var ks := keys[..size];
      i := 0;
      while i < size && keys[i] <= b
        invariant 0 <= i <= size && forall k :: 0 <= k < i ==> ks[k] <= b
      {
        i := i + 1;
      }
      GtIs(ks, b, i);
    }

    /** append: the byte only. */
    method Append(b: Byte) returns (idx: nat)
      requires Valid() && size < keys.Length && IndexOf(keys[..size], b, 0).None?
      modifies this`size, keys
      ensures Valid() && size == old(size) + 1 && idx == FindGt(old(keys[..size]), b, 0)
      ensures keys[..size] == InsertAt(old(keys[..size]), idx, b)
    {
      idx := Above(b);
      InsertAscends(keys[..size], b);
      InsertInto(keys, size, idx, b);
      size := size + 1;
    }

    /** insertch. */
    method InsertCh(idx: nat, c: Option<C>)
      requires Valid() && idx < size
      modifies chs
      ensures chs[..size] == InsertAt(old(chs[..size-1]), idx, c)
    {
      InsertInto(chs, size - 1, idx, c);
    }

    /** copych, and copych with a hole at pos. */
    method CopyCh(from: Small<C>)
      requires from.Valid() && from.size <= chs.Length && from.chs != chs
      modifies chs
      ensures chs[..from.size] == from.chs[..from.size]
    {
      CopyInto(chs, from.chs, from.size);
    }

    method CopyHole(from: Small<C>, pos: nat)
      requires from.Valid() && pos <= from.size < chs.Length && from.chs != chs
      modifies chs
      ensures chs[..from.size+1] == InsertAt(from.chs[..from.size], pos, None)
    {
      var j := 0;
      while j < pos
        invariant 0 <= j <= pos && forall k :: 0 <= k < j ==> chs[k] == from.chs[k]
      {
        chs[j] := from.chs[j];
        j := j + 1;
      }
      chs[pos] := None;
      while j < from.size
        invariant pos <= j <= from.size && chs[pos] == None
        invariant forall k :: 0 <= k < pos ==> chs[k] == from.chs[k]
        invariant forall k :: pos <= k < j ==> chs[k+1] == from.chs[k]
      {
        chs[j+1] := from.chs[j];
        j := j + 1;
      }
      forall k | pos < k <= from.size ensures chs[k] == from.chs[k-1] {
        assert chs[(k-1)+1] == from.chs[k-1];
      }
      InsertedIs(from.chs[..from.size], chs[..from.size+1], pos, None);
    }
  }

  /** node_copy: all but the children. */
  method CopySmall<C>(t: Small<C>) returns (r: Small<C>)
    requires t.Valid()
    ensures fresh(r) && fresh(r.keys) && fresh(r.chs) && r.Valid()
    ensures r.keys.Length == t.keys.Length && r.keys[..r.size] == t.keys[..t.size]
  {
    r := new Small<C>(t.keys.Length);
    r.size := t.size;
    CopyInto(r.keys, t.keys, t.size);
  }

  /** node4_extend. */
  method Extend4<C>(t: Small<C>) returns (r: Small<C>)
    requires t.Valid() && t.keys.Length == 4 && t.size == 4
    ensures fresh(r) && fresh(r.keys) && fresh(r.chs) && r.Valid()
    ensures r.keys.Length == 16 && r.keys[..r.size] == t.keys[..t.size]
  {
    r := new Small<C>(16);
    CopyInto(r.keys, t.keys, 4);
  }

  /** node16_extend: the slot of a byte is its place. */
  method Extend16<C>(t: Small<C>) returns (r: Node48<C>)
    requires t.Valid() && t.keys.Length == 16 && t.size == 16
    ensures fresh(r) && fresh(r.slots) && fresh(r.chs) && r.Valid() && r.size == 16
    ensures r.HasKeys(t.keys[..t.size]) && forall i :: 0 <= i < 16 ==> r.slots[t.keys[i]] == i
  {
    r := new Node48<C>();
    ghost var ks := t.keys[..16];
    var idx := 0;
    while idx < 16
      invariant 0 <= idx <= 16 && r.Valid() && r.size == idx && fresh(r) && fresh(r.slots) && fresh(r.chs)
      invariant t.Valid() && t.size == 16 && t.keys[..16] == ks
      invariant forall i :: 0 <= i < idx ==> r.slots[ks[i]] == i
      invariant forall b: Byte :: r.slots[b] != EMPTY ==> r.slots[b] < idx && ks[r.slots[b]] == b
    {
      assert t.keys[idx] == ks[idx];
      assert r.slots[ks[idx]] == EMPTY;
      r.Place(t.keys[idx]);
      idx := idx + 1;
    }
    assert forall i :: 0 <= i < 16 ==> t.keys[i] == ks[i];
    forall b: Byte ensures r.slots[b] != EMPTY <==> b in ks {
    }
  }

  // ---- NODE48 ---------------------------------------------------------------

  const EMPTY := 255

  class Node48<C> {
    var size: nat
    const slots: array<Byte>
    const chs: array<Option<C>>
    ghost var order: seq<Byte>   // bytes in the order they came

    ghost predicate Valid()
      reads this, slots
    {
      && slots.Length == 256 && chs.Length == 48 && |order| == size <= 48
      && (forall i :: 0 <= i < size ==> slots[order[i]] == i)
      && (forall b: Byte :: slots[b] == EMPTY || (slots[b] < size && order[slots[b]] == b))
    }

    /** The bytes in use. */
    ghost predicate HasKeys(keys: seq<Byte>)
      requires Valid()
      reads this, slots
    {
      && Ascends(keys) && |keys| == size
      && (forall b: Byte :: slots[b] != EMPTY <==> b in keys)
    }

    constructor ()
      ensures Valid() && size == 0 && fresh(slots) && fresh(chs) && HasKeys([])
    {
      size := 0;
      slots := new Byte[256](_ => EMPTY);
      chs := new Option<C>[48];
      order := [];
    }

    ghost predicate Shows(ks: seq<Byte>, kids: Kids<C>)
      reads this, slots, chs
    {
      Valid() && HasKeys(ks) && |kids| == |ks| && forall i :: 0 <= i < |ks| ==> chs[slots[ks[i]]] == kids[i]
    }

    /** The next free place for a byte not yet there. */
    method Place(b: Byte)
      requires Valid() && slots[b] == EMPTY && size < 48
      modifies this, slots
      ensures Valid() && size == old(size) + 1 && slots[b] == old(size)
      ensures forall y: Byte :: y != b ==> slots[y] == old(slots[y])
    {
      slots[b] := size;
      size := size + 1;
      order := order + [b];
    }

    /** node48_find. */
    method Find(b: Byte) returns (r: Option<nat>)
      requires Valid()
      ensures r == if slots[b] == EMPTY then None else Some(b)
    {
      if slots[b] == EMPTY { r := None; } else { r := Some(b); }
    }

    /** node48_append: the next free place, whatever the byte. */
    method Append(b: Byte, ghost keys: seq<Byte>) returns (idx: nat)
      requires Valid() && HasKeys(keys) && IndexOf(keys, b, 0).None? && size < 48
      modifies this, slots
      ensures Valid() && idx == b && HasKeys(InsertAt(keys, FindGt(keys, b, 0), b))
      ensures size == old(size) + 1 && slots[b] == old(size)
      ensures forall x: Byte :: x != b ==> slots[x] == old(slots[x])
    {
      InsertAscends(keys, b);
      assert slots[b] == EMPTY;
      Place(b);
      idx := b;
      InsertedIn(keys, FindGt(keys, b, 0), b);
    }
  }

  /** node_copy of a NODE48. */
  method Copy48<C>(t: Node48<C>) returns (r: Node48<C>)
    requires t.Valid()
    ensures fresh(r) && fresh(r.slots) && fresh(r.chs) && r.Valid() && r.size == t.size
    ensures forall b: Byte :: r.slots[b] == t.slots[b]
  {
    r := new Node48<C>();
    CopyInto(r.slots, t.slots, 256);
    r.size := t.size;
    r.order := t.order;
    assert forall b: Byte :: r.slots[..256][b] == t.slots[..256][b];
  }

  // ---- NODE256 --------------------------------------------------------------

  class Node256<C> {
    const chs: array<Option<C>>

    ghost predicate Valid() {
      chs.Length == 256
    }

    ghost predicate Shows(ks: seq<Byte>, kids: Kids<C>)
      reads chs
    {
      && Valid() && Ascends(ks) && |kids| == |ks|
      && (forall i :: 0 <= i < |ks| ==> chs[ks[i]] == kids[i])
      && (forall b: Byte :: b !in ks ==> chs[b] == None)
    }

    constructor ()
      ensures Valid() && fresh(chs) && forall b: Byte :: chs[b] == None
    {
      chs := new Option<C>[256](_ => None);
    }
  }

  /** node48_copych_extend. */
  method Spread<C>(r: Node256<C>, t: Node48<C>)
    requires r.Valid() && t.Valid() && r.chs != t.chs && forall b: Byte :: r.chs[b] == None
    modifies r.chs
    ensures forall b: Byte :: r.chs[b] == if t.slots[b] == EMPTY then None else t.chs[t.slots[b]]
  {
    var b := 0;
    while b < 256
      invariant 0 <= b <= 256
      invariant forall x: Byte :: r.chs[x] == if x >= b || t.slots[x] == EMPTY then None else t.chs[t.slots[x]]
    {
      if t.slots[b] != EMPTY {
        r.chs[b] := t.chs[t.slots[b]];
      }
      b := b + 1;
    }
  }

  lemma InsertedIn(keys: seq<Byte>, g: nat, b: Byte)
    requires g <= |keys|
    ensures |InsertAt(keys, g, b)| == |keys| + 1
    ensures forall x: Byte :: x in InsertAt(keys, g, b) <==> x in keys || x == b
  {
    hide InsertAt;
    var ks := InsertAt(keys, g, b);
    InsertedAt(keys, g, b, g);
    forall x: Byte | x in keys ensures x in ks {
      var i: nat :| i < |keys| && keys[i] == x;
      InsertedAt(keys, g, b, if i < g then i else i + 1);
    }
    forall x: Byte | x in ks ensures x in keys || x == b {
      var j: nat :| j < |ks| && ks[j] == x;
      InsertedAt(keys, g, b, j);
    }
  }

  lemma {:induction false} IndexUnique(keys: seq<Byte>, b: Byte, from: nat, i: nat)
    requires from <= i < |keys| && keys[i] == b && forall k :: from <= k < i ==> keys[k] != b
    ensures IndexOf(keys, b, from) == Some(i)
    decreases i - from
  {
    if from < i {
      IndexUnique(keys, b, from + 1, i);
    }
  }

  /** The index is the first place of the byte. */
  lemma IndexFrom(keys: seq<Byte>, b: Byte)
    ensures forall i: nat :: i < |keys| && keys[i] == b && (forall k :: 0 <= k < i ==> keys[k] != b) ==> IndexOf(keys, b, 0) == Some(i)
    ensures (forall k :: 0 <= k < |keys| ==> keys[k] != b) ==> IndexOf(keys, b, 0) == None
  {
    forall i: nat | i < |keys| && keys[i] == b && (forall k :: 0 <= k < i ==> keys[k] != b) ensures IndexOf(keys, b, 0) == Some(i) {
      IndexUnique(keys, b, 0, i);
    }
  }

  lemma GtIs(keys: seq<Byte>, b: Byte, i: nat)
    requires i <= |keys| && (forall k :: 0 <= k < i ==> keys[k] <= b) && (i < |keys| ==> keys[i] > b)
    ensures FindGt(keys, b, 0) == i
  {
    var g := FindGt(keys, b, 0);
    assert g >= i;
  }

  lemma InsertAscends(keys: seq<Byte>, b: Byte)
    requires Ascends(keys) && IndexOf(keys, b, 0).None?
    ensures Ascends(InsertAt(keys, FindGt(keys, b, 0), b))
  {
    hide IndexOf, FindGt, InsertAt;
    var g := FindGt(keys, b, 0);
    var ks := InsertAt(keys, g, b);
    forall i, j | 0 <= i < j < |ks| ensures ks[i] < ks[j] {
      InsertedAt(keys, g, b, i);
      InsertedAt(keys, g, b, j);
      assert g < |keys| && j > g ==> keys[g] <= keys[j-1];
    }
  }

  // ---- one child more -------------------------------------------------------

  /** Every child is the new one or an old one, under its own byte. */
  lemma PutFrom<C>(ks: seq<Byte>, kids: Kids<C>, b: Byte, c: Option<C>, i: nat) returns (j: nat)
    requires Ascends(ks) && |kids| == |ks| && i < |PutKeys(ks, b)|
    ensures |PutKids(ks, kids, b, c)| == |PutKeys(ks, b)|
    ensures PutKeys(ks, b)[i] == b ==> PutKids(ks, kids, b, c)[i] == c
    ensures PutKeys(ks, b)[i] != b ==> j < |ks| && ks[j] == PutKeys(ks, b)[i] && kids[j] == PutKids(ks, kids, b, c)[i]
  {
    hide InsertAt;
    j := i;
    if IndexOf(ks, b, 0).None? {
      var g := FindGt(ks, b, 0);
      InsertedAt(ks, g, b, i);
      InsertedAt(kids, g, c, i);
      j := if i <= g then i else i - 1;
    }
  }

  lemma PutAscends(ks: seq<Byte>, b: Byte)
    requires Ascends(ks)
    ensures Ascends(PutKeys(ks, b)) && forall x: Byte :: x in PutKeys(ks, b) <==> x in ks || x == b
  {
    hide InsertAt;
    if IndexOf(ks, b, 0).None? {
      InsertAscends(ks, b);
      InsertedIn(ks, FindGt(ks, b, 0), b);
    }
  }

  lemma FillHole<C>(kids: Kids<C>, g: nat, c: Option<C>)
    requires g <= |kids|
    ensures InsertAt(kids, g, None)[g := c] == InsertAt(kids, g, c)
  {
  }

  /** A table of children by byte shows the lists. */
  lemma Show48<C>(n: Node48<C>, ks: seq<Byte>, kids: Kids<C>, b: Byte, c: Option<C>)
    requires n.Valid() && n.HasKeys(PutKeys(ks, b)) && Ascends(ks) && |kids| == |ks|
    requires n.slots[b] != EMPTY && n.chs[n.slots[b]] == c
    requires forall i :: 0 <= i < |ks| && ks[i] != b ==> n.slots[ks[i]] != EMPTY && n.chs[n.slots[ks[i]]] == kids[i]
    ensures n.Shows(PutKeys(ks, b), PutKids(ks, kids, b, c))
  {
    hide PutKeys, PutKids;
    forall i: nat | i < |PutKeys(ks, b)| ensures |PutKids(ks, kids, b, c)| == |PutKeys(ks, b)|
      && n.slots[PutKeys(ks, b)[i]] != EMPTY && n.chs[n.slots[PutKeys(ks, b)[i]]] == PutKids(ks, kids, b, c)[i]
    {
      var j := PutFrom(ks, kids, b, c, i);
    }
    PutSize(ks, kids, b, c);
  }

  lemma PutSize<C>(ks: seq<Byte>, kids: Kids<C>, b: Byte, c: Option<C>)
    requires |kids| == |ks|
    ensures |PutKids(ks, kids, b, c)| == |PutKeys(ks, b)| == |ks| + if IndexOf(ks, b, 0).Some? then 0 else 1
  {
  }

  lemma Show256<C>(m: Node256<C>, ks: seq<Byte>, kids: Kids<C>, b: Byte, c: Option<C>)
    requires m.Valid() && Ascends(ks) && |kids| == |ks| && m.chs[b] == c
    requires forall i :: 0 <= i < |ks| && ks[i] != b ==> m.chs[ks[i]] == kids[i]
    requires forall x: Byte :: x !in ks && x != b ==> m.chs[x] == None
    ensures m.Shows(PutKeys(ks, b), PutKids(ks, kids, b, c))
  {
    hide PutKeys, PutKids;
    PutAscends(ks, b);
    PutSize(ks, kids, b, c);
    forall i: nat | i < |PutKeys(ks, b)| ensures m.chs[PutKeys(ks, b)[i]] == PutKids(ks, kids, b, c)[i] {
      var j := PutFrom(ks, kids, b, c, i);
    }
  }

  // ---- all layouts ----------------------------------------------------------

  datatype AnyNode<C> = OfSmall(s: Small<C>) | Of48(n: Node48<C>) | Of256(m: Node256<C>)

  function Repr<C>(t: AnyNode<C>): set<object> {
    match t
    case OfSmall(s) => {s, s.keys, s.chs}
    case Of48(n) => {n, n.slots, n.chs}
    case Of256(m) => {m, m.chs}
  }

  function KindOf<C>(t: AnyNode<C>): Kind {
    match t
    case OfSmall(s) => if s.keys.Length == 4 then K4 else K16
    case Of48(_) => K48
    case Of256(_) => K256
  }

  ghost predicate Shows<C>(t: AnyNode<C>, ks: seq<Byte>, kids: Kids<C>)
    reads Repr(t)
  {
    |kids| == |ks| &&
    match t
    case OfSmall(s) => s.Shows(ks, kids)
    case Of48(n) => n.Shows(ks, kids)
    case Of256(m) => m.Shows(ks, kids)
  }

  /** findch. */
  method FindCh<C>(t: AnyNode<C>, b: Byte, ghost ks: seq<Byte>, ghost kids: Kids<C>) returns (c: Option<C>)
    requires Shows(t, ks, kids)
    ensures c == ChildOf(ks, kids, b)
  {
    match t {
      case OfSmall(s) =>
        var idx := s.Find(b);
        assert forall i :: 0 <= i < s.size ==> s.chs[..s.size][i] == kids[i];
        c := if idx.None? then None else s.chs[idx.value];
      case Of48(n) =>
        assert n.slots[b] != EMPTY <==> b in ks;
        c := if n.slots[b] == EMPTY then None else n.chs[n.slots[b]];
      case Of256(m) => c := m.chs[b];
    }
  }

  /** A child found by its index is replaced: *getch(t, idx) = c. */
  method SetSmall<C>(s: Small<C>, idx: nat, b: Byte, c: Option<C>, ghost ks: seq<Byte>, ghost kids: Kids<C>)
    requires s.Shows(ks, kids) && |kids| == |ks| && IndexOf(ks, b, 0) == Some(idx)
    modifies s.chs
    ensures s.Shows(PutKeys(ks, b), PutKids(ks, kids, b, c))
  {
    s.chs[idx] := c;
    assert s.chs[..s.size] == kids[idx := c];
  }

  method Set48<C>(n: Node48<C>, b: Byte, c: Option<C>, ghost ks: seq<Byte>, ghost kids: Kids<C>)
    requires n.Shows(ks, kids) && |kids| == |ks| && b in ks
    modifies n.chs
    ensures n.Shows(PutKeys(ks, b), PutKids(ks, kids, b, c))
  {
    n.chs[n.slots[b]] := c;
    forall i: nat | i < |ks| && ks[i] != b ensures n.slots[ks[i]] != n.slots[b] {
      assert n.order[n.slots[b]] == b;
    }
    InHas(ks, b);
    Show48(n, ks, kids, b, c);
  }

  lemma InHas(ks: seq<Byte>, b: Byte)
    requires b in ks
    ensures PutKeys(ks, b) == ks
  {
  }

  method Set256<C>(m: Node256<C>, b: Byte, c: Option<C>, ghost ks: seq<Byte>, ghost kids: Kids<C>)
    requires m.Shows(ks, kids) && |kids| == |ks|
    modifies m.chs
    ensures m.Shows(PutKeys(ks, b), PutKids(ks, kids, b, c))
  {
    m.chs[b] := c;
    Show256(m, ks, kids, b, c);
  }

  /** append and insertch. */
  method AddSmall<C>(s: Small<C>, b: Byte, c: Option<C>, ghost ks: seq<Byte>, ghost kids: Kids<C>)
    requires s.Shows(ks, kids) && |kids| == |ks| && IndexOf(ks, b, 0).None? && s.size < s.keys.Length
    modifies s`size, s.keys, s.chs
    ensures s.Shows(PutKeys(ks, b), PutKids(ks, kids, b, c))
  {
    hide InsertAt, IndexOf, FindGt;
    var idx := s.Append(b);
    s.InsertCh(idx, c);
  }

  method Add48<C>(n: Node48<C>, b: Byte, c: Option<C>, ghost ks: seq<Byte>, ghost kids: Kids<C>)
    requires n.Shows(ks, kids) && |kids| == |ks| && IndexOf(ks, b, 0).None? && n.size < 48
    modifies n, n.slots, n.chs
    ensures n.Shows(PutKeys(ks, b), PutKids(ks, kids, b, c))
  {
    hide InsertAt, FindGt;
    var idx := n.Append(b, ks);
    n.chs[n.slots[b]] := c;
    forall i | 0 <= i < |ks| && ks[i] != b ensures n.slots[ks[i]] != EMPTY && n.chs[n.slots[ks[i]]] == kids[i] {
      assert n.slots[ks[i]] == old(n.slots[ks[i]]) < old(n.size);
    }
    Show48(n, ks, kids, b, c);
  }

  /** A larger or equally large copy of a sorted node, with the new byte, the
      children with a hole, and the hole filled. */
  method CopyAddSmall<C>(s: Small<C>, r: Small<C>, b: Byte, c: Option<C>, ghost ks: seq<Byte>, ghost kids: Kids<C>)
    requires s.Shows(ks, kids) && |kids| == |ks| && IndexOf(ks, b, 0).None?
    requires r.Valid() && r.keys[..r.size] == ks && r.size < r.keys.Length && r != s && r.keys != s.keys && r.chs != s.chs
    modifies r`size, r.keys, r.chs
    ensures r.Shows(PutKeys(ks, b), PutKids(ks, kids, b, c))
  {
    hide InsertAt, IndexOf, FindGt;
    var idx := r.Append(b);
    r.CopyHole(s, idx);
    FillHole(kids, idx, c);
    InsertedAt<Option<C>>(kids, idx, None, idx);
    r.chs[idx] := c;
    assert r.chs[..r.size] == InsertAt(kids, idx, None)[idx := c];
  }

  method CopySetSmall<C>(s: Small<C>, idx: nat, b: Byte, c: Option<C>, ghost ks: seq<Byte>, ghost kids: Kids<C>) returns (r: Small<C>)
    requires s.Shows(ks, kids) && |kids| == |ks| && IndexOf(ks, b, 0) == Some(idx)
    ensures fresh(r) && fresh(r.keys) && fresh(r.chs) && r.keys.Length == s.keys.Length
    ensures r.Shows(PutKeys(ks, b), PutKids(ks, kids, b, c))
  {
    r := CopySmall(s);
    r.CopyCh(s);
    SetSmall(r, idx, b, c, ks, kids);
  }

  method CopySet48<C>(n: Node48<C>, b: Byte, c: Option<C>, ghost ks: seq<Byte>, ghost kids: Kids<C>) returns (r: Node48<C>)
    requires n.Shows(ks, kids) && |kids| == |ks| && b in ks
    ensures fresh(r) && fresh(r.slots) && fresh(r.chs) && r.Shows(PutKeys(ks, b), PutKids(ks, kids, b, c))
  {
    r := Copy48(n);
    CopyInto(r.chs, n.chs, n.size);
    assert forall j :: 0 <= j < n.size ==> r.chs[..n.size][j] == n.chs[..n.size][j];
    Set48(r, b, c, ks, kids);
  }

  method CopySet256<C>(m: Node256<C>, b: Byte, c: Option<C>, ghost ks: seq<Byte>, ghost kids: Kids<C>) returns (r: Node256<C>)
    requires m.Shows(ks, kids) && |kids| == |ks|
    ensures fresh(r) && fresh(r.chs) && r.Shows(PutKeys(ks, b), PutKids(ks, kids, b, c))
  {
    r := new Node256<C>();
    CopyInto(r.chs, m.chs, 256);
    assert forall x: Byte :: r.chs[..256][x] == m.chs[..256][x];
    Set256(r, b, c, ks, kids);
  }

  /** copych into a slot table whose newest byte has no child yet, then the
      child. */
  method Fill48<C>(r: Node48<C>, src: array<Option<C>>, size: nat, b: Byte, c: Option<C>, ghost ks: seq<Byte>, ghost kids: Kids<C>)
    requires r.Valid() && r.HasKeys(PutKeys(ks, b)) && Ascends(ks) && |kids| == |ks| && size <= src.Length && size < 48
    requires r.slots[b] == size && src != r.chs
    requires forall i :: 0 <= i < |ks| ==> ks[i] != b && r.slots[ks[i]] < size && src[r.slots[ks[i]]] == kids[i]
    modifies r.chs
    ensures r.Shows(PutKeys(ks, b), PutKids(ks, kids, b, c))
  {
    hide PutKeys, PutKids;
    CopyInto(r.chs, src, size);
    r.chs[r.slots[b]] := c;
    forall i | 0 <= i < |ks| && ks[i] != b ensures r.slots[ks[i]] != EMPTY && r.chs[r.slots[ks[i]]] == kids[i] {
      var at := r.slots[ks[i]];
      assert at < size;
      assert r.chs[..size][at] == src[..size][at];
    }
    Show48(r, ks, kids, b, c);
  }

  method CopyAdd48<C>(n: Node48<C>, b: Byte, c: Option<C>, ghost ks: seq<Byte>, ghost kids: Kids<C>) returns (r: Node48<C>)
    requires n.Shows(ks, kids) && |kids| == |ks| && IndexOf(ks, b, 0).None? && n.size < 48
    ensures fresh(r) && fresh(r.slots) && fresh(r.chs) && r.Shows(PutKeys(ks, b), PutKids(ks, kids, b, c))
  {
    hide InsertAt, FindGt;
    r := Copy48(n);
    var idx := r.Append(b, ks);
    Fill48(r, n.chs, n.size, b, c, ks, kids);
  }

  method Grow16<C>(s: Small<C>, b: Byte, c: Option<C>, ghost ks: seq<Byte>, ghost kids: Kids<C>) returns (r: Node48<C>)
    requires s.Shows(ks, kids) && |kids| == |ks| && IndexOf(ks, b, 0).None? && s.keys.Length == 16 && s.size == 16
    ensures fresh(r) && fresh(r.slots) && fresh(r.chs) && r.Shows(PutKeys(ks, b), PutKids(ks, kids, b, c))
  {
    hide InsertAt, FindGt;
    r := Extend16(s);
    var idx := r.Append(b, ks);
    assert forall i :: 0 <= i < 16 ==> ks[i] == s.keys[i] && kids[i] == s.chs[i];
    Fill48(r, s.chs, 16, b, c, ks, kids);
  }

  method Grow48<C>(n: Node48<C>, b: Byte, c: Option<C>, ghost ks: seq<Byte>, ghost kids: Kids<C>) returns (r: Node256<C>)
    requires n.Shows(ks, kids) && |kids| == |ks| && IndexOf(ks, b, 0).None?
    ensures fresh(r) && fresh(r.chs) && r.Shows(PutKeys(ks, b), PutKids(ks, kids, b, c))
  {
    r := new Node256<C>();
    Spread(r, n);
    r.chs[b] := c;
    Show256(r, ks, kids, b, c);
  }

  /** How many bytes a layout holds, as far as is_full looks. */
  lemma Sizes<C>(t: AnyNode<C>, ks: seq<Byte>, kids: Kids<C>)
    requires Shows(t, ks, kids)
    ensures t.OfSmall? ==> t.s.size == |ks| <= t.s.keys.Length == KindOf(t).Capacity()
    ensures t.Of48? ==> t.n.size == |ks| <= 48
    ensures t.Of256? ==> |ks| <= 256 && forall b: Byte :: IndexOf(ks, b, 0).None? ==> |ks| < 256
  {
    if t.Of256? {
      BytesFit(ks);
    }
  }

  lemma BytesFit(ks: seq<Byte>)
    requires Ascends(ks)
    ensures |ks| <= 256 && forall b: Byte :: IndexOf(ks, b, 0).None? ==> |ks| < 256
  {
    if |ks| > 256 {
      AtLeast(ks, 256);
    }
    Room(ks, K256);
    forall b: Byte | IndexOf(ks, b, 0).None? ensures b !in ks {
    }
  }

  /** One level of update_inplace: the child of byte b becomes c, in this node,
      or in a larger one when a new byte does not fit. */
  method PutInPlace<C>(t: AnyNode<C>, b: Byte, c: C, ghost ks: seq<Byte>, ghost kids: Kids<C>) returns (r: AnyNode<C>)
    requires Shows(t, ks, kids)
    modifies Repr(t)
    ensures r == t || fresh(Repr(r))
    ensures Shows(r, PutKeys(ks, b), PutKids(ks, kids, b, Some(c))) && KindOf(r) == PutKind(KindOf(t), ks, b)
  {
    hide PutKeys, PutKids;
    Sizes(t, ks, kids);
    PutSize(ks, kids, b, Some(c));
    r := t;
    match t {
      case OfSmall(s) =>
        var idx := s.Find(b);
        if idx.Some? {
          SetSmall(s, idx.value, b, Some(c), ks, kids);
        } else if s.size < s.keys.Length {
          AddSmall(s, b, Some(c), ks, kids);
        } else if s.keys.Length == 4 {
          var n := Extend4(s);
          CopyAddSmall(s, n, b, Some(c), ks, kids);
          r := OfSmall(n);
        } else {
          var n := Grow16(s, b, Some(c), ks, kids);
          r := Of48(n);
        }
      case Of48(n) =>
        assert n.slots[b] != EMPTY <==> b in ks;
        if n.slots[b] != EMPTY {
          Set48(n, b, Some(c), ks, kids);
        } else if n.size < 48 {
          Add48(n, b, Some(c), ks, kids);
        } else {
          var m := Grow48(n, b, Some(c), ks, kids);
          r := Of256(m);
        }
      case Of256(m) => Set256(m, b, Some(c), ks, kids);
    }
  }

  method CopySmallPut<C>(s: Small<C>, b: Byte, c: Option<C>, ghost ks: seq<Byte>, ghost kids: Kids<C>) returns (r: AnyNode<C>)
    requires s.Shows(ks, kids) && |kids| == |ks| == s.size
    ensures fresh(Repr(r)) && Shows(r, PutKeys(ks, b), PutKids(ks, kids, b, c)) && KindOf(r) == PutKind(KindOf(OfSmall(s)), ks, b)
  {
    hide PutKeys, PutKids;
    PutSize(ks, kids, b, c);
    var idx := s.Find(b);
    if idx.Some? {
      var n := CopySetSmall(s, idx.value, b, c, ks, kids);
      r := OfSmall(n);
    } else if s.size < s.keys.Length {
      var n := CopySmall(s);
      CopyAddSmall(s, n, b, c, ks, kids);
      r := OfSmall(n);
    } else if s.keys.Length == 4 {
      var n := Extend4(s);
      CopyAddSmall(s, n, b, c, ks, kids);
      r := OfSmall(n);
    } else {
      var n := Grow16(s, b, c, ks, kids);
      r := Of48(n);
    }
  }

  method Copy48Put<C>(n: Node48<C>, b: Byte, c: Option<C>, ghost ks: seq<Byte>, ghost kids: Kids<C>) returns (r: AnyNode<C>)
    requires n.Shows(ks, kids) && |kids| == |ks| == n.size
    ensures fresh(Repr(r)) && Shows(r, PutKeys(ks, b), PutKids(ks, kids, b, c)) && KindOf(r) == PutKind(K48, ks, b)
  {
    hide PutKeys, PutKids;
    PutSize(ks, kids, b, c);
    assert n.slots[b] != EMPTY <==> b in ks;
    if n.slots[b] != EMPTY {
      var n' := CopySet48(n, b, c, ks, kids);
      r := Of48(n');
    } else if n.size < 48 {
      var n' := CopyAdd48(n, b, c, ks, kids);
      r := Of48(n');
    } else {
      var m := Grow48(n, b, c, ks, kids);
      r := Of256(m);
    }
  }

  /** The node a path copy makes at one level: another node that shows the
      child, while the old one stays as it is. */
  method PutCopy<C>(t: AnyNode<C>, b: Byte, c: C, ghost ks: seq<Byte>, ghost kids: Kids<C>) returns (r: AnyNode<C>)
    requires Shows(t, ks, kids)
    ensures fresh(Repr(r)) && Shows(t, ks, kids)
    ensures Shows(r, PutKeys(ks, b), PutKids(ks, kids, b, Some(c))) && KindOf(r) == PutKind(KindOf(t), ks, b)
  {
    hide PutKeys, PutKids;
    Sizes(t, ks, kids);
    PutSize(ks, kids, b, Some(c));
    match t {
      case OfSmall(s) => r := CopySmallPut(s, b, Some(c), ks, kids);
      case Of48(n) => r := Copy48Put(n, b, Some(c), ks, kids);
      case Of256(m) =>
        var m' := CopySet256(m, b, Some(c), ks, kids);
        r := Of256(m');
    }
  }

  /** Putting a child is an update of the map from bytes to children. */
  lemma PutFinds<C>(ks: seq<Byte>, kids: Kids<C>, b: Byte, c: Option<C>, x: Byte)
    requires Ascends(ks) && |kids| == |ks|
    ensures |PutKids(ks, kids, b, c)| == |PutKeys(ks, b)|
    ensures ChildOf(PutKeys(ks, b), PutKids(ks, kids, b, c), x) == if x == b then c else ChildOf(ks, kids, x)
  {
    hide PutKeys, PutKids;
    PutSize(ks, kids, b, c);
    PutAscends(ks, b);
    var i := IndexOf(PutKeys(ks, b), x, 0);
    if i.Some? {
      var j := PutFrom(ks, kids, b, c, i.value);
      if x != b {
        OnlyIndex(ks, j);
      }
    } else {
      assert x !in PutKeys(ks, b);
    }
  }

  lemma OnlyIndex(ks: seq<Byte>, j: nat)
    requires Ascends(ks) && j < |ks|
    ensures IndexOf(ks, ks[j], 0) == Some(j)
  {
    IndexUnique(ks, ks[j], 0, j);
  }
}
