/** The staged path copy of a radix tree, on nodes as they lie in memory: each
    handler call copies one node, its children only at the next stage, and the
    stages together make the copy that ArtCow makes in one go. */
module ArtStaged {
  import opened Options
  import opened Records
  import opened Nodes
  import opened Art
  import opened ArtCow
  import opened ArtShare

  // ---- memory ---------------------------------------------------------------

  /** A node copied by the stage before has no children yet. */
  datatype RNode =
    | RLeaf(ver: nat, ofs: nat, key: Word, val: Val)
    | RBranch(ver: nat, kind: Kind, ofs: nat, pfx: seq<Byte>, keys: seq<Byte>, chs: seq<Id>)

  type Heap = map<Id, RNode>

  datatype Op = Search | Insert | Fork | Done | Broken

  /** `ofs` and `idx` are key_ofs and ch_idx. */
  datatype Context = Context(root: Id, cur: Id, past: Option<Id>, op: Op, ofs: nat, idx: nat, retired: seq<Id>)

  datatype Request = Request(ticket: nat, key: Word, val: Val)

  function PrefixOf(t: RNode): seq<Byte>
    requires t.RLeaf? ==> t.ofs <= 8
  {
    if t.RLeaf? then t.key[t.ofs..] else t.pfx
  }

  /** find_idx: a position in the small nodes, the byte itself in the others;
      the largest node never says no. */
  function FindIdx(kind: Kind, keys: seq<Byte>, b: Byte): Option<nat> {
    match kind
    case K256 => Some(b)
    case K48 => if IndexOf(keys, b, 0).Some? then Some(b) else None
    case _ => IndexOf(keys, b, 0)
  }

  /** append: where the new byte is. */
  function AppendIdx(kind: Kind, keys: seq<Byte>, b: Byte): nat {
    if kind.K48? || kind.K256? then b else FindGt(keys, b, 0)
  }

  /** getch: the child an index stands for, as a position among the bytes. */
  function Place(kind: Kind, keys: seq<Byte>, idx: nat): Option<nat> {
    if kind.K48? || kind.K256? then (if idx < 256 then IndexOf(keys, idx, 0) else None)
    else if idx < |keys| then Some(idx) else None
  }

  // ---- handlers -------------------------------------------------------------

  /** The old node below a fork, still without children; a leaf keeps only its
      newest value. */
  function Below(t: RNode, es: seq<Entry>, ticket: nat, m: nat): RNode
    requires (t.RLeaf? ==> t.ofs <= 8) && m < |PrefixOf(t)|
  {
    match t
    case RLeaf(_, ofs, key, val) => RLeaf(ticket, ofs + m + 1, key, Read(val, es, ticket))
    case RBranch(_, kind, ofs, pfx, keys, _) => RBranch(ticket, kind, ofs + m + 1, pfx[m+1..], keys, [])
  }

  /** The binary node of a fork, the smaller byte first. */
  function Binary(ticket: nat, ofs: nat, pfx: seq<Byte>, b0: Byte, b1: Byte, low: Id, leaf: Id): RNode {
    if b0 > b1 then RBranch(ticket, K4, ofs, pfx, [b1, b0], [leaf, low]) else RBranch(ticket, K4, ofs, pfx, [b0, b1], [low, leaf])
  }

  /** node_fork_cow. */
  function ForkCow(heap: Heap, side: Histories, x: Context, r: Request, past: Id, m: nat): (Heap, Id, Context)
    requires past in heap && (heap[past].RLeaf? ==> heap[past].ofs <= 8) && m < |PrefixOf(heap[past])| && x.ofs + m < 8
  {
    var low, leaf, id := New(r.ticket, x.ofs + m + 1, RightHalf), New(r.ticket, x.ofs + m + 1, WholeLeaf), New(r.ticket, x.ofs, LeftHalf);
    var b0, b1 := PrefixOf(heap[past])[m], r.key[x.ofs+m];
    (heap[low := Below(heap[past], HistoryOf(side, past), r.ticket, m)]
         [leaf := RLeaf(r.ticket, x.ofs + m + 1, r.key, r.val)]
         [id := Binary(r.ticket, x.ofs, r.key[x.ofs..x.ofs+m], b0, b1, low, leaf)],
     id,
     x.(op := Fork, ofs := x.ofs + m, idx := if b0 > b1 then 1 else 0, retired := x.retired + [past]))
  }

  /** update_cow: the node that goes into the slot above, and what is left to
      do. */
  function UpdateCow(heap: Heap, side: Histories, x: Context, r: Request): (Heap, Id, Context) {
    if x.past.None? then
      var id := New(r.ticket, x.ofs, WholeLeaf);
      (heap[id := RLeaf(r.ticket, x.ofs, r.key, r.val)], id, x.(op := Done))
    else
      var past := x.past.value;
      var broken := (heap, past, x.(op := Broken));
      if past !in heap || heap[past].ofs != x.ofs || x.ofs > 8 then broken else
      var t := heap[past];
      if x.ofs + |PrefixOf(t)| > 8 then broken else
      var m := MatchLen(PrefixOf(t), r.key, x.ofs);
      if m < |PrefixOf(t)| then ForkCow(heap, side, x, r, past, m)
      else
        match t
        case RLeaf(_, ofs, key, _) =>
          var id := New(r.ticket, x.ofs, WholeLeaf);
          (heap[id := RLeaf(r.ticket, ofs, key, r.val)], id, x.(op := Done, retired := x.retired + [past]))
        case RBranch(_, kind, ofs, pfx, keys, _) =>
          var o := x.ofs + |pfx|;
          if o >= 8 then broken else
          var b := r.key[o];
          var id := New(r.ticket, x.ofs, WholeNode);
          var x' := x.(ofs := o + 1, retired := x.retired + [past]);
          match FindIdx(kind, keys, b)
          case Some(i) => (heap[id := RBranch(r.ticket, kind, ofs, pfx, keys, [])], id, x'.(op := Search, idx := i))
          case None =>
            var kind' := if |keys| >= kind.Capacity() then kind.Next() else kind;
            var keys' := InsertAt(keys, FindGt(keys, b, 0), b);
            (heap[id := RBranch(r.ticket, kind', ofs, pfx, keys', [])], id, x'.(op := Insert, idx := AppendIdx(kind', keys, b)))
  }

  /** A store through getch; an absent byte of the largest node comes into
      being with it. */
  function Stored(c: RNode, idx: nat, id: Id): RNode
    requires c.RBranch? && |c.chs| == |c.keys|
  {
    var i := Place(c.kind, c.keys, idx);
    if i.Some? && i.value < |c.chs| then c.(chs := c.chs[i.value := id])
    else if idx < 256 then
      var b: Byte := idx;
      var g := FindGt(c.keys, b, 0);
      c.(keys := InsertAt(c.keys, g, b), chs := InsertAt(c.chs, g, id))
    else c
  }

  function HandleInit(heap: Heap, side: Histories, root: Option<Id>, r: Request): (Heap, Context) {
    var (h, id, x) := UpdateCow(heap, side, Context(Built(0), Built(0), root, Done, 0, 0, []), r);
    (h, x.(root := id, cur := id))
  }

  /** Both nodes a handler works on. */
  predicate Ready(heap: Heap, x: Context) {
    x.cur in heap && heap[x.cur].RBranch? && x.past.Some? && x.past.value in heap
  }

  function HandleSearch(heap: Heap, side: Histories, x: Context, r: Request): (Heap, Context) {
    if !Ready(heap, x) || heap[x.past.value].RLeaf? || |heap[x.past.value].chs| != |heap[x.cur].keys| then (heap, x.(op := Broken)) else
    var p := heap[x.past.value];
    var c := heap[x.cur].(chs := p.chs);
    var i := Place(p.kind, p.keys, x.idx);
    var child := if i.Some? && i.value < |p.chs| then Some(p.chs[i.value]) else None;
    var (h, id, x') := UpdateCow(heap[x.cur := c], side, x.(past := child), r);
    (h[x.cur := Stored(c, x.idx, id)], x'.(cur := id))
  }

  /** The children with a hole at the new byte, then the leaf into the hole. */
  function HandleInsert(heap: Heap, x: Context, r: Request): (Heap, Context) {
    if !Ready(heap, x) || heap[x.past.value].RLeaf? then (heap, x.(op := Broken)) else
    var c, p := heap[x.cur], heap[x.past.value];
    var i := Place(c.kind, c.keys, x.idx);
    if i.None? || i.value > |p.chs| then (heap, x.(op := Broken)) else
    var leaf := New(r.ticket, x.ofs, WholeLeaf);
    (heap[leaf := RLeaf(r.ticket, x.ofs, r.key, r.val)][x.cur := c.(chs := InsertAt(p.chs, i.value, leaf))], x.(op := Done))
  }

  function HandleFork(heap: Heap, x: Context): (Heap, Context) {
    if !Ready(heap, x) || x.idx >= |heap[x.cur].chs| || heap[x.cur].chs[x.idx] !in heap then (heap, x.(op := Broken)) else
    var low := heap[x.cur].chs[x.idx];
    if heap[low].RLeaf? then (heap, x.(op := Done, cur := low))
    else if heap[x.past.value].RLeaf? then (heap, x.(op := Broken))
    else (heap[low := heap[low].(chs := heap[x.past.value].chs)], x.(op := Done, cur := low))
  }

  function Stage(heap: Heap, side: Histories, x: Context, r: Request): (Heap, Context) {
    match x.op
    case Search => HandleSearch(heap, side, x, r)
    case Insert => HandleInsert(heap, x, r)
    case Fork => HandleFork(heap, x)
    case _ => (heap, x)
  }

  function Stages(heap: Heap, side: Histories, x: Context, r: Request, n: nat): (Heap, Context)
    decreases n
  {
    if n == 0 then (heap, x) else
    var (h, x') := Stage(heap, side, x, r);
    Stages(h, side, x', r, n - 1)
  }

  /** How many stages follow the one that copies t. */
  function StagesLeft(t: Node, ofs: nat, w: Word): nat
    decreases t
  {
    if (t.Leaf? && t.ofs > 8) || t.ofs != ofs || ofs + |NodePrefix(t)| > 8 then 0
    else if MatchLen(NodePrefix(t), w, ofs) < |NodePrefix(t)| then 1
    else if t.Leaf? || ofs + |t.pfx| >= 8 || |t.keys| != |t.chs| then 0
    else
      var i := IndexOf(t.keys, w[ofs+|t.pfx|], 0);
      if i.Some? then 1 + StagesLeft(t.chs[i.value], ofs + |t.pfx| + 1, w) else 1
  }

  // ---- trees in memory ------------------------------------------------------

  function IdsOf(ts: seq<Node>): (r: seq<Id>)
    ensures |r| == |ts|
  {
    seq(|ts|, i requires 0 <= i < |ts| => ts[i].id)
  }

  /** The node itself. */
  function Flat(t: Node): RNode {
    match t
    case Leaf(_, ver, ofs, key, val) => RLeaf(ver, ofs, key, val)
    case Branch(_, ver, kind, ofs, pfx, keys, chs) => RBranch(ver, kind, ofs, pfx, keys, IdsOf(chs))
  }

  ghost predicate Holds(heap: Heap, t: Node)
    decreases t, 1
  {
    t.id in heap && heap[t.id] == Flat(t) && (t.Branch? ==> HoldsAll(heap, t.chs))
  }

  ghost predicate HoldsAll(heap: Heap, ts: seq<Node>)
    decreases ts, 0
  {
    forall i :: 0 <= i < |ts| ==> Holds(heap, ts[i])
  }

  /** Only nodes of the ticket at offset s or below have changed. */
  ghost predicate Frame(a: Heap, b: Heap, ticket: nat, s: nat) {
    forall id :: id in a && !Fresh(id, ticket, s) ==> id in b && b[id] == a[id]
  }

  lemma FrameTwice(a: Heap, b: Heap, c: Heap, ticket: nat, s: nat, k: nat)
    requires Frame(a, b, ticket, s) && Frame(b, c, ticket, k) && s <= k
    ensures Frame(a, c, ticket, s)
  {
  }

  lemma {:induction false} HoldsFrame(a: Heap, b: Heap, t: Node, ticket: nat, s: nat)
    requires Holds(a, t) && Frame(a, b, ticket, s) && NoneOf(Ids(t), ticket)
    ensures Holds(b, t)
    decreases t
  {
    assert t.id in Ids(t);
    if t.Branch? {
      forall i | 0 <= i < |t.chs| ensures Holds(b, t.chs[i]) {
        ChildIds(t.chs, i);
        HoldsFrame(a, b, t.chs[i], ticket, s);
      }
    }
  }

  // ---- what a stage leaves open ---------------------------------------------

  ghost predicate OpenFork(heap: Heap, side: Histories, x: Context, r: Request, t: Node, ofs: nat, m: nat)
    requires (t.Leaf? ==> t.ofs <= 8) && m < |NodePrefix(t)| && ofs + m < 8
  {
    var f := ForkCopy(t, side, r.ticket, ofs, m, r.key, r.val);
    var low := LoweredCopy(t, side, r.ticket, m);
    var leaf := New(r.ticket, ofs + m + 1, WholeLeaf);
    && x.op == Fork && x.cur == f.id && x.cur in heap && heap[x.cur] == Flat(f)
    && x.idx < 2 && f.chs[x.idx] == low && f.chs[1 - x.idx] == Leaf(leaf, r.ticket, ofs + m + 1, r.key, r.val)
    && leaf in heap && heap[leaf] == RLeaf(r.ticket, ofs + m + 1, r.key, r.val)
    && low.id in heap && heap[low.id] == (if t.Leaf? then Flat(low) else Flat(low).(chs := []))
  }

  /** The state of a ticket whose next handler has to finish the copy of t. */
  ghost predicate Opened(heap: Heap, side: Histories, x: Context, r: Request, t: Node, ofs: nat)
    requires ofs == t.ofs <= 8 && ofs + |NodePrefix(t)| <= 8 && (t.Branch? ==> ofs + |NodePrefix(t)| < 8 && |t.keys| == |t.chs|)
  {
    var m := MatchLen(NodePrefix(t), r.key, ofs);
    if m < |NodePrefix(t)| then x.past == Some(t.id) && OpenFork(heap, side, x, r, t, ofs, m)
    else match t
      case Leaf(_, _, _, key, _) =>
        x.op == Done && x.cur == New(r.ticket, ofs, WholeLeaf) && x.cur in heap && heap[x.cur] == RLeaf(r.ticket, ofs, key, r.val)
      case Branch(_, _, kind, _, pfx, keys, _) =>
        var b := r.key[ofs+|pfx|];
        && x.past == Some(t.id) && x.cur == New(r.ticket, ofs, WholeNode) && x.cur in heap && x.ofs == ofs + |pfx| + 1
        && if IndexOf(keys, b, 0).Some? || kind.K256? then
             && x.op == Search && heap[x.cur] == RBranch(r.ticket, kind, ofs, pfx, keys, [])
             && (if IndexOf(keys, b, 0).Some? then Place(kind, keys, x.idx) == IndexOf(keys, b, 0) else x.idx == b)
           else
             var kind' := if |keys| >= kind.Capacity() then kind.Next() else kind;
             var g := FindGt(keys, b, 0);
             && x.op == Insert && heap[x.cur] == RBranch(r.ticket, kind', ofs, pfx, InsertAt(keys, g, b), [])
             && Place(kind', InsertAt(keys, g, b), x.idx) == Some(g)
  }

  // ---- opening --------------------------------------------------------------

  lemma HoldsFlat(heap: Heap, t: Node)
    requires Holds(heap, t)
    ensures t.id in heap && heap[t.id] == Flat(t)
    ensures t.Leaf? && t.ofs <= 8 ==> PrefixOf(heap[t.id]) == NodePrefix(t)
    ensures t.Branch? ==> PrefixOf(heap[t.id]) == NodePrefix(t) && |heap[t.id].chs| == |t.chs|
  {
  }

  lemma ForkParts(side: Histories, t: Node, ticket: nat, ofs: nat, m: nat, w: Word, v: Val)
    requires t.ofs == ofs <= 8 && m < |NodePrefix(t)| && ofs + m < 8
    ensures var f, low := ForkCopy(t, side, ticket, ofs, m, w, v), LoweredCopy(t, side, ticket, m);
            var b0, b1 := NodePrefix(t)[m], w[ofs+m];
            var leaf := New(ticket, ofs + m + 1, WholeLeaf);
            && low.id == New(ticket, ofs + m + 1, RightHalf) && f.id == New(ticket, ofs, LeftHalf)
            && Flat(f) == Binary(ticket, ofs, w[ofs..ofs+m], b0, b1, low.id, leaf)
            && f.Branch? && |f.chs| == 2 && f.chs[if b0 > b1 then 1 else 0] == low && f.chs[if b0 > b1 then 0 else 1] == Leaf(leaf, ticket, ofs + m + 1, w, v)
  {
    hide Read;
    var f, low := ForkCopy(t, side, ticket, ofs, m, w, v), LoweredCopy(t, side, ticket, m);
    var leaf := New(ticket, ofs + m + 1, WholeLeaf);
    assert IdsOf(f.chs) == if NodePrefix(t)[m] > w[ofs+m] then [leaf, low.id] else [low.id, leaf];
  }

  lemma BelowIs(side: Histories, t: Node, ticket: nat, m: nat)
    requires t.ofs <= 8 && m < |NodePrefix(t)|
    ensures PrefixOf(Flat(t)) == NodePrefix(t) && Flat(LoweredCopy(t, side, ticket, m)).RLeaf? == t.Leaf?
    ensures Below(Flat(t), HistoryOf(side, t.id), ticket, m)
            == (if t.Leaf? then Flat(LoweredCopy(t, side, ticket, m)) else Flat(LoweredCopy(t, side, ticket, m)).(chs := []))
  {
  }

  lemma OpenForkOk(heap: Heap, side: Histories, x: Context, r: Request, t: Node, m: nat)
    requires Holds(heap, t) && t.ofs == x.ofs <= 8 && m < |NodePrefix(t)| && x.ofs + m < 8
    ensures PrefixOf(heap[t.id]) == NodePrefix(t)
    ensures var (h, id, x') := ForkCow(heap, side, x, r, t.id, m);
            && id == ForkCopy(t, side, r.ticket, x.ofs, m, r.key, r.val).id
            && OpenFork(h, side, x'.(cur := id), r, t, x.ofs, m)
            && x'.retired == x.retired + [t.id] && x'.root == x.root && x'.past == x.past
            && Frame(heap, h, r.ticket, x.ofs)
  {
    hide Read, HoldsAll, Flat, ForkCopy, LoweredCopy, Below, Binary, NodePrefix, PrefixOf;
    HoldsFlat(heap, t);
    BelowIs(side, t, r.ticket, m);
    ForkParts(side, t, r.ticket, x.ofs, m, r.key, r.val);
  }

  lemma OpenOk(heap: Heap, side: Histories, x: Context, r: Request, t: Node, path: seq<Byte>)
    requires x.past == Some(t.id) && x.ofs == |path| && Holds(heap, t) && Shaped(t, path)
    ensures t.ofs == |path| <= 8 && |path| + |NodePrefix(t)| <= 8 && (t.Branch? ==> |path| + |NodePrefix(t)| < 8 && |t.keys| == |t.chs|)
    ensures var (h, id, x') := UpdateCow(heap, side, x, r);
            && id == Cow(t, side, r.ticket, |path|, r.key, r.val).id
            && Opened(h, side, x'.(cur := id), r, t, |path|)
            && x'.retired == x.retired + [t.id] && x'.root == x.root
            && Frame(heap, h, r.ticket, |path|)
  {
    hide Read, HoldsAll, ForkCow, ForkCopy, OpenFork, Shaped, InsertAt, Holds;
    ShapedIs(t, path);
    HoldsFlat(heap, t);
    var m := MatchLen(NodePrefix(t), r.key, |path|);
    if m < |NodePrefix(t)| {
      OpenForkOk(heap, side, x, r, t, m);
    } else if t.Branch? {
      BranchRoom(t, path);
      OpenBranch(t.kind, t.keys, r.key[|path|+|t.pfx|]);
    }
  }

  lemma BranchRoom(t: Node, path: seq<Byte>)
    requires Shaped(t, path) && t.Branch?
    ensures |t.keys| <= t.kind.Capacity()
  {
  }

  /** Indices name the same child in the copy. */
  lemma OpenBranch(kind: Kind, keys: seq<Byte>, b: Byte)
    requires |keys| <= kind.Capacity()
    ensures IndexOf(keys, b, 0).Some? ==> FindIdx(kind, keys, b).Some? && Place(kind, keys, FindIdx(kind, keys, b).value) == IndexOf(keys, b, 0)
    ensures kind.K256? && IndexOf(keys, b, 0).None? ==> FindIdx(kind, keys, b) == Some(b)
    ensures !kind.K256? && IndexOf(keys, b, 0).None? ==>
              && FindIdx(kind, keys, b).None?
              && var kind' := if |keys| >= kind.Capacity() then kind.Next() else kind;
                 Place(kind', InsertAt(keys, FindGt(keys, b, 0), b), AppendIdx(kind', keys, b)) == Some(FindGt(keys, b, 0))
  {
    if IndexOf(keys, b, 0).None? {
      var g := FindGt(keys, b, 0);
      forall j | 0 <= j < |keys| ensures keys[j] != b {
      }
      OnlyAt(keys, g, b);
    }
  }

  lemma OnlyAt(keys: seq<Byte>, g: nat, b: Byte)
    requires g <= |keys| && forall j :: 0 <= j < |keys| ==> keys[j] != b
    ensures IndexOf(InsertAt(keys, g, b), b, 0) == Some(g)
  {
    InsertedAt(keys, g, b, g);
    var i := IndexOf(InsertAt(keys, g, b), b, 0);
    if i.Some? && i.value != g {
      InsertedAt(keys, g, b, i.value);
    }
  }

  /** The rest of the copy only needs the ticket's nodes at this offset and
      below. */
  lemma OpenedFrame(h: Heap, h': Heap, side: Histories, x: Context, r: Request, t: Node, ofs: nat)
    requires ofs == t.ofs <= 8 && ofs + |NodePrefix(t)| <= 8 && (t.Branch? ==> ofs + |NodePrefix(t)| < 8 && |t.keys| == |t.chs|)
    requires Opened(h, side, x, r, t, ofs)
    requires forall id :: id in h && Fresh(id, r.ticket, ofs) ==> id in h' && h'[id] == h[id]
    ensures Opened(h', side, x, r, t, ofs)
  {
    hide Read, FindGt, IndexOf, InsertAt, Place;
  }

  // ---- finishing ------------------------------------------------------------

  lemma HoldsKids(a: Heap, b: Heap, t: Node, ticket: nat, s: nat)
    requires Holds(a, t) && Frame(a, b, ticket, s) && NoneOf(Ids(t), ticket) && t.Branch?
    ensures HoldsAll(b, t.chs)
  {
    hide Frame;
    forall i | 0 <= i < |t.chs| ensures Holds(b, t.chs[i]) {
      ChildIds(t.chs, i);
      HoldsFrame(a, b, t.chs[i], ticket, s);
    }
  }

  lemma LowHolds(h: Heap, side: Histories, t: Node, ticket: nat, m: nat)
    requires t.ofs <= 8 && m < |NodePrefix(t)| && (t.Branch? ==> HoldsAll(h, t.chs))
    requires var low := LoweredCopy(t, side, ticket, m); low.id in h && h[low.id] == Flat(low)
    ensures Holds(h, LoweredCopy(t, side, ticket, m))
  {
    hide HoldsAll;
  }

  lemma PairHolds(h: Heap, f: Node, i: nat)
    requires f.Branch? && |f.chs| == 2 && i < 2 && Holds(h, f.chs[i]) && Holds(h, f.chs[1 - i]) && f.id in h && h[f.id] == Flat(f)
    ensures Holds(h, f)
  {
    hide Flat;
    assert HoldsAll(h, f.chs);
  }

  lemma FinishFork(heap: Heap, side: Histories, x: Context, r: Request, t: Node, ofs: nat, m: nat)
    requires t.ofs == ofs <= 8 && m < |NodePrefix(t)| && ofs + m < 8 && NoneOf(Ids(t), r.ticket)
    requires OpenFork(heap, side, x, r, t, ofs, m) && x.past == Some(t.id) && Holds(heap, t)
    ensures var (h, x') := Stage(heap, side, x, r);
            && x'.op == Done && x'.root == x.root && x'.retired == x.retired && Frame(heap, h, r.ticket, ofs)
            && Holds(h, ForkCopy(t, side, r.ticket, ofs, m, r.key, r.val))
  {
    hide Holds, HoldsAll, Flat, ForkCopy, LoweredCopy, NodePrefix, FindGt, IndexOf, NoneOf;
    var (h, x') := Stage(heap, side, x, r);
    var f, low := ForkCopy(t, side, r.ticket, ofs, m, r.key, r.val), LoweredCopy(t, side, r.ticket, m);
    ForkParts(side, t, r.ticket, ofs, m, r.key, r.val);
    BelowIs(side, t, r.ticket, m);
    HoldsFlat(heap, t);
    LowFlat(side, t, r.ticket, m);
    FlatKids(f, x.idx);
    assert h[low.id] == Flat(low);
    if t.Branch? {
      HoldsKids(heap, h, t, r.ticket, ofs);
    }
    LowHolds(h, side, t, r.ticket, m);
    NewLeafHolds(h, r.ticket, ofs + m + 1, r.key, r.val);
    PairHolds(h, f, x.idx);
  }

  lemma LowFlat(side: Histories, t: Node, ticket: nat, m: nat)
    requires t.ofs <= 8 && m < |NodePrefix(t)|
    ensures var low := Flat(LoweredCopy(t, side, ticket, m));
            t.Branch? ==> Flat(t).RBranch? && low.RBranch? && low == low.(chs := []).(chs := Flat(t).chs)
    ensures t.Leaf? ==> Flat(t).RLeaf? && Flat(LoweredCopy(t, side, ticket, m)).RLeaf?
  {
  }

  lemma FlatKids(f: Node, i: nat)
    requires f.Branch? && i < |f.chs|
    ensures Flat(f).RBranch? && i < |Flat(f).chs| && Flat(f).chs[i] == f.chs[i].id
  {
  }

  lemma NewLeafHolds(h: Heap, ticket: nat, ofs: nat, w: Word, v: Val)
    requires New(ticket, ofs, WholeLeaf) in h && h[New(ticket, ofs, WholeLeaf)] == RLeaf(ticket, ofs, w, v)
    ensures Holds(h, Leaf(New(ticket, ofs, WholeLeaf), ticket, ofs, w, v))
  {
  }

  /** A new child among siblings that have not changed. */
  lemma KidsHold(h: Heap, ts: seq<Node>, i: nat, c: Node)
    requires HoldsAll(h, ts) && i <= |ts| && Holds(h, c)
    ensures HoldsAll(h, InsertAt(ts, i, c)) && IdsOf(InsertAt(ts, i, c)) == InsertAt(IdsOf(ts), i, c.id)
    ensures i < |ts| ==> HoldsAll(h, ts[i := c]) && IdsOf(ts[i := c]) == IdsOf(ts)[i := c.id]
  {
    hide Holds;
    var us := InsertAt(ts, i, c);
    forall j | 0 <= j < |us| ensures Holds(h, us[j]) {
      InsertedAt(ts, i, c, j);
    }
  }

  lemma BranchHolds(h: Heap, t: Node)
    requires t.Branch? && t.id in h && h[t.id] == Flat(t) && HoldsAll(h, t.chs)
    ensures Holds(h, t)
  {
  }

  /** A widened copy, with the new leaf in the hole. */
  lemma WidenedHolds(h: Heap, t: Node, ticket: nat, b: Byte, c: Node, id: Id)
    requires t.Branch? && |t.keys| == |t.chs| && HoldsAll(h, t.chs) && Holds(h, c) && id == New(ticket, t.ofs, WholeNode)
    requires var kind' := if |t.keys| >= t.kind.Capacity() then t.kind.Next() else t.kind;
             var g := FindGt(t.keys, b, 0);
             id in h && h[id] == RBranch(ticket, kind', t.ofs, t.pfx, InsertAt(t.keys, g, b), InsertAt(IdsOf(t.chs), g, c.id))
    ensures Holds(h, WidenedCopy(t, ticket, b, c))
  {
    hide Holds, HoldsAll, FindGt, InsertAt, IdsOf;
    KidsHold(h, t.chs, FindGt(t.keys, b, 0), c);
    BranchHolds(h, WidenedCopy(t, ticket, b, c));
  }

  lemma FinishInsert(heap: Heap, side: Histories, x: Context, r: Request, t: Node, ofs: nat, b: Byte)
    requires t.Branch? && t.ofs == ofs && |t.keys| == |t.chs| && NoneOf(Ids(t), r.ticket) && Holds(heap, t)
    requires x.past == Some(t.id) && x.cur == New(r.ticket, ofs, WholeNode) && x.cur in heap && x.ofs == ofs + |t.pfx| + 1 && x.op == Insert
    requires var kind' := if |t.keys| >= t.kind.Capacity() then t.kind.Next() else t.kind;
             var g := FindGt(t.keys, b, 0);
             heap[x.cur] == RBranch(r.ticket, kind', ofs, t.pfx, InsertAt(t.keys, g, b), []) && Place(kind', InsertAt(t.keys, g, b), x.idx) == Some(g)
    ensures var (h, x') := Stage(heap, side, x, r);
            && x'.op == Done && x'.root == x.root && x'.retired == x.retired && Frame(heap, h, r.ticket, ofs)
            && Holds(h, WidenedCopy(t, r.ticket, b, Leaf(New(r.ticket, x.ofs, WholeLeaf), r.ticket, x.ofs, r.key, r.val)))
  {
    hide Holds, HoldsAll, NoneOf, InsertAt, Place;
    var (h, x') := Stage(heap, side, x, r);
    HoldsFlat(heap, t);
    HoldsKids(heap, h, t, r.ticket, ofs);
    NewLeafHolds(h, r.ticket, x.ofs, r.key, r.val);
    WidenedHolds(h, t, r.ticket, b, Leaf(New(r.ticket, x.ofs, WholeLeaf), r.ticket, x.ofs, r.key, r.val), x.cur);
  }

  /** The largest node finds an empty child, and the leaf goes there. */
  lemma FinishEmpty(heap: Heap, side: Histories, x: Context, r: Request, t: Node, ofs: nat, b: Byte)
    requires t.Branch? && t.ofs == ofs && |t.keys| == |t.chs| < 256 && NoneOf(Ids(t), r.ticket) && Holds(heap, t)
    requires x.past == Some(t.id) && x.cur == New(r.ticket, ofs, WholeNode) && x.cur in heap && x.ofs == ofs + |t.pfx| + 1 && x.op == Search
    requires t.kind.K256? && heap[x.cur] == RBranch(r.ticket, t.kind, ofs, t.pfx, t.keys, []) && x.idx == b && IndexOf(t.keys, b, 0).None?
    ensures var (h, x') := Stage(heap, side, x, r);
            && x'.op == Done && x'.root == x.root && x'.retired == x.retired && Frame(heap, h, r.ticket, ofs)
            && Holds(h, WidenedCopy(t, r.ticket, b, Leaf(New(r.ticket, x.ofs, WholeLeaf), r.ticket, x.ofs, r.key, r.val)))
  {
    hide Holds, HoldsAll, NoneOf, InsertAt, ForkCow, FindGt;
    var (h, x') := Stage(heap, side, x, r);
    HoldsFlat(heap, t);
    HoldsKids(heap, h, t, r.ticket, ofs);
    NewLeafHolds(h, r.ticket, x.ofs, r.key, r.val);
    WidenedHolds(h, t, r.ticket, b, Leaf(New(r.ticket, x.ofs, WholeLeaf), r.ticket, x.ofs, r.key, r.val), x.cur);
  }

  /** One level down: the children come over, and the child's copy is opened. */
  lemma SearchStep(heap: Heap, side: Histories, x: Context, r: Request, t: Node, path: seq<Byte>, i: nat)
    requires t.Branch? && Shaped(t, path) && NoneOf(Ids(t), r.ticket) && Holds(heap, t)
    requires |path| + |t.pfx| < 8 && i < |t.chs| == |t.keys| && t.keys[i] == r.key[|path|+|t.pfx|] && t.ofs == |path|
    requires x.past == Some(t.id) && x.cur == New(r.ticket, |path|, WholeNode) && x.cur in heap && x.ofs == |path| + |t.pfx| + 1 && x.op == Search
    requires heap[x.cur] == RBranch(r.ticket, t.kind, |path|, t.pfx, t.keys, []) && Place(t.kind, t.keys, x.idx) == Some(i)
    ensures var c := t.chs[i];
            c.ofs == x.ofs <= 8 && x.ofs + |NodePrefix(c)| <= 8 && (c.Branch? ==> x.ofs + |NodePrefix(c)| < 8 && |c.keys| == |c.chs|)
    ensures var (h, x') := Stage(heap, side, x, r);
            var c := t.chs[i];
            && Opened(h, side, x', r, c, x.ofs) && x'.root == x.root && x'.retired == x.retired + [c.id]
            && Frame(heap, h, r.ticket, |path|) && Holds(h, c)
            && x.cur in h && h[x.cur] == RBranch(r.ticket, t.kind, |path|, t.pfx, t.keys,
                                                 IdsOf(t.chs)[i := Cow(c, side, r.ticket, x.ofs, r.key, r.val).id])
  {
    hide Holds, HoldsAll, NoneOf, UpdateCow, Opened, Cow, Shaped, Place, NodePrefix, IdsOf, Seen;
    ShapedIs(t, path);
    HoldsFlat(heap, t);
    var c, p := t.chs[i], heap[t.id];
    var copied := heap[x.cur].(chs := p.chs);
    var h1 := heap[x.cur := copied];
    assert x.cur != t.id by { assert t.id in Ids(t); NotOwn(t, r.ticket, |path|); }
    HoldsKids(heap, h1, t, r.ticket, |path|);
    HoldsChild(h1, t.chs, i);
    var x1 := x.(past := Some(c.id));
    assert IdsOf(t.chs)[i] == c.id by { IdAt(t.chs, i); }
    OpenOk(h1, side, x1, r, c, path + t.pfx + [t.keys[i]]);
    var (h2, id, x2) := UpdateCow(h1, side, x1, r);
    var h := h2[x.cur := Stored(copied, x.idx, id)];
    OpenedFrame(h2, h, side, x2.(cur := id), r, c, x.ofs);
    KidNotOwn(t, i, r.ticket);
    HoldsFrame(h1, h, c, r.ticket, |path|);
    assert Stage(heap, side, x, r) == (h, x2.(cur := id));
  }

  lemma NotOwn(t: Node, ticket: nat, ofs: nat)
    requires NoneOf(Ids(t), ticket)
    ensures t.id != New(ticket, ofs, WholeNode)
  {
    assert t.id in Ids(t);
  }

  lemma KidNotOwn(t: Node, i: nat, ticket: nat)
    requires NoneOf(Ids(t), ticket) && t.Branch? && i < |t.chs|
    ensures NoneOf(Ids(t.chs[i]), ticket)
  {
    ChildIds(t.chs, i);
  }

  lemma HoldsChild(h: Heap, ts: seq<Node>, i: nat)
    requires HoldsAll(h, ts) && i < |ts|
    ensures Holds(h, ts[i])
  {
  }

  lemma IdAt(ts: seq<Node>, i: nat)
    requires i < |ts|
    ensures IdsOf(ts)[i] == ts[i].id
  {
  }

  // ---- all stages -----------------------------------------------------------

  ghost predicate Finished(heap: Heap, side: Histories, x: Context, r: Request, t: Node, ofs: nat, base: seq<Id>)
  {
    var (h, x') := Stages(heap, side, x, r, StagesLeft(t, ofs, r.key));
    && x'.op == Done && x'.root == x.root && x'.retired == base + Path(t, ofs, r.key)
    && Holds(h, Cow(t, side, r.ticket, ofs, r.key, r.val)) && Frame(heap, h, r.ticket, ofs)
  }

  lemma OneStage(heap: Heap, side: Histories, x: Context, r: Request)
    ensures Stages(heap, side, x, r, 1) == Stage(heap, side, x, r)
  {
    hide Stage;
    var (h, x') := Stage(heap, side, x, r);
    assert Stages(h, side, x', r, 0) == (h, x');
  }

  lemma RestFork(heap: Heap, side: Histories, x: Context, r: Request, t: Node, ofs: nat, base: seq<Id>)
    requires NoneOf(Ids(t), r.ticket) && Holds(heap, t) && t.ofs == ofs <= 8 && ofs + |NodePrefix(t)| <= 8
    requires (t.Branch? ==> ofs + |NodePrefix(t)| < 8 && |t.keys| == |t.chs|) && Opened(heap, side, x, r, t, ofs) && x.retired == base + [t.id]
    requires MatchLen(NodePrefix(t), r.key, ofs) < |NodePrefix(t)|
    ensures Finished(heap, side, x, r, t, ofs, base)
  {
    hide Holds, NoneOf, Stage, ForkCopy, OpenFork, Stages;
    OneStage(heap, side, x, r);
    FinishFork(heap, side, x, r, t, ofs, MatchLen(NodePrefix(t), r.key, ofs));
  }

  lemma RestLeaf(heap: Heap, side: Histories, x: Context, r: Request, t: Node, ofs: nat, base: seq<Id>)
    requires t.Leaf? && t.ofs == ofs <= 8 && ofs + |NodePrefix(t)| <= 8
    requires Opened(heap, side, x, r, t, ofs) && x.retired == base + [t.id]
    requires MatchLen(NodePrefix(t), r.key, ofs) == |NodePrefix(t)|
    ensures Finished(heap, side, x, r, t, ofs, base)
  {
    hide Holds;
    assert Stages(heap, side, x, r, 0) == (heap, x);
    NewLeafHolds(heap, r.ticket, ofs, t.key, r.val);
  }

  lemma RestAbsent(heap: Heap, side: Histories, x: Context, r: Request, t: Node, path: seq<Byte>, base: seq<Id>)
    requires Shaped(t, path) && NoneOf(Ids(t), r.ticket) && Holds(heap, t) && t.Branch? && t.ofs == |path|
    requires |path| + |t.pfx| < 8 && |t.keys| == |t.chs| && MatchLen(t.pfx, r.key, |path|) == |t.pfx|
    requires Opened(heap, side, x, r, t, |path|) && x.retired == base + [t.id] && IndexOf(t.keys, r.key[|path|+|t.pfx|], 0).None?
    ensures Finished(heap, side, x, r, t, |path|, base)
  {
    hide Holds, NoneOf, Stage, WidenedCopy, Stages, InsertAt, FindGt, IndexOf, Place, Shaped;
    OneStage(heap, side, x, r);
    var b := r.key[|path|+|t.pfx|];
    if t.kind.K256? {
      BytesLeft(t, path, b);
      FinishEmpty(heap, side, x, r, t, |path|, b);
    } else {
      FinishInsert(heap, side, x, r, t, |path|, b);
    }
  }

  /** A byte that is missing leaves room. */
  lemma BytesLeft(t: Node, path: seq<Byte>, b: Byte)
    requires Shaped(t, path) && t.Branch? && IndexOf(t.keys, b, 0).None?
    ensures |t.keys| < 256
  {
    Room(t.keys, t.kind);
    assert b !in t.keys;
  }

  /** From an opened copy, the stages left finish it. */
  lemma {:induction false} RestOk(heap: Heap, side: Histories, x: Context, r: Request, t: Node, path: seq<Byte>, base: seq<Id>)
    requires Shaped(t, path) && NoneOf(Ids(t), r.ticket) && Holds(heap, t)
    requires t.ofs == |path| <= 8 && |path| + |NodePrefix(t)| <= 8 && (t.Branch? ==> |path| + |NodePrefix(t)| < 8 && |t.keys| == |t.chs|)
    requires Opened(heap, side, x, r, t, |path|) && x.retired == base + [t.id]
    ensures Finished(heap, side, x, r, t, |path|, base)
    decreases t
  {
    hide Holds, NoneOf, Opened, Finished, Shaped, Stage, Frame, Cow, IdsOf, Place, MatchLen;
    var p := NodePrefix(t);
    if MatchLen(p, r.key, |path|) < |p| {
      RestFork(heap, side, x, r, t, |path|, base);
    } else if t.Leaf? {
      RestLeaf(heap, side, x, r, t, |path|, base);
    } else {
      var b := r.key[|path|+|p|];
      var i := IndexOf(t.keys, b, 0);
      if i.None? {
        RestAbsent(heap, side, x, r, t, path, base);
      } else {
        OpenedSearch(heap, side, x, r, t, |path|, i.value);
        SearchStep(heap, side, x, r, t, path, i.value);
        var (h, x') := Stage(heap, side, x, r);
        ShapedIs(t, path);
        KidNotOwn(t, i.value, r.ticket);
        RestOk(h, side, x', r, t.chs[i.value], path + t.pfx + [b], base + [t.id]);
        RestBelow(heap, side, x, r, t, |path|, i.value, h, x', base);
      }
    }
  }

  lemma OpenedSearch(heap: Heap, side: Histories, x: Context, r: Request, t: Node, ofs: nat, i: nat)
    requires t.Branch? && ofs == t.ofs && ofs + |t.pfx| < 8 && |t.keys| == |t.chs| && Opened(heap, side, x, r, t, ofs)
    requires MatchLen(t.pfx, r.key, ofs) == |t.pfx| && IndexOf(t.keys, r.key[ofs+|t.pfx|], 0) == Some(i)
    ensures x.past == Some(t.id) && x.cur == New(r.ticket, ofs, WholeNode) && x.cur in heap && x.ofs == ofs + |t.pfx| + 1 && x.op == Search
    ensures heap[x.cur] == RBranch(r.ticket, t.kind, ofs, t.pfx, t.keys, []) && Place(t.kind, t.keys, x.idx) == Some(i)
  {
    hide Place, IndexOf;
  }

  lemma OneMore(heap: Heap, side: Histories, x: Context, r: Request, n: nat)
    ensures var (h, x') := Stage(heap, side, x, r);
            Stages(heap, side, x, r, 1 + n) == Stages(h, side, x', r, n)
  {
    hide Stage;
  }

  lemma AboveKept(a: Heap, b: Heap, ticket: nat, ofs: nat, o: nat)
    requires Frame(a, b, ticket, o) && ofs < o && New(ticket, ofs, WholeNode) in a
    ensures var id := New(ticket, ofs, WholeNode); id in b && b[id] == a[id]
  {
  }

  /** The copy above a finished child is finished. */
  lemma RestBelow(heap: Heap, side: Histories, x: Context, r: Request, t: Node, ofs: nat, i: nat, h: Heap, x': Context, base: seq<Id>)
    requires t.Branch? && t.ofs == ofs && ofs + |t.pfx| < 8 && |t.keys| == |t.chs| && Holds(heap, t) && NoneOf(Ids(t), r.ticket)
    requires MatchLen(t.pfx, r.key, ofs) == |t.pfx| && IndexOf(t.keys, r.key[ofs+|t.pfx|], 0) == Some(i)
    requires Stage(heap, side, x, r) == (h, x') && Frame(heap, h, r.ticket, ofs) && x.cur in h && x.cur == New(r.ticket, ofs, WholeNode)
    requires h[x.cur] == RBranch(r.ticket, t.kind, ofs, t.pfx, t.keys,
                                 IdsOf(t.chs)[i := Cow(t.chs[i], side, r.ticket, ofs + |t.pfx| + 1, r.key, r.val).id])
    requires Finished(h, side, x', r, t.chs[i], ofs + |t.pfx| + 1, base + [t.id]) && x'.root == x.root
    ensures Finished(heap, side, x, r, t, ofs, base)
  {
    hide Holds, HoldsAll, NoneOf, Stage, ForkCopy, WidenedCopy, IdsOf, Stages, MatchLen, IndexOf, Frame;
    var c, o := t.chs[i], ofs + |t.pfx| + 1;
    var n := StagesLeft(c, o, r.key);
    var (h', y) := Stages(h, side, x', r, n);
    OneMore(heap, side, x, r, n);
    FrameTwice(heap, h, h', r.ticket, ofs, o);
    AboveKept(h, h', r.ticket, ofs, o);
    HoldsKids(heap, h', t, r.ticket, ofs);
    var c' := Cow(c, side, r.ticket, o, r.key, r.val);
    KidsHold(h', t.chs, i, c');
    BranchHolds(h', Branch(x.cur, r.ticket, t.kind, ofs, t.pfx, t.keys, t.chs[i := c']));
    assert (base + [t.id]) + Path(c, o, r.key) == base + ([t.id] + Path(c, o, r.key));
  }

  /** What the stages make is the path copy: when the ticket is done its root
      is the root of the copy, the copy lies in memory as made in one go, the
      replaced nodes are the path, root first, and nothing else has changed. */
  lemma StagedIsOneShot(heap: Heap, side: Histories, t: Node, r: Request)
    requires Shaped(t, []) && NoneOf(Ids(t), r.ticket) && Holds(heap, t)
    ensures var (h, x) := HandleInit(heap, side, Some(t.id), r);
            var (h', x') := Stages(h, side, x, r, StagesLeft(t, 0, r.key));
            var t' := Cow(t, side, r.ticket, 0, r.key, r.val);
            && x'.op == Done && x'.root == t'.id && x'.retired == Path(t, 0, r.key)
            && Holds(h', t') && Holds(h', t)
            && forall id :: id in heap && !(id.New? && id.ticket == r.ticket) ==> id in h' && h'[id] == heap[id]
  {
    hide Holds, NoneOf, Opened, Shaped, UpdateCow, Cow, Path, Stages, StagesLeft, NodePrefix;
    var x0 := Context(Built(0), Built(0), Some(t.id), Done, 0, 0, []);
    OpenOk(heap, side, x0, r, t, []);
    var (h, id, x1) := UpdateCow(heap, side, x0, r);
    var x := x1.(root := id, cur := id);
    HoldsFrame(heap, h, t, r.ticket, 0);
    OpenedRoot(h, side, x1.(cur := id), r, t, id);
    RestOk(h, side, x, r, t, [], []);
    var (h', x') := Stages(h, side, x, r, StagesLeft(t, 0, r.key));
    FrameTwice(heap, h, h', r.ticket, 0, 0);
    HoldsFrame(heap, h', t, r.ticket, 0);
    assert [] + Path(t, 0, r.key) == Path(t, 0, r.key);
  }

  lemma OpenedRoot(h: Heap, side: Histories, x: Context, r: Request, t: Node, root: Id)
    requires t.ofs == 0 && |NodePrefix(t)| <= 8 && (t.Branch? ==> |NodePrefix(t)| < 8 && |t.keys| == |t.chs|)
    requires Opened(h, side, x, r, t, 0)
    ensures Opened(h, side, x.(root := root), r, t, 0)
  {
    hide NodePrefix, IndexOf, Place, FindGt, InsertAt;
  }

  /** A done ticket passes its remaining stages unchanged. */
  lemma {:induction false} DoneStays(heap: Heap, side: Histories, x: Context, r: Request, n: nat)
    requires x.op == Done
    ensures Stages(heap, side, x, r, n) == (heap, x)
  {
    if n > 0 {
      DoneStays(heap, side, x, r, n - 1);
    }
  }

  /** An empty tree takes one stage. */
  lemma FirstLeaf(heap: Heap, side: Histories, r: Request)
    ensures var (h, x) := HandleInit(heap, side, None, r);
            x.op == Done && x.root == New(r.ticket, 0, WholeLeaf) && x.retired == []
            && Holds(h, Leaf(New(r.ticket, 0, WholeLeaf), r.ticket, 0, r.key, r.val))
  {
    var (h, x) := HandleInit(heap, side, None, r);
    NewLeafHolds(h, r.ticket, 0, r.key, r.val);
  }
}
