/** The staged handlers on a heap of nodes: each stage fills the node it stands
    at from a node of the previous tree and exposes the header of the next one,
    whose children are still missing. */
module StagedCow {
  import opened Options
  import opened Records
  import opened Nodes
  import opened BTree

  /** A physical node. An internal node starts without children; a leaf made
      for a worker starts without values. */
  datatype HNode =
    | HInner(ver: nat, keys: seq<Key>, chs: seq<Id>, ready: bool)
    | HLeaf(ver: nat, keys: seq<Key>, vals: Option<seq<Val>>)

  type Heap = map<Id, HNode>

  /** A reserved slot has no value until its worker publishes it. */
  datatype HSlot = HSlot(version: nat, key: Key, value: Option<Val>)

  type HSide = map<Id, seq<HSlot>>

  datatype Op = Init | SearchDown | SearchSplit | FatAppend | Materialize | Done | Broken

  /** The part of a ticket's context the handlers work on. `Broken` stands for
      touching a node that is missing, or a child array that is not there. */
  datatype Context = Context(root: Id, cur: Id, past: Id, op: Op, idx: nat, pair: bool, retired: seq<Id>)

  datatype Request = Request(ticket: nat, key: Key, val: Val, worker: bool)

  function HSlotsAt(side: HSide, id: Id): seq<HSlot> {
    if id in side then side[id] else []
  }

  function Plain(s: HSlot): Slot {
    Slot(s.version, s.key, if s.value.Some? then s.value.value else 0)
  }

  function Erase(slots: seq<HSlot>): (r: seq<Slot>)
    ensures |r| == |slots|
    ensures forall i :: 0 <= i < |r| ==> r[i] == Plain(slots[i])
  {
    seq(|slots|, i requires 0 <= i < |slots| => Plain(slots[i]))
  }

  predicate Published(slots: seq<HSlot>) {
    forall i :: 0 <= i < |slots| ==> slots[i].value.Some?
  }

  /** A reader skips slots whose value is still pending. */
  function Visible(slots: seq<HSlot>): seq<Slot> {
    if slots == [] then [] else
    var rest := Visible(slots[..|slots|-1]);
    var last := slots[|slots|-1];
    if last.value.Some? then rest + [Plain(last)] else rest
  }

  /** The keys of the leaves that replace a leaf: no value is looked at. */
  function NewKeys(keys: seq<Key>, slots: seq<HSlot>, r: Request): seq<Key> {
    Ascending(KeySet(keys) + SlotKeys(Erase(slots), r.ticket) + {r.key})
  }

  /** The records of those leaves, once every value they need is there. */
  function SourceView(leaf: HNode, slots: seq<HSlot>, r: Request): Option<map<Key, Val>> {
    if leaf.HLeaf? && leaf.vals.Some? && |leaf.keys| == |leaf.vals.value| && Published(slots)
    then Some(LeafView(leaf.keys, leaf.vals.value, Erase(slots), r.ticket)[r.key := r.val])
    else None
  }

  function PutLeaves(heap: Heap, keys: seq<Key>, ticket: nat, stage: nat): Heap {
    if |keys| <= MAX_KEYS then heap[New(ticket, stage, WholeLeaf) := HLeaf(ticket, keys, None)]
    else
      heap[New(ticket, stage, LeftLeaf) := HLeaf(ticket, keys[..|keys|/2], None)]
          [New(ticket, stage, RightLeaf) := HLeaf(ticket, keys[|keys|/2..], None)]
  }

  function LeafIds(keys: seq<Key>, ticket: nat, stage: nat): seq<Id> {
    if |keys| <= MAX_KEYS then [New(ticket, stage, WholeLeaf)]
    else [New(ticket, stage, LeftLeaf), New(ticket, stage, RightLeaf)]
  }

  function LeafSeps(keys: seq<Key>): seq<Key> {
    if |keys| <= MAX_KEYS then [] else [keys[|keys|/2]]
  }

  function Fill(heap: Heap, id: Id, m: map<Key, Val>): Heap {
    if id in heap && heap[id].HLeaf? then
      var keys := heap[id].keys;
      heap[id := heap[id].(vals := Some(seq(|keys|, i requires 0 <= i < |keys| => if keys[i] in m then m[keys[i]] else 0)))]
    else heap
  }

  function FillAll(heap: Heap, ids: seq<Id>, m: map<Key, Val>): Heap {
    if ids == [] then heap else FillAll(Fill(heap, ids[0], m), ids[1..], m)
  }

  /** The leaves for a replaced leaf: without a worker they get their values at
      once. */
  function MakeLeaves(heap: Heap, source: HNode, slots: seq<HSlot>, r: Request, stage: nat): Option<Heap>
    requires source.HLeaf?
  {
    var keys := NewKeys(source.keys, slots, r);
    var heap' := PutLeaves(heap, keys, r.ticket, stage);
    if r.worker then Some(heap') else
    match SourceView(source, slots, r)
    case None => None
    case Some(m) => Some(FillAll(heap', LeafIds(keys, r.ticket, stage), m))
  }

  /** The common tail of the handlers: replace the child the key leads to. */
  function UpdateCow(heap: Heap, side: HSide, x: Context, j: nat, r: Request): (Heap, Context) {
    var broken := (heap, x.(op := Broken));
    if x.cur !in heap || heap[x.cur].HLeaf? then broken else
    var c := heap[x.cur];
    var i := FindCh(c.keys, r.key);
    if i >= |c.chs| || c.chs[i] !in heap then broken else
    var past := c.chs[i];
    var x' := x.(past := past, retired := x.retired + [past]);
    match heap[past]
    case HLeaf(_, keys, _) =>
      var slots := HSlotsAt(side, past);
      var ks := NewKeys(keys, slots, r);
      (match MakeLeaves(heap, heap[past], slots, r, j + 1)
       case None => broken
       case Some(heap') =>
         var ids := LeafIds(ks, r.ticket, j + 1);
         (heap'[x.cur := Replaced(c, i, LeafSeps(ks), ids)],
          x'.(op := if r.worker then Materialize else Done, idx := i, pair := |ids| == 2)))
    case HInner(_, keys, _, _) =>
      if |keys| == MAX_KEYS then
        var a, b := New(r.ticket, j + 1, LeftHalf), New(r.ticket, j + 1, RightHalf);
        (heap[a := HInner(r.ticket, keys[..B-1], [], false)][b := HInner(r.ticket, keys[B..], [], false)]
             [x.cur := Replaced(c, i, [keys[B-1]], [a, b])],
         x'.(op := SearchSplit, idx := i))
      else
        var n := New(r.ticket, j + 1, WholeNode);
        (heap[n := HInner(r.ticket, keys, [], false)][x.cur := Replaced(c, i, [], [n])],
         x'.(op := SearchDown, cur := n))
  }

  /** A child store, or insert_child; the node is then ready. */
  function Replaced(c: HNode, i: nat, seps: seq<Key>, ids: seq<Id>): HNode
    requires c.HInner? && i <= |c.keys| && i < |c.chs|
  {
    HInner(c.ver, c.keys[..i] + seps + c.keys[i..], c.chs[..i] + ids + c.chs[i+1..], true)
  }

  function SetReady(heap: Heap, id: Id): Heap {
    if id in heap && heap[id].HInner? then heap[id := heap[id].(ready := true)] else heap
  }

  function HandleSearchDown(heap: Heap, side: HSide, x: Context, j: nat, r: Request): (Heap, Context) {
    if x.cur !in heap || heap[x.cur].HLeaf? || x.past !in heap || heap[x.past].HLeaf? then (heap, x.(op := Broken)) else
    UpdateCow(heap[x.cur := heap[x.cur].(chs := heap[x.past].chs)], side, x, j, r)
  }

  function HandleSearchSplit(heap: Heap, side: HSide, x: Context, j: nat, r: Request): (Heap, Context) {
    var broken := (heap, x.(op := Broken));
    if x.cur !in heap || heap[x.cur].HLeaf? || x.past !in heap || heap[x.past].HLeaf? then broken else
    var c, p := heap[x.cur], heap[x.past];
    if x.idx >= |c.keys| || x.idx + 1 >= |c.chs| || |p.chs| != 2 * B then broken else
    var a, b := c.chs[x.idx], c.chs[x.idx + 1];
    if a !in heap || b !in heap || heap[a].HLeaf? || heap[b].HLeaf? then broken else
    var heap' := heap[a := heap[a].(chs := p.chs[..B])][b := heap[b].(chs := p.chs[B..])];
    var right := c.keys[x.idx] <= r.key;
    UpdateCow(SetReady(heap', if right then a else b), side, x.(cur := if right then b else a), j, r)
  }

  /** The structural entry. */
  function HandleInitCow(heap: Heap, side: HSide, prev: Id, r: Request): (Heap, Context) {
    var t := r.ticket;
    var x := Context(prev, prev, prev, Init, 0, false, [prev]);
    if prev !in heap then (heap, x.(op := Broken)) else
    match heap[prev]
    case HLeaf(_, keys, _) =>
      var slots := HSlotsAt(side, prev);
      var ks := NewKeys(keys, slots, r);
      var ids := LeafIds(ks, t, 0);
      var op := if r.worker then Materialize else Done;
      (match MakeLeaves(heap, heap[prev], slots, r, 0)
       case None => (heap, x.(op := Broken))
       case Some(heap') =>
         if |ids| == 1 then (heap', x.(root := ids[0], cur := ids[0], op := op))
         else
           var root := New(t, 0, Root);
           (heap'[root := HInner(t, LeafSeps(ks), ids, r.worker)], x.(root := root, cur := root, op := op, pair := true)))
    case HInner(_, keys, chs, _) =>
      if |keys| < MAX_KEYS then
        var n := New(t, 0, WholeNode);
        UpdateCow(heap[n := HInner(t, keys, chs, false)], side, x.(root := n, cur := n), 0, r)
      else if |keys| != MAX_KEYS || |chs| != 2 * B then (heap, x.(op := Broken)) else
        var root, a, b := New(t, 0, Root), New(t, 0, LeftHalf), New(t, 0, RightHalf);
        var right := keys[B-1] <= r.key;
        var heap' := heap[a := HInner(t, keys[..B-1], chs[..B], right)][b := HInner(t, keys[B..], chs[B..], !right)]
                         [root := HInner(t, [keys[B-1]], [a, b], true)];
        UpdateCow(heap', side, x.(root := root, cur := if right then b else a), 0, r)
  }

  /** The worker's part of a replacement: the values, taken from the source
      leaf and its slots once they are all published. */
  function HandleMaterialize(heap: Heap, side: HSide, x: Context, r: Request): (Heap, Context) {
    if x.past !in heap || x.cur !in heap then (heap, x.(op := Broken)) else
    match SourceView(heap[x.past], HSlotsAt(side, x.past), r)
    case None => (heap, x.(op := Broken))
    case Some(m) =>
      match heap[x.cur]
      case HLeaf(_, _, _) => (Fill(heap, x.cur, m), x.(op := Done))
      case HInner(_, _, chs, _) =>
        var n := if x.pair then 2 else 1;
        if x.idx + n <= |chs| then (FillAll(heap, chs[x.idx..x.idx + n], m), x.(op := Done)) else (heap, x.(op := Broken))
  }
}
