/** One stage at a time, the handlers build exactly the nodes the sequential
    path copy puts into the new tree. */
module StagedCowOk {
  import opened Options
  import opened Records
  import opened Nodes
  import opened BTree
  import opened BTreeCow
  import opened BTreeLevels
  import opened StagedCow

  function KidIds(s: Seg): seq<Id> {
    seq(|s.chs|, i requires 0 <= i < |s.chs| => s.chs[i].id)
  }

  /** The heap has a finished node of a tree; a leaf's values only if asked. */
  ghost predicate NodeHolds(heap: Heap, x: Tree, filled: bool) {
    && x.id in heap
    && match x
       case Leaf(id, ver, keys, vals) =>
         heap[id].HLeaf? && heap[id].ver == ver && heap[id].keys == keys && (filled ==> heap[id].vals == Some(vals))
       case Node(id, ver, kids) =>
         heap[id].HInner? && heap[id].ver == ver && heap[id].keys == kids.keys && heap[id].chs == KidIds(kids)
  }

  ghost predicate SlotsMatch(hs: seq<HSlot>, ss: seq<Slot>) {
    && |hs| == |ss|
    && (forall i :: 0 <= i < |hs| ==> hs[i].version == ss[i].version && hs[i].key == ss[i].key)
    && (forall i :: 0 <= i < |hs| && hs[i].value.Some? ==> hs[i].value.value == ss[i].value)
  }

  predicate OwnAt(id: Id, ticket: nat, stage: nat) {
    id.New? && id.ticket == ticket && id.stage == stage
  }

  /** Nothing but the nodes of one ticket's stage has changed. */
  ghost predicate SameBut(a: Heap, b: Heap, ticket: nat, stage: nat) {
    forall id :: !OwnAt(id, ticket, stage) ==> (id in b <==> id in a) && (id in a ==> b[id] == a[id])
  }

  predicate IsReady(heap: Heap, id: Id) {
    id in heap && heap[id].HInner? && heap[id].ready
  }

  ghost predicate NoneReadied(a: Heap, b: Heap) {
    forall id :: IsReady(b, id) ==> IsReady(a, id)
  }

  // ---- leaves ---------------------------------------------------------------

  lemma EraseMatch(hs: seq<HSlot>, ss: seq<Slot>, version: nat)
    requires SlotsMatch(hs, ss)
    ensures SlotKeys(Erase(hs), version) == SlotKeys(ss, version)
    ensures Published(hs) ==> Erase(hs) == ss
  {
    forall k ensures k in SlotKeys(Erase(hs), version) <==> k in SlotKeys(ss, version) {
      if k in SlotKeys(Erase(hs), version) {
        var i :| 0 <= i < |hs| && Erase(hs)[i].version <= version && Erase(hs)[i].key == k;
        assert ss[i].version <= version && ss[i].key == k;
      }
      if k in SlotKeys(ss, version) {
        var i :| 0 <= i < |ss| && ss[i].version <= version && ss[i].key == k;
        assert Erase(hs)[i].version <= version && Erase(hs)[i].key == k;
      }
    }
  }

  /** What a leaf is replaced by. */
  ghost function ViewOf(leaf: Tree, ss: seq<Slot>, r: Request): map<Key, Val>
    requires leaf.Leaf? && |leaf.keys| == |leaf.vals|
  {
    LeafView(leaf.keys, leaf.vals, ss, r.ticket)[r.key := r.val]
  }

  /** The topology of the replacement does not depend on any value. */
  lemma NewKeysOk(leaf: Tree, hs: seq<HSlot>, ss: seq<Slot>, r: Request)
    requires leaf.Leaf? && |leaf.keys| == |leaf.vals| && SlotsMatch(hs, ss)
    ensures NewKeys(leaf.keys, hs, r) == Ascending(ViewOf(leaf, ss, r).Keys)
  {
    EraseMatch(hs, ss, r.ticket);
    BaseKeys(leaf.keys, leaf.vals);
    OverlayKeys(Base(leaf.keys, leaf.vals), ss, r.ticket);
    assert KeySet(leaf.keys) + SlotKeys(ss, r.ticket) + {r.key} == ViewOf(leaf, ss, r).Keys;
  }

  lemma SourceViewOk(heap: Heap, leaf: Tree, hs: seq<HSlot>, ss: seq<Slot>, r: Request)
    requires leaf.Leaf? && |leaf.keys| == |leaf.vals| && NodeHolds(heap, leaf, true) && SlotsMatch(hs, ss) && Published(hs)
    ensures SourceView(heap[leaf.id], hs, r) == Some(ViewOf(leaf, ss, r))
  {
    EraseMatch(hs, ss, r.ticket);
  }

  /** The leaves in place, with or without their values. */
  ghost predicate LeavesIn(heap: Heap, m: map<Key, Val>, ticket: nat, stage: nat, filled: bool) {
    RunHolds(heap, LeafRun(m, ticket, stage), filled)
  }

  ghost predicate RunHolds(heap: Heap, run: Seg, filled: bool) {
    forall i :: 0 <= i < |run.chs| ==> NodeHolds(heap, run.chs[i], filled)
  }

  lemma LeafRunIds(m: map<Key, Val>, ticket: nat, stage: nat)
    ensures KidIds(LeafRun(m, ticket, stage)) == LeafIds(Ascending(m.Keys), ticket, stage)
    ensures LeafRun(m, ticket, stage).keys == LeafSeps(Ascending(m.Keys))
    ensures forall i :: 0 <= i < |LeafRun(m, ticket, stage).chs| ==> LeafRun(m, ticket, stage).chs[i].Leaf?
  {
    hide Ascending, ValuesOf;
    AscendingIn(m.Keys);
    RunOfIds(Ascending(m.Keys), ValuesOf(m, Ascending(m.Keys)), ticket, stage);
  }

  lemma RunOfIds(keys: seq<Key>, vals: seq<Val>, ticket: nat, stage: nat)
    requires |keys| == |vals|
    ensures var run := RunOf(keys, vals, ticket, stage);
            && KidIds(run) == LeafIds(keys, ticket, stage) && run.keys == LeafSeps(keys)
            && (forall i :: 0 <= i < |run.chs| ==> run.chs[i].Leaf?)
  {
  }

  lemma PutLeavesOk(heap: Heap, m: map<Key, Val>, ticket: nat, stage: nat)
    ensures var heap' := PutLeaves(heap, Ascending(m.Keys), ticket, stage);
            LeavesIn(heap', m, ticket, stage, false) && SameBut(heap, heap', ticket, stage) && NoneReadied(heap, heap')
  {
    var ks := Ascending(m.Keys);
    AscendingIn(m.Keys);
    hide Ascending, ValuesOf;
    var heap' := PutLeaves(heap, ks, ticket, stage);
    var run := LeafRun(m, ticket, stage);
    assert run == RunOf(ks, ValuesOf(m, ks), ticket, stage);
    forall i | 0 <= i < |run.chs| ensures NodeHolds(heap', run.chs[i], false) {
    }
  }

  /** Filling gives each leaf the values of its own keys. */
  lemma FillOk(heap: Heap, x: Tree, m: map<Key, Val>)
    requires x.Leaf? && NodeHolds(heap, x, false) && |x.keys| == |x.vals|
    requires forall i :: 0 <= i < |x.keys| ==> x.keys[i] in m && x.vals[i] == m[x.keys[i]]
    ensures NodeHolds(Fill(heap, x.id, m), x, true)
    ensures forall id :: id != x.id ==> (id in Fill(heap, x.id, m) <==> id in heap) && (id in heap ==> Fill(heap, x.id, m)[id] == heap[id])
    ensures NoneReadied(heap, Fill(heap, x.id, m))
  {
    var vals := Fill(heap, x.id, m)[x.id].vals.value;
    assert vals == x.vals;
  }

  lemma LeafRunValues(m: map<Key, Val>, ticket: nat, stage: nat, i: nat)
    requires i < |LeafRun(m, ticket, stage).chs|
    ensures Fillable(LeafRun(m, ticket, stage).chs[i], m, ticket, stage)
  {
    AscendingIn(m.Keys);
    hide Ascending;
  }

  lemma FillAllOk(heap: Heap, m: map<Key, Val>, ticket: nat, stage: nat)
    requires LeavesIn(heap, m, ticket, stage, false)
    ensures var heap' := FillAll(heap, KidIds(LeafRun(m, ticket, stage)), m);
            LeavesIn(heap', m, ticket, stage, true) && SameBut(heap, heap', ticket, stage) && NoneReadied(heap, heap')
  {
    hide LeafRun, Fill, FillAll, NodeHolds, Ascending;
    var run := LeafRun(m, ticket, stage);
    LeafRunValues(m, ticket, stage, 0);
    LeafRunIds(m, ticket, stage);
    if |run.chs| == 2 {
      LeafRunValues(m, ticket, stage, 1);
      assert KidIds(run)[0] != KidIds(run)[1];
      FillTwo(heap, run, m, ticket, stage);
    } else {
      FillOne(heap, run, m, ticket, stage);
    }
  }

  ghost predicate Fillable(x: Tree, m: map<Key, Val>, ticket: nat, stage: nat) {
    && x.Leaf? && |x.keys| == |x.vals| && OwnAt(x.id, ticket, stage)
    && (forall j :: 0 <= j < |x.keys| ==> x.keys[j] in m && x.vals[j] == m[x.keys[j]])
  }

  lemma FillOne(heap: Heap, run: Seg, m: map<Key, Val>, ticket: nat, stage: nat)
    requires |run.chs| == 1 && Fillable(run.chs[0], m, ticket, stage) && NodeHolds(heap, run.chs[0], false)
    ensures var heap' := FillAll(heap, KidIds(run), m);
            NodeHolds(heap', run.chs[0], true) && SameBut(heap, heap', ticket, stage) && NoneReadied(heap, heap')
  {
    hide Fill, NodeHolds;
    var ids := KidIds(run);
    assert ids == [run.chs[0].id];
    FillOk(heap, run.chs[0], m);
    assert FillAll(Fill(heap, ids[0], m), [], m) == Fill(heap, ids[0], m);
  }

  lemma FillTwo(heap: Heap, run: Seg, m: map<Key, Val>, ticket: nat, stage: nat)
    requires |run.chs| == 2 && Fillable(run.chs[0], m, ticket, stage) && Fillable(run.chs[1], m, ticket, stage)
    requires NodeHolds(heap, run.chs[0], false) && NodeHolds(heap, run.chs[1], false) && run.chs[0].id != run.chs[1].id
    ensures var heap' := FillAll(heap, KidIds(run), m);
            NodeHolds(heap', run.chs[0], true) && NodeHolds(heap', run.chs[1], true)
            && SameBut(heap, heap', ticket, stage) && NoneReadied(heap, heap')
  {
    hide Fill;
    var a, b := run.chs[0], run.chs[1];
    var ids := KidIds(run);
    assert ids == [a.id, b.id] && ids[1..] == [b.id] && ids[1..][1..] == [];
    FillOk(heap, a, m);
    var heap1 := Fill(heap, a.id, m);
    assert NodeHolds(heap1, b, false);
    FillOk(heap1, b, m);
    var heap2 := Fill(heap1, b.id, m);
    assert FillAll(heap2, [], m) == heap2;
    assert FillAll(heap1, [b.id], m) == heap2;
  }

  lemma HoldsLeaf(heap: Heap, leaf: Tree, filled: bool)
    requires leaf.Leaf? && NodeHolds(heap, leaf, filled)
    ensures leaf.id in heap && heap[leaf.id].HLeaf? && heap[leaf.id].keys == leaf.keys
  {
  }

  lemma MakeLeavesOk(heap: Heap, leaf: Tree, hs: seq<HSlot>, side: Side, r: Request, stage: nat)
    requires leaf.Leaf? && |leaf.keys| == |leaf.vals| && SlotsMatch(hs, SlotsAt(side, leaf.id))
    requires leaf.id in heap && heap[leaf.id].HLeaf? && NodeHolds(heap, leaf, !r.worker)
    requires !r.worker ==> Published(hs)
    ensures var run := ReplaceLeaf(leaf, side, r.ticket, stage, r.key, r.val);
            var made := MakeLeaves(heap, heap[leaf.id], hs, r, stage);
            && made.Some? && RunHolds(made.value, run, !r.worker) && SameBut(heap, made.value, r.ticket, stage)
            && NoneReadied(heap, made.value)
            && KidIds(run) == LeafIds(NewKeys(leaf.keys, hs, r), r.ticket, stage)
            && run.keys == LeafSeps(NewKeys(leaf.keys, hs, r))
  {
    hide LeafRun, Ascending, NewKeys, LeafView, SourceView, PutLeaves, FillAll, LeafIds, LeafSeps, RunHolds, NodeHolds, SlotsMatch;
    var m := ViewOf(leaf, SlotsAt(side, leaf.id), r);
    HoldsLeaf(heap, leaf, !r.worker);
    NewKeysOk(leaf, hs, SlotsAt(side, leaf.id), r);
    LeafRunIds(m, r.ticket, stage);
    PutLeavesOk(heap, m, r.ticket, stage);
    if !r.worker {
      SourceViewOk(heap, leaf, hs, SlotsAt(side, leaf.id), r);
      FillAllOk(PutLeaves(heap, Ascending(m.Keys), r.ticket, stage), m, r.ticket, stage);
    }
  }

  // ---- the common tail ------------------------------------------------------

  /** Where a ticket stands when the next handler takes over: the headers it
      exposed, and the old node to copy from. */
  ghost predicate Cursor(heap: Heap, x: Context, ticket: nat, stage: nat, past: Tree) {
    && past.Node? && x.past == past.id && x.cur.New? && x.cur.ticket == ticket
    && if |past.kids.keys| == MAX_KEYS then
         var a, b := New(ticket, stage, LeftHalf), New(ticket, stage, RightHalf);
         && x.op == SearchSplit && x.cur in heap && heap[x.cur].HInner? && !OwnAt(x.cur, ticket, stage)
         && x.idx < |heap[x.cur].keys| && x.idx + 1 < |heap[x.cur].chs|
         && heap[x.cur].keys[x.idx] == past.kids.keys[B-1]
         && heap[x.cur].chs[x.idx] == a && heap[x.cur].chs[x.idx + 1] == b
         && a in heap && heap[a] == HInner(ticket, past.kids.keys[..B-1], [], false)
         && b in heap && heap[b] == HInner(ticket, past.kids.keys[B..], [], false)
       else
         && x.op == SearchDown && x.cur == New(ticket, stage, WholeNode)
         && x.cur in heap && heap[x.cur] == HInner(ticket, past.kids.keys, [], false)
  }

  /** What one call of the tail has done. */
  ghost predicate Updated(heap: Heap, x: Context, heap': Heap, x': Context, kids: Seg, next: Tree, h: nat, side: Side, j: nat, r: Request)
    requires Shaped(next, h)
  {
    var grown := Grow(kids, h, side, r.ticket, j, r.key, r.val);
    && x'.op != Broken && x'.past == next.id && x'.root == x.root && x'.retired == x.retired + [next.id]
    && x.cur in heap && heap[x.cur].HInner? && x.cur in heap'
    && heap'[x.cur] == HInner(heap[x.cur].ver, grown.keys, KidIds(grown), true)
    && (next.Leaf? ==>
          && RunHolds(heap', RunFor(next, h, side, r.ticket, j + 1, r.key, r.val), !r.worker)
          && x'.cur == x.cur && LeafPlace(heap', x', RunFor(next, h, side, r.ticket, j + 1, r.key, r.val), r))
    && (next.Node? ==> Cursor(heap', x', r.ticket, j + 1, next))
    && (forall id :: id != x.cur && !OwnAt(id, r.ticket, j + 1) ==> (id in heap' <==> id in heap) && (id in heap ==> heap'[id] == heap[id]))
    && (forall id :: IsReady(heap', id) ==> id == x.cur || IsReady(heap, id))
  }

  /** Where the worker finds the leaves to fill. */
  ghost predicate LeafPlace(heap: Heap, x: Context, run: Seg, r: Request) {
    && x.op == (if r.worker then Materialize else Done) && x.pair == (|run.chs| == 2)
    && x.cur.New? && x.cur.ticket == r.ticket && x.cur in heap && heap[x.cur].HInner? && x.idx + |run.chs| <= |heap[x.cur].chs|
    && heap[x.cur].chs[x.idx..x.idx + |run.chs|] == KidIds(run)
  }

  /** Preconditions shared by all uses of the tail. */
  ghost predicate TailReady(heap: Heap, hside: HSide, x: Context, kids: Seg, next: Tree, h: nat, side: Side, r: Request) {
    && |kids.chs| == |kids.keys| + 1
    && next == kids.chs[FindCh(kids.keys, r.key)] && Shaped(next, h)
    && x.cur.New? && x.cur.ticket == r.ticket
    && x.cur in heap && heap[x.cur].HInner? && heap[x.cur].keys == kids.keys && heap[x.cur].chs == KidIds(kids)
    && x.cur != next.id && !(next.id.New? && next.id.ticket == r.ticket)
    && (next.Leaf? ==> SlotsMatch(HSlotsAt(hside, next.id), SlotsAt(side, next.id)))
    && (next.Leaf? && !r.worker ==> Published(HSlotsAt(hside, next.id)))
    && NodeHolds(heap, next, next.Leaf? && !r.worker)
  }

  lemma SpliceIds(s: Seg, i: nat, run: Seg)
    requires i < |s.chs| == |s.keys| + 1 && |run.chs| == |run.keys| + 1
    ensures KidIds(Splice(s, i, run)) == KidIds(s)[..i] + KidIds(run) + KidIds(s)[i+1..]
    ensures Splice(s, i, run).keys == s.keys[..i] + run.keys + s.keys[i..]
  {
    SpliceSlices(s, i, run);
  }

  /** The state the tail leaves behind when it replaces a leaf. */
  lemma TailLeafStep(heap: Heap, hside: HSide, x: Context, kids: Seg, next: Tree, h: nat, side: Side, j: nat, r: Request, made: Heap)
    requires TailReady(heap, hside, x, kids, next, h, side, r) && next.Leaf?
    requires var run := ReplaceLeaf(next, side, r.ticket, j + 1, r.key, r.val);
             && MakeLeaves(heap, heap[next.id], HSlotsAt(hside, next.id), r, j + 1) == Some(made)
             && KidIds(run) == LeafIds(NewKeys(next.keys, HSlotsAt(hside, next.id), r), r.ticket, j + 1)
             && run.keys == LeafSeps(NewKeys(next.keys, HSlotsAt(hside, next.id), r))
    ensures var i := FindCh(kids.keys, r.key);
            var run := ReplaceLeaf(next, side, r.ticket, j + 1, r.key, r.val);
            && i < |heap[x.cur].chs|
            && UpdateCow(heap, hside, x, j, r)
               == (made[x.cur := Replaced(heap[x.cur], i, run.keys, KidIds(run))],
                   x.(past := next.id, retired := x.retired + [next.id], op := if r.worker then Materialize else Done, idx := i, pair := |run.chs| == 2))
  {
    hide ReplaceLeaf, MakeLeaves, NewKeys, LeafIds, LeafSeps;
    var i := FindCh(kids.keys, r.key);
    assert heap[x.cur].chs[i] == next.id;
    assert |KidIds(ReplaceLeaf(next, side, r.ticket, j + 1, r.key, r.val))| == |ReplaceLeaf(next, side, r.ticket, j + 1, r.key, r.val).chs|;
  }

  lemma TailLeaf(heap: Heap, hside: HSide, x: Context, kids: Seg, next: Tree, h: nat, side: Side, j: nat, r: Request)
    requires TailReady(heap, hside, x, kids, next, h, side, r) && next.Leaf? && !OwnAt(x.cur, r.ticket, j + 1)
    ensures var (heap', x') := UpdateCow(heap, hside, x, j, r);
            Updated(heap, x, heap', x', kids, next, h, side, j, r)
  {
    hide ReplaceLeaf, Grow, Splice, MakeLeaves, NewKeys, LeafIds, LeafSeps, UpdateCow;
    var i := FindCh(kids.keys, r.key);
    var hs := HSlotsAt(hside, next.id);
    var run := ReplaceLeaf(next, side, r.ticket, j + 1, r.key, r.val);
    MakeLeavesOk(heap, next, hs, side, r, j + 1);
    GrowIsSplice(kids, h, side, r.ticket, j, r.key, r.val);
    SpliceIds(kids, i, run);
    var made := MakeLeaves(heap, heap[next.id], hs, r, j + 1).value;
    TailLeafStep(heap, hside, x, kids, next, h, side, j, r, made);
    var heap' := made[x.cur := Replaced(heap[x.cur], i, run.keys, KidIds(run))];
    forall y | 0 <= y < |run.chs| ensures NodeHolds(heap', run.chs[y], !r.worker) {
      RunIds(next, side, r.ticket, j + 1, r.key, r.val, y);
      assert NodeHolds(made, run.chs[y], !r.worker);
    }
    assert heap'[x.cur].chs[i..i + |run.chs|] == KidIds(run);
  }

  lemma RunIds(t: Tree, side: Side, ticket: nat, stage: nat, key: Key, val: Val, y: nat)
    requires t.Leaf? && |t.keys| == |t.vals| && y < |ReplaceLeaf(t, side, ticket, stage, key, val).chs|
    ensures OwnAt(ReplaceLeaf(t, side, ticket, stage, key, val).chs[y].id, ticket, stage)
  {
    hide LeafView, Ascending, ValuesOf;
  }

  lemma TailNodeStep(heap: Heap, hside: HSide, x: Context, kids: Seg, next: Tree, h: nat, side: Side, j: nat, r: Request)
    requires TailReady(heap, hside, x, kids, next, h, side, r) && next.Node?
    ensures var i, keys := FindCh(kids.keys, r.key), next.kids.keys;
            var a, b, n := New(r.ticket, j + 1, LeftHalf), New(r.ticket, j + 1, RightHalf), New(r.ticket, j + 1, WholeNode);
            var x' := x.(past := next.id, retired := x.retired + [next.id]);
            && i < |heap[x.cur].chs|
            && UpdateCow(heap, hside, x, j, r)
               == if |keys| == MAX_KEYS then
                    (heap[a := HInner(r.ticket, keys[..B-1], [], false)][b := HInner(r.ticket, keys[B..], [], false)]
                         [x.cur := Replaced(heap[x.cur], i, [keys[B-1]], [a, b])],
                     x'.(op := SearchSplit, idx := i))
                  else
                    (heap[n := HInner(r.ticket, keys, [], false)][x.cur := Replaced(heap[x.cur], i, [], [n])],
                     x'.(op := SearchDown, cur := n))
  {
    assert heap[x.cur].chs[FindCh(kids.keys, r.key)] == next.id;
  }

  lemma ReplacedAt(c: HNode, i: nat, sep: Key, a: Id, b: Id)
    requires c.HInner? && i <= |c.keys| && i < |c.chs|
    ensures var r := Replaced(c, i, [sep], [a, b]);
            r.HInner? && i + 1 < |r.chs| && i < |r.keys| && r.chs[i] == a && r.chs[i + 1] == b && r.keys[i] == sep
  {
  }

  lemma TailSplit(heap: Heap, hside: HSide, x: Context, kids: Seg, next: Tree, h: nat, side: Side, j: nat, r: Request)
    requires TailReady(heap, hside, x, kids, next, h, side, r) && next.Node? && |next.kids.keys| == MAX_KEYS
    requires !OwnAt(x.cur, r.ticket, j + 1)
    ensures var (heap', x') := UpdateCow(heap, hside, x, j, r);
            Updated(heap, x, heap', x', kids, next, h, side, j, r)
  {
    hide UpdateCow, Grow, Splice, Halves, RunHolds, NodeHolds, LeafPlace;
    TailNodeStep(heap, hside, x, kids, next, h, side, j, r);
    var i := FindCh(kids.keys, r.key);
    var a, b := New(r.ticket, j + 1, LeftHalf), New(r.ticket, j + 1, RightHalf);
    GrowIsSplice(kids, h, side, r.ticket, j, r.key, r.val);
    var run := Halves(next.kids, h - 1, side, r.ticket, j + 1, r.key, r.val);
    HalvesIds(next.kids, h - 1, side, r.ticket, j + 1, r.key, r.val);
    SpliceIds(kids, i, run);
    ReplacedAt(heap[x.cur], i, next.kids.keys[B-1], a, b);
  }

  lemma HalvesIds(kids: Seg, h: nat, side: Side, ticket: nat, stage: nat, key: Key, val: Val)
    requires |kids.keys| == MAX_KEYS && |kids.chs| == |kids.keys| + 1
    ensures var run := Halves(kids, h, side, ticket, stage, key, val);
            run.keys == [kids.keys[B-1]] && KidIds(run) == [New(ticket, stage, LeftHalf), New(ticket, stage, RightHalf)]
  {
    hide Grow;
  }

  lemma TailCopy(heap: Heap, hside: HSide, x: Context, kids: Seg, next: Tree, h: nat, side: Side, j: nat, r: Request)
    requires TailReady(heap, hside, x, kids, next, h, side, r) && next.Node? && |next.kids.keys| < MAX_KEYS
    requires !OwnAt(x.cur, r.ticket, j + 1)
    ensures var (heap', x') := UpdateCow(heap, hside, x, j, r);
            Updated(heap, x, heap', x', kids, next, h, side, j, r)
  {
    hide UpdateCow, Grow, Splice, Copy, RunHolds, NodeHolds, LeafPlace;
    TailNodeStep(heap, hside, x, kids, next, h, side, j, r);
    var i := FindCh(kids.keys, r.key);
    GrowIsSplice(kids, h, side, r.ticket, j, r.key, r.val);
    var run := One(Copy(next, h - 1, side, r.ticket, j + 1, r.key, r.val));
    CopyIds(next, h - 1, side, r.ticket, j + 1, r.key, r.val);
    SpliceIds(kids, i, run);
  }

  lemma CopyIds(t: Tree, h: nat, side: Side, ticket: nat, stage: nat, key: Key, val: Val)
    requires t.Node?
    ensures var run := One(Copy(t, h, side, ticket, stage, key, val));
            run.keys == [] && KidIds(run) == [New(ticket, stage, WholeNode)]
  {
    hide Grow;
  }

  /** The tail replaces the child in the node it stands at, and either leaves
      the finished leaves behind or exposes the next headers. */
  lemma TailOk(heap: Heap, hside: HSide, x: Context, kids: Seg, next: Tree, h: nat, side: Side, j: nat, r: Request)
    requires TailReady(heap, hside, x, kids, next, h, side, r) && !OwnAt(x.cur, r.ticket, j + 1)
    ensures var (heap', x') := UpdateCow(heap, hside, x, j, r);
            Updated(heap, x, heap', x', kids, next, h, side, j, r)
  {
    hide Updated, UpdateCow, TailReady;
    if next.Leaf? {
      TailLeaf(heap, hside, x, kids, next, h, side, j, r);
    } else if |next.kids.keys| == MAX_KEYS {
      TailSplit(heap, hside, x, kids, next, h, side, j, r);
    } else {
      TailIsShaped(heap, hside, x, kids, next, h, side, r);
      TailCopy(heap, hside, x, kids, next, h, side, j, r);
    }
  }

  lemma TailIsShaped(heap: Heap, hside: HSide, x: Context, kids: Seg, next: Tree, h: nat, side: Side, r: Request)
    requires TailReady(heap, hside, x, kids, next, h, side, r) && next.Node?
    ensures |next.kids.keys| <= MAX_KEYS
  {
  }

  // ---- whole stages ---------------------------------------------------------

  /** A stage has finished its level of the new tree and prepared the next. */
  ghost predicate StageDone(heap: Heap, x: Context, heap': Heap, x': Context, past: Tree, h: nat, side: Side, j: nat, r: Request)
    requires Shaped(past, h + 1) && Shaped(Toward(past, r.key), h)
  {
    var next := Toward(past, r.key);
    && x'.op != Broken && x'.past == next.id && x'.retired == x.retired + [next.id]
    && RunHolds(heap', RunFor(past, h + 1, side, r.ticket, j, r.key, r.val), true)
    && (next.Leaf? ==>
          && RunHolds(heap', RunFor(next, h, side, r.ticket, j + 1, r.key, r.val), !r.worker)
          && LeafPlace(heap', x', RunFor(next, h, side, r.ticket, j + 1, r.key, r.val), r))
    && (next.Node? ==> Cursor(heap', x', r.ticket, j + 1, next))
    && (forall id :: !OwnAt(id, r.ticket, j) && !OwnAt(id, r.ticket, j + 1) ==> (id in heap' <==> id in heap) && (id in heap ==> heap'[id] == heap[id]))
    && (forall id :: IsReady(heap', id) ==> OwnAt(id, r.ticket, j) || IsReady(heap, id))
  }

  /** What a stage needs of the previous tree: the node to copy and the one
      below it are finished, and neither belongs to the ticket. */
  ghost predicate StageReady(heap: Heap, hside: HSide, past: Tree, h: nat, side: Side, r: Request) {
    var next := Toward(past, r.key);
    && Shaped(past, h + 1) && Shaped(next, h)
    && !(past.id.New? && past.id.ticket == r.ticket) && !(next.id.New? && next.id.ticket == r.ticket)
    && NodeHolds(heap, past, true) && NodeHolds(heap, next, next.Leaf? && !r.worker)
    && (next.Leaf? ==> SlotsMatch(HSlotsAt(hside, next.id), SlotsAt(side, next.id)))
    && (next.Leaf? && !r.worker ==> Published(HSlotsAt(hside, next.id)))
  }

  lemma TowardIs(t: Tree, key: Key)
    requires t.Node? && FindCh(t.kids.keys, key) < |t.kids.chs|
    ensures Toward(t, key) == t.kids.chs[FindCh(t.kids.keys, key)]
  {
    var kid := t.kids.chs[FindCh(t.kids.keys, key)];
    assert PathNode(kid, key, 0) == kid;
  }

  lemma CopyHolds(heap: Heap, past: Tree, h: nat, side: Side, j: nat, r: Request)
    requires Shaped(past, h + 1) && |past.kids.keys| < MAX_KEYS
    requires var g := Grow(past.kids, h, side, r.ticket, j, r.key, r.val);
             var id := New(r.ticket, j, WholeNode);
             id in heap && heap[id] == HInner(r.ticket, g.keys, KidIds(g), true)
    ensures RunHolds(heap, RunFor(past, h + 1, side, r.ticket, j, r.key, r.val), true)
  {
    hide Grow;
  }

  lemma HalvesHold(heap: Heap, past: Tree, h: nat, side: Side, j: nat, r: Request)
    requires Shaped(past, h + 1) && |past.kids.keys| == MAX_KEYS
    requires var right := past.kids.keys[B-1] <= r.key;
             var chosen, other := New(r.ticket, j, if right then RightHalf else LeftHalf), New(r.ticket, j, if right then LeftHalf else RightHalf);
             var g := Grow(HalfFor(past.kids, r.key), h, side, r.ticket, j, r.key, r.val);
             var o := if right then Before(past.kids, B-1) else After(past.kids, B-1);
             && chosen in heap && heap[chosen] == HInner(r.ticket, g.keys, KidIds(g), true)
             && other in heap && heap[other] == HInner(r.ticket, o.keys, KidIds(o), true)
    ensures RunHolds(heap, RunFor(past, h + 1, side, r.ticket, j, r.key, r.val), true)
  {
    hide Grow;
    var run := RunFor(past, h + 1, side, r.ticket, j, r.key, r.val);
    assert |run.chs| == 2;
  }

  lemma HalfIds(kids: Seg)
    requires |kids.keys| == MAX_KEYS && |kids.chs| == |kids.keys| + 1
    ensures KidIds(Before(kids, B-1)) == KidIds(kids)[..B] && KidIds(After(kids, B-1)) == KidIds(kids)[B..]
  {
  }

  /** A stage may first prepare nodes of its own level. */
  lemma StageFrom(heap: Heap, x: Context, heap1: Heap, x1: Context, heap': Heap, x': Context, past: Tree, h: nat, side: Side, j: nat, r: Request)
    requires Shaped(past, h + 1) && Shaped(Toward(past, r.key), h)
    requires StageDone(heap1, x1, heap', x', past, h, side, j, r) && x1.retired == x.retired
    requires SameBut(heap, heap1, r.ticket, j) && (forall id :: IsReady(heap1, id) ==> OwnAt(id, r.ticket, j) || IsReady(heap, id))
    ensures StageDone(heap, x, heap', x', past, h, side, j, r)
  {
    hide RunFor, RunHolds, Cursor, LeafPlace, PathNode;
  }

  lemma StageKept(heap: Heap, heap1: Heap, hside: HSide, past: Tree, h: nat, side: Side, j: nat, r: Request)
    requires StageReady(heap, hside, past, h, side, r) && SameBut(heap, heap1, r.ticket, j)
    ensures StageReady(heap1, hside, past, h, side, r)
  {
    hide PathNode;
  }

  /** The stage of a node that is copied whole. */
  lemma CopyStage(heap: Heap, hside: HSide, x: Context, past: Tree, h: nat, side: Side, j: nat, r: Request)
    requires StageReady(heap, hside, past, h, side, r) && |past.kids.keys| < MAX_KEYS
    requires x.cur == New(r.ticket, j, WholeNode) && x.cur in heap && heap[x.cur] == HInner(r.ticket, past.kids.keys, KidIds(past.kids), false)
    ensures var (heap', x') := UpdateCow(heap, hside, x, j, r);
            StageDone(heap, x, heap', x', past, h, side, j, r) && x'.root == x.root
  {
    hide Grow, UpdateCow, LeafPlace, ReplaceLeaf, PathNode, RunHolds, RunFor;
    var next := Toward(past, r.key);
    TowardIs(past, r.key);
    TailOk(heap, hside, x, past.kids, next, h, side, j, r);
    var (heap', x') := UpdateCow(heap, hside, x, j, r);
    CopyHolds(heap', past, h, side, j, r);
  }

  /** The stage of a node that is split in two. */
  lemma HalfStage(heap: Heap, hside: HSide, x: Context, past: Tree, h: nat, side: Side, j: nat, r: Request)
    requires StageReady(heap, hside, past, h, side, r) && |past.kids.keys| == MAX_KEYS
    requires var right := past.kids.keys[B-1] <= r.key;
             var other := New(r.ticket, j, if right then LeftHalf else RightHalf);
             var half := HalfFor(past.kids, r.key);
             var o := if right then Before(past.kids, B-1) else After(past.kids, B-1);
             && x.cur == New(r.ticket, j, if right then RightHalf else LeftHalf)
             && x.cur in heap && heap[x.cur] == HInner(r.ticket, half.keys, KidIds(half), false)
             && other in heap && heap[other] == HInner(r.ticket, o.keys, KidIds(o), true)
    ensures var (heap', x') := UpdateCow(heap, hside, x, j, r);
            StageDone(heap, x, heap', x', past, h, side, j, r) && x'.root == x.root
  {
    hide Grow, UpdateCow, LeafPlace, ReplaceLeaf, PathNode, RunHolds, RunFor;
    var next := Toward(past, r.key);
    HalfToward(past, r.key);
    var half := HalfFor(past.kids, r.key);
    TailOk(heap, hside, x, half, next, h, side, j, r);
    var (heap', x') := UpdateCow(heap, hside, x, j, r);
    HalvesHold(heap', past, h, side, j, r);
  }

  lemma DownStage(heap: Heap, hside: HSide, x: Context, past: Tree, h: nat, side: Side, j: nat, r: Request)
    requires StageReady(heap, hside, past, h, side, r) && |past.kids.keys| < MAX_KEYS && Cursor(heap, x, r.ticket, j, past)
    ensures var (heap', x') := HandleSearchDown(heap, hside, x, j, r);
            StageDone(heap, x, heap', x', past, h, side, j, r) && x'.root == x.root
  {
    hide UpdateCow, StageDone, StageReady;
    PastHolds(heap, hside, past, h, side, r);
    var heap1 := heap[x.cur := heap[x.cur].(chs := heap[x.past].chs)];
    StageKept(heap, heap1, hside, past, h, side, j, r);
    CopyStage(heap1, hside, x, past, h, side, j, r);
    var (heap', x') := UpdateCow(heap1, hside, x, j, r);
    StageFrom(heap, x, heap1, x, heap', x', past, h, side, j, r);
  }

  lemma PastHolds(heap: Heap, hside: HSide, past: Tree, h: nat, side: Side, r: Request)
    requires StageReady(heap, hside, past, h, side, r)
    ensures NodeHolds(heap, past, true) && past.Node? && |past.kids.chs| == |past.kids.keys| + 1 && |past.kids.keys| >= 1
    ensures |past.kids.keys| <= MAX_KEYS && !(past.id.New? && past.id.ticket == r.ticket)
    ensures Shaped(past, h + 1) && Shaped(Toward(past, r.key), h)
  {
  }

  lemma SplitStage(heap: Heap, hside: HSide, x: Context, past: Tree, h: nat, side: Side, j: nat, r: Request)
    requires StageReady(heap, hside, past, h, side, r) && |past.kids.keys| == MAX_KEYS && Cursor(heap, x, r.ticket, j, past)
    ensures var (heap', x') := HandleSearchSplit(heap, hside, x, j, r);
            StageDone(heap, x, heap', x', past, h, side, j, r) && x'.root == x.root
  {
    hide UpdateCow, StageDone, StageReady, Toward;
    PastHolds(heap, hside, past, h, side, r);
    HalfIds(past.kids);
    var c, p := heap[x.cur], heap[x.past];
    var a, b := c.chs[x.idx], c.chs[x.idx + 1];
    var right := c.keys[x.idx] <= r.key;
    var heap1 := SetReady(heap[a := heap[a].(chs := p.chs[..B])][b := heap[b].(chs := p.chs[B..])], if right then a else b);
    var x1 := x.(cur := if right then b else a);
    StageKept(heap, heap1, hside, past, h, side, j, r);
    HalfStage(heap1, hside, x1, past, h, side, j, r);
    var (heap', x') := UpdateCow(heap1, hside, x1, j, r);
    StageFrom(heap, x, heap1, x1, heap', x', past, h, side, j, r);
  }

  // ---- the entry stage ------------------------------------------------------

  lemma InitCopy(heap: Heap, hside: HSide, past: Tree, h: nat, side: Side, r: Request)
    requires StageReady(heap, hside, past, h, side, r) && |past.kids.keys| < MAX_KEYS
    ensures var (heap', x') := HandleInitCow(heap, hside, past.id, r);
            var x := Context(past.id, past.id, past.id, Init, 0, false, [past.id]);
            StageDone(heap, x, heap', x', past, h, side, 0, r) && x'.root == New(r.ticket, 0, WholeNode)
  {
    hide UpdateCow, StageDone, StageReady;
    PastHolds(heap, hside, past, h, side, r);
    var n := New(r.ticket, 0, WholeNode);
    var x := Context(past.id, past.id, past.id, Init, 0, false, [past.id]);
    var x1 := x.(root := n, cur := n);
    var heap1 := heap[n := HInner(r.ticket, past.kids.keys, KidIds(past.kids), false)];
    StageKept(heap, heap1, hside, past, h, side, 0, r);
    CopyStage(heap1, hside, x1, past, h, side, 0, r);
    var (heap', x') := UpdateCow(heap1, hside, x1, 0, r);
    StageFrom(heap, x, heap1, x1, heap', x', past, h, side, 0, r);
  }

  lemma InitSplit(heap: Heap, hside: HSide, past: Tree, h: nat, side: Side, r: Request)
    requires StageReady(heap, hside, past, h, side, r) && |past.kids.keys| == MAX_KEYS
    ensures var (heap', x') := HandleInitCow(heap, hside, past.id, r);
            var x := Context(past.id, past.id, past.id, Init, 0, false, [past.id]);
            var root := New(r.ticket, 0, Root);
            && StageDone(heap, x, heap', x', past, h, side, 0, r) && x'.root == root
            && root in heap' && heap'[root] == HInner(r.ticket, [past.kids.keys[B-1]], [New(r.ticket, 0, LeftHalf), New(r.ticket, 0, RightHalf)], true)
  {
    hide UpdateCow, StageReady, RunFor, RunHolds, Cursor, LeafPlace, Toward;
    PastHolds(heap, hside, past, h, side, r);
    HalfIds(past.kids);
    var keys, chs := past.kids.keys, KidIds(past.kids);
    var root, a, b := New(r.ticket, 0, Root), New(r.ticket, 0, LeftHalf), New(r.ticket, 0, RightHalf);
    var right := keys[B-1] <= r.key;
    var x := Context(past.id, past.id, past.id, Init, 0, false, [past.id]);
    var x1 := x.(root := root, cur := if right then b else a);
    var heap1 := heap[a := HInner(r.ticket, keys[..B-1], chs[..B], right)][b := HInner(r.ticket, keys[B..], chs[B..], !right)]
                     [root := HInner(r.ticket, [keys[B-1]], [a, b], true)];
    StageKept(heap, heap1, hside, past, h, side, 0, r);
    HalfStage(heap1, hside, x1, past, h, side, 0, r);
    TailKeeps(heap1, hside, x1, 0, r, root);
    var (heap', x') := UpdateCow(heap1, hside, x1, 0, r);
    StageFrom(heap, x, heap1, x1, heap', x', past, h, side, 0, r);
  }

  /** The tail leaves the root of a root split alone. */
  lemma TailKeeps(heap: Heap, hside: HSide, x: Context, j: nat, r: Request, id: Id)
    requires id != x.cur && !OwnAt(id, r.ticket, j + 1) && id in heap
    ensures id in UpdateCow(heap, hside, x, j, r).0 && UpdateCow(heap, hside, x, j, r).0[id] == heap[id]
  {
    hide NewKeys, SourceView;
    if x.cur in heap && heap[x.cur].HInner? {
      var c := heap[x.cur];
      var i := FindCh(c.keys, r.key);
      if i < |c.chs| && c.chs[i] in heap && heap[c.chs[i]].HLeaf? {
        var past := c.chs[i];
        MakeKeeps(heap, heap[past], HSlotsAt(hside, past), r, j + 1, id);
      }
    }
  }

  lemma MakeKeeps(heap: Heap, source: HNode, slots: seq<HSlot>, r: Request, stage: nat, id: Id)
    requires source.HLeaf? && !OwnAt(id, r.ticket, stage) && id in heap
    ensures var made := MakeLeaves(heap, source, slots, r, stage); made.Some? ==> id in made.value && made.value[id] == heap[id]
  {
    var keys := NewKeys(source.keys, slots, r);
    hide NewKeys, SourceView, FillAll;
    var made := MakeLeaves(heap, source, slots, r, stage);
    if made.Some? && !r.worker {
      FillAllKeeps(PutLeaves(heap, keys, r.ticket, stage), LeafIds(keys, r.ticket, stage), SourceView(source, slots, r).value, id);
    }
  }

  lemma {:induction false} FillAllKeeps(heap: Heap, ids: seq<Id>, m: map<Key, Val>, id: Id)
    requires id !in ids && id in heap
    ensures id in FillAll(heap, ids, m) && FillAll(heap, ids, m)[id] == heap[id]
    decreases |ids|
  {
    if ids != [] {
      FillAllKeeps(Fill(heap, ids[0], m), ids[1..], m, id);
    }
  }

  lemma InitLeaf(heap: Heap, hside: HSide, past: Tree, side: Side, r: Request)
    requires past.Leaf? && |past.keys| == |past.vals| && !(past.id.New? && past.id.ticket == r.ticket)
    requires NodeHolds(heap, past, !r.worker) && SlotsMatch(HSlotsAt(hside, past.id), SlotsAt(side, past.id))
    requires !r.worker ==> Published(HSlotsAt(hside, past.id))
    ensures var (heap', x') := HandleInitCow(heap, hside, past.id, r);
            var run := ReplaceLeaf(past, side, r.ticket, 0, r.key, r.val);
            var c := Wrap(run, r.ticket);
            && x'.op == (if r.worker then Materialize else Done) && x'.retired == [past.id] && x'.past == past.id && x'.root == c.id
            && RunHolds(heap', run, !r.worker) && NodeHolds(heap', c, !r.worker)
            && x'.cur == c.id && x'.idx == 0 && x'.pair == (|run.chs| == 2)
            && SameBut(heap, heap', r.ticket, 0) && (forall id :: IsReady(heap', id) ==> OwnAt(id, r.ticket, 0) || IsReady(heap, id))
  {
    hide ReplaceLeaf, MakeLeaves, NewKeys, LeafIds, LeafSeps;
    var hs := HSlotsAt(hside, past.id);
    var run := ReplaceLeaf(past, side, r.ticket, 0, r.key, r.val);
    MakeLeavesOk(heap, past, hs, side, r, 0);
    var made := MakeLeaves(heap, heap[past.id], hs, r, 0).value;
    var (heap', x') := HandleInitCow(heap, hside, past.id, r);
    assert |KidIds(run)| == |run.chs|;
    assert |run.chs| == 1 ==> KidIds(run) == [run.chs[0].id] && heap' == made;
    forall y | 0 <= y < |run.chs| ensures NodeHolds(heap', run.chs[y], !r.worker) {
      RunIds(past, side, r.ticket, 0, r.key, r.val, y);
      LeafRoles(past, side, r.ticket, 0, r.key, r.val, y);
      assert NodeHolds(made, run.chs[y], !r.worker);
    }
  }

  lemma LeafRoles(t: Tree, side: Side, ticket: nat, stage: nat, key: Key, val: Val, y: nat)
    requires t.Leaf? && |t.keys| == |t.vals| && y < |ReplaceLeaf(t, side, ticket, stage, key, val).chs|
    ensures var id := ReplaceLeaf(t, side, ticket, stage, key, val).chs[y].id;
            id.New? && (id.role == WholeLeaf || id.role == LeftLeaf || id.role == RightLeaf)
  {
    hide LeafView, Ascending, ValuesOf;
  }
}
