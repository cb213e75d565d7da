/** Merging a wave's changed keys into a radix tree in one recursive pass. */
module ArtMerge {
  import opened Options
  import opened Records
  import opened Nodes
  import opened Art
  import opened ArtCow

  /** A changed key, with the leaf it replaces if it had one. */
  datatype Change = Change(route: Word, leaf: Option<Id>, ticket: nat, value: Val)

  /** What a merge returns: the node, how many nodes it has allocated, what it
      replaced, and whether no exception was raised. */
  datatype Merged = Merged(t: Option<Node>, next: nat, retired: seq<Id>, ok: bool)

  datatype Kids = Kids(keys: seq<Byte>, chs: seq<Node>, next: nat, retired: seq<Id>, ok: bool)

  /** A node can be moved to a depth inside its prefix. */
  predicate InRange(t: Node, depth: nat) {
    (t.Leaf? ==> t.ofs <= 8) && t.ofs <= depth <= t.ofs + |NodePrefix(t)| <= 8
  }

  /** clone: a private copy that starts at the given depth; a leaf keeps its
      newest value. */
  function Clone(t: Node, side: Histories, depth: nat, version: nat, n: nat): Node
    requires InRange(t, depth)
  {
    match t
    case Leaf(id, _, ofs, key, val) => Leaf(New(version, n, WholeNode), version, depth, key, Read(val, HistoryOf(side, id), version))
    case Branch(_, _, kind, ofs, pfx, keys, chs) => Branch(New(version, n, WholeNode), version, kind, depth, pfx[depth-ofs..], keys, chs)
  }

  /** The byte position where the changes, or the changes and the node, part. */
  function BranchAt(t: Option<Node>, cs: seq<Change>, b: nat, e: nat, depth: nat): (r: nat)
    requires b < e <= |cs| && depth <= 8 && (t.Some? ==> InRange(t.value, depth))
    ensures depth <= r <= 8
    ensures t.Some? ==> r <= t.value.ofs + |NodePrefix(t.value)|
  {
    var c := depth + MatchLen(cs[e-1].route[depth..], cs[b].route, depth);
    if t.None? then c
    else
      var d := depth + MatchLen(NodePrefix(t.value)[depth-t.value.ofs..], cs[b].route, depth);
      if d < c then d else c
  }

  /** The changes with a byte at the branch, from `first` on. */
  function EndOf(cs: seq<Change>, first: nat, e: nat, branch: nat, key: Byte): (last: nat)
    requires first <= e <= |cs| && branch < 8
    ensures first <= last <= e
    ensures forall j :: first <= j < last ==> cs[j].route[branch] == key
    ensures last < e ==> cs[last].route[branch] != key
    decreases e - first
  {
    if first < e && cs[first].route[branch] == key then EndOf(cs, first + 1, e, branch, key) else first
  }

  /** The children of a branch come from a node that reaches it. */
  predicate CanSlot(t: Option<Node>, same: bool, branch: nat) {
    t.Some? ==> InRange(t.value, branch) && (same ==> t.value.Branch?) && (!same ==> branch < t.value.ofs + |NodePrefix(t.value)|)
  }

  /** The old subtree for a byte: a child, or the whole node above a fork. */
  function SlotAt(t: Option<Node>, same: bool, branch: nat, key: Byte): (r: Option<Node>)
    requires branch < 8 && CanSlot(t, same, branch)
  {
    if t.None? then None
    else if same then
      var i := IndexOf(t.value.keys, key, 0);
      if i.Some? && i.value < |t.value.chs| then Some(t.value.chs[i.value]) else None
    else if NodePrefix(t.value)[branch-t.value.ofs] == key then t else None
  }

  /** Groups of changes whose byte has no child yet. */
  function NewChildren(keys: seq<Byte>, cs: seq<Change>, first: nat, e: nat, branch: nat): nat
    requires first <= e <= |cs| && branch < 8
    decreases e - first
  {
    if first == e then 0
    else
      var key := cs[first].route[branch];
      var last := EndOf(cs, first, e, branch, key);
      (if IndexOf(keys, key, 0).Some? then 0 else 1) + NewChildren(keys, cs, last, e, branch)
  }

  function KindFor(count: nat): Kind {
    if count <= 4 then K4 else if count <= 16 then K16 else if count <= 48 then K48 else K256
  }

  function Merge(t: Option<Node>, side: Histories, cs: seq<Change>, b: nat, e: nat, depth: nat, version: nat, n: nat): Merged
    requires b <= e <= |cs| && depth <= 8
    decreases 8 - depth, 300
  {
    if t.Some? && !InRange(t.value, depth) then Merged(t, n, [], false)
    else if b == e then
      if t.Some? && t.value.ofs != depth then Merged(Some(Clone(t.value, side, depth, version, n)), n + 1, [t.value.id], true)
      else Merged(t, n, [], true)
    else
      var branch := BranchAt(t, cs, b, e, depth);
      if branch == 8 then
        if e != b + 1 || cs[b].leaf != (if t.Some? then Some(t.value.id) else None) then Merged(t, n, [], false)
        else Merged(Some(Leaf(New(cs[b].ticket, 0, WholeLeaf), cs[b].ticket, depth, cs[b].route, cs[b].value)), n,
                    if t.Some? then [t.value.id] else [], true)
      else
        var same := t.Some? && t.value.Branch? && branch == t.value.ofs + |t.value.pfx|;
        var fits := same && (t.value.kind == K256
                             || |t.value.keys| + NewChildren(t.value.keys, cs, b, e, branch) <= t.value.kind.Capacity());
        if fits then
          var k := MergeKids(t, same, side, cs, b, e, 0, branch, version, n + 1);
          Merged(Some(Branch(New(version, n, WholeNode), version, t.value.kind, depth, t.value.pfx[depth-t.value.ofs..], k.keys, k.chs)),
                 k.next, [t.value.id] + k.retired, k.ok)
        else
          var k := MergeKids(t, same, side, cs, b, e, 0, branch, version, n);
          Merged(Some(Branch(New(version, k.next, WholeNode), version, KindFor(|k.keys|), depth, cs[b].route[depth..branch], k.keys, k.chs)),
                 k.next + 1, k.retired + (if same then [t.value.id] else []), k.ok && |k.keys| >= 2)
  }

  /** The merged children from a byte on. */
  function MergeKids(t: Option<Node>, same: bool, side: Histories, cs: seq<Change>, first: nat, e: nat, key: nat, branch: nat,
                     version: nat, n: nat): (r: Kids)
    requires first <= e <= |cs| && branch < 8 && key <= 256 && CanSlot(t, same, branch)
    ensures |r.keys| == |r.chs|
    decreases 8 - branch, 256 - key
  {
    if key == 256 then Kids([], [], n, [], true)
    else
      var last := EndOf(cs, first, e, branch, key);
      var slot := SlotAt(t, same, branch, key);
      if slot.None? && first == last then MergeKids(t, same, side, cs, last, e, key + 1, branch, version, n)
      else
        var m := Merge(slot, side, cs, first, last, branch + 1, version, n);
        var k := MergeKids(t, same, side, cs, last, e, key + 1, branch, version, m.next);
        if m.t.None? then Kids(k.keys, k.chs, k.next, m.retired + k.retired, false)
        else Kids([key] + k.keys, [m.t.value] + k.chs, k.next, m.retired + k.retired, m.ok && k.ok)
  }
}
