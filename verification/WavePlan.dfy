/** Planning a wave: a prefix of the batch is cut into groups, one for each
    target leaf (or missing key), with an open-addressing table. */
module WavePlan {
  import opened Options
  import opened Records

  /** An accepted update, as the planner sees it. */
  datatype Op = Op(ticket: nat, key: Key, value: Val)

  /** `next` is the position of the group's following update. */
  datatype Task = Task(op: Op, next: Option<nat>)

  datatype Group<A> = Group(leaf: Option<A>, first: nat, last: nat, count: nat, materialize: bool)

  datatype Bucket<A> = Bucket(leaf: Option<A>, groupIndex: nat, key: Key, occupied: bool)

  /** What updates are grouped by. */
  datatype Tag<A> = AtLeaf(leaf: A) | Missing(key: Key)

  function TagOf<A>(leaf: Option<A>, key: Key): Tag<A> {
    if leaf.Some? then AtLeaf(leaf.value) else Missing(key)
  }

  /** Where keys are, how many updates a target still takes, and where its
      probing starts. */
  datatype Routing<!A> = Routing(target: Key -> Option<A>, available: Option<A> -> nat, address: A -> nat)
  {
    function Tag(key: Key): Tag<A> {
      TagOf(target(key), key)
    }

    function Hash(tag: Tag<A>, size: nat): (slot: nat)
      requires size > 0
      ensures slot < size
    {
      var word := if tag.AtLeaf? then address(tag.leaf) / 64 else tag.key;
      word * 11400714819323198485 % 0x1_0000_0000_0000_0000 % size
    }
  }

  /** The positions in [first, pos) that go to a target, in order. */
  function Hits<A(==)>(r: Routing<A>, ops: seq<Op>, first: nat, pos: nat, tag: Tag<A>): seq<nat>
    requires first <= pos <= |ops|
    decreases pos - first
  {
    if first == pos then []
    else Hits(r, ops, first, pos - 1, tag) + (if r.Tag(ops[pos-1].key) == tag then [pos - 1] else [])
  }

  /** A target accepts another update of the wave. */
  predicate Fits<A(==)>(r: Routing<A>, ops: seq<Op>, first: nat, pos: nat, extra: nat)
    requires first <= pos < |ops|
  {
    var key := ops[pos].key;
    |Hits(r, ops, first, pos, r.Tag(key))| < r.available(r.target(key)) + extra
  }

  function Ops(batch: seq<Task>): (ops: seq<Op>)
    ensures |ops| == |batch| && forall i :: 0 <= i < |ops| ==> ops[i] == batch[i].op
  {
    seq(|batch|, i requires 0 <= i < |batch| => batch[i].op)
  }

  /** The chain of `next` positions runs through a list of positions. */
  ghost predicate Chained(batch: seq<Task>, hs: seq<nat>) {
    && (forall i :: 0 <= i < |hs| ==> hs[i] < |batch|)
    && (forall i :: 0 <= i < |hs| - 1 ==> batch[hs[i]].next == Some(hs[i+1]))
    && (|hs| > 0 ==> batch[hs[|hs|-1]].next == None)
  }

  ghost predicate GroupIs<A>(batch: seq<Task>, g: Group<A>, hs: seq<nat>, room: nat) {
    && hs != [] && g.first == hs[0] && g.last == hs[|hs|-1] && g.count == |hs|
    && g.materialize == (|hs| == room + 1)
    && Chained(batch, hs)
  }

  function LeafOf<A>(tag: Tag<A>): Option<A> {
    if tag.AtLeaf? then Some(tag.leaf) else None
  }

  /** The groups are exactly the targets of [first, pos), each with all its
      updates in order. */
  ghost predicate Grouped<A>(r: Routing<A>, batch: seq<Task>, groups: seq<Group<A>>, tags: seq<Tag<A>>, first: nat, pos: nat)
    requires first <= pos <= |batch|
  {
    && |tags| == |groups|
    && (forall g, k :: 0 <= g < k < |tags| ==> tags[g] != tags[k])
    && (forall g :: 0 <= g < |groups| ==> groups[g].leaf == LeafOf(tags[g]))
    && (forall g :: 0 <= g < |groups| ==>
          GroupIs(batch, groups[g], Hits(r, Ops(batch), first, pos, tags[g]), r.available(LeafOf(tags[g]))))
    && (forall p :: first <= p < pos ==> r.Tag(batch[p].op.key) in tags)
  }

  // ---- positions of a target ------------------------------------------------

  /** All positions of a target, in order. */
  ghost predicate Lists<A>(r: Routing<A>, ops: seq<Op>, first: nat, pos: nat, tag: Tag<A>, hs: seq<nat>)
    requires first <= pos <= |ops|
  {
    && (forall i :: 0 <= i < |hs| ==> first <= hs[i] < pos)
    && (forall i :: 0 <= i < |hs| ==> r.Tag(ops[hs[i]].key) == tag)
    && (forall i, j :: 0 <= i < j < |hs| ==> hs[i] < hs[j])
    && (forall p :: first <= p < pos && r.Tag(ops[p].key) == tag ==> p in hs)
  }

  lemma {:induction false} HitsAre<A>(r: Routing<A>, ops: seq<Op>, first: nat, pos: nat, tag: Tag<A>)
    requires first <= pos <= |ops|
    ensures Lists(r, ops, first, pos, tag, Hits(r, ops, first, pos, tag))
    decreases pos - first
  {
    hide Lists;
    if first < pos {
      HitsAre(r, ops, first, pos - 1, tag);
      var before := Hits(r, ops, first, pos - 1, tag);
      if r.Tag(ops[pos-1].key) == tag {
        ListsMore(r, ops, first, pos - 1, tag, before);
      } else {
        ListsStill(r, ops, first, pos - 1, tag, before);
        assert before + [] == before;
      }
    } else {
      ListsNone(r, ops, first, tag);
    }
  }

  lemma ListsNone<A>(r: Routing<A>, ops: seq<Op>, first: nat, tag: Tag<A>)
    requires first <= |ops|
    ensures Lists(r, ops, first, first, tag, [])
  {
  }

  lemma ListsStill<A>(r: Routing<A>, ops: seq<Op>, first: nat, pos: nat, tag: Tag<A>, hs: seq<nat>)
    requires first <= pos < |ops| && Lists(r, ops, first, pos, tag, hs) && r.Tag(ops[pos].key) != tag
    ensures Lists(r, ops, first, pos + 1, tag, hs)
  {
  }

  lemma ListsMore<A>(r: Routing<A>, ops: seq<Op>, first: nat, pos: nat, tag: Tag<A>, hs: seq<nat>)
    requires first <= pos < |ops| && Lists(r, ops, first, pos, tag, hs) && r.Tag(ops[pos].key) == tag
    ensures Lists(r, ops, first, pos + 1, tag, hs + [pos])
  {
    var all := hs + [pos];
    assert all[|hs|] == pos;
    forall p | first <= p < pos + 1 && r.Tag(ops[p].key) == tag ensures p in all {
      if p < pos { assert p in hs; }
    }
  }

  // ---- the table ------------------------------------------------------------

  /** The bucket d places after the start, wrapping around once. */
  function SlotAt(start: nat, d: nat, size: nat): (slot: nat)
    requires size > 0
    ensures slot < size
  {
    if start + d < size then start + d else if start + d < 2 * size then start + d - size else 0
  }

  /** The first d buckets of a probe sequence are occupied. */
  ghost predicate Walked<A>(table: seq<Bucket<A>>, start: nat, d: nat)
    requires |table| > 0
  {
    forall e: nat | e < d :: table[SlotAt(start, e, |table|)].occupied
  }

  /** Every group has a bucket that its probing reaches, and every occupied
      bucket belongs to one. */
  ghost predicate Stored<A>(r: Routing<A>, table: seq<Bucket<A>>, tags: seq<Tag<A>>, away: seq<nat>) {
    && |away| == |tags| && |table| > 0
    && (forall g :: 0 <= g < |tags| ==> Walked(table, r.Hash(tags[g], |table|), away[g]))
    && (forall g :: 0 <= g < |tags| ==> IsBucket(table[SlotAt(r.Hash(tags[g], |table|), away[g], |table|)], g, tags[g]))
    && (forall s :: 0 <= s < |table| && table[s].occupied ==>
          var g := table[s].groupIndex;
          g < |tags| && IsBucket(table[s], g, tags[g]) && s == SlotAt(r.Hash(tags[g], |table|), away[g], |table|))
  }

  ghost predicate IsBucket<A>(b: Bucket<A>, g: nat, tag: Tag<A>) {
    b.occupied && b.groupIndex == g && TagOf(b.leaf, b.key) == tag
  }

  ghost predicate Apart(s: seq<nat>) {
    forall i, j :: 0 <= i < j < |s| ==> s[i] != s[j]
  }

  /** Distinct numbers below n are at most n. */
  lemma {:induction false} Pigeons(s: seq<nat>, n: nat)
    requires Apart(s) && forall i :: 0 <= i < |s| ==> s[i] < n
    ensures |s| <= n
    decreases n
  {
    if s != [] {
      assert s[0] < n;
      if exists i :: 0 <= i < |s| && s[i] == n - 1 {
        var i :| 0 <= i < |s| && s[i] == n - 1;
        var rest := s[..i] + s[i+1..];
        assert forall j :: 0 <= j < |rest| ==> rest[j] == if j < i then s[j] else s[j+1];
        Pigeons(rest, n - 1);
      } else {
        Pigeons(s, n - 1);
      }
    }
  }

  lemma SlotsApart(start: nat, d: nat, e: nat, size: nat)
    requires d < e < size && start < size
    ensures SlotAt(start, d, size) != SlotAt(start, e, size)
  {
  }

  /** A probe passes at most one bucket for each group, so it ends. */
  lemma ProbeEnds<A>(r: Routing<A>, table: seq<Bucket<A>>, tags: seq<Tag<A>>, away: seq<nat>, start: nat, d: nat)
    requires Stored(r, table, tags, away) && Walked(table, start, d) && |tags| < |table| && d <= |table| && start < |table|
    ensures d <= |tags|
  {
    var s := seq(d, e requires 0 <= e < d => table[SlotAt(start, e, |table|)].groupIndex);
    forall i, j | 0 <= i < j < |s| ensures s[i] != s[j] {
      var si, sj := SlotAt(start, i, |table|), SlotAt(start, j, |table|);
      SlotsApart(start, i, j, |table|);
      assert table[si].occupied && table[sj].occupied;
    }
    forall i | 0 <= i < |s| ensures s[i] < |tags| {
      var si := SlotAt(start, i, |table|);
      assert table[si].occupied;
    }
    Pigeons(s, |tags|);
  }

  /** The first d buckets belong to other targets. */
  ghost predicate Passed<A>(table: seq<Bucket<A>>, start: nat, d: nat, tag: Tag<A>)
    requires |table| > 0
  {
    forall e: nat | e < d :: var b := table[SlotAt(start, e, |table|)]; b.occupied && TagOf(b.leaf, b.key) != tag
  }

  lemma PassOne<A>(table: seq<Bucket<A>>, start: nat, d: nat, tag: Tag<A>)
    requires start < |table| && d < |table| && Passed(table, start, d, tag)
    requires var b := table[SlotAt(start, d, |table|)]; b.occupied && TagOf(b.leaf, b.key) != tag
    ensures Passed(table, start, d + 1, tag) && Walked(table, start, d + 1)
    ensures var slot := SlotAt(start, d, |table|); SlotAt(start, d + 1, |table|) == if slot + 1 == |table| then 0 else slot + 1
  {
    forall e: nat | e < d + 1
      ensures var b := table[SlotAt(start, e, |table|)]; b.occupied && TagOf(b.leaf, b.key) != tag
    {
    }
  }

  /** An occupied bucket belongs to the group it names. */
  lemma Belongs<A>(r: Routing<A>, table: seq<Bucket<A>>, tags: seq<Tag<A>>, away: seq<nat>, slot: nat)
    requires Stored(r, table, tags, away) && slot < |table| && table[slot].occupied
    ensures table[slot].groupIndex < |tags| && IsBucket(table[slot], table[slot].groupIndex, tags[table[slot].groupIndex])
  {
  }

  /** An empty bucket on the way means the target has no group. */
  lemma ProbeMisses<A>(r: Routing<A>, table: seq<Bucket<A>>, tags: seq<Tag<A>>, away: seq<nat>, tag: Tag<A>, d: nat)
    requires Stored(r, table, tags, away)
    requires var start := r.Hash(tag, |table|);
             !table[SlotAt(start, d, |table|)].occupied && Passed(table, start, d, tag)
    ensures tag !in tags
  {
    var start := r.Hash(tag, |table|);
    forall g | 0 <= g < |tags| ensures tags[g] != tag {
      assert Walked(table, r.Hash(tags[g], |table|), away[g]);
      assert IsBucket(table[SlotAt(r.Hash(tags[g], |table|), away[g], |table|)], g, tags[g]);
      assert away[g] > d ==> table[SlotAt(r.Hash(tags[g], |table|), d, |table|)].occupied;
    }
  }

  /** Filling the empty bucket stores the new group. */
  lemma StoreNew<A>(r: Routing<A>, table: seq<Bucket<A>>, tags: seq<Tag<A>>, away: seq<nat>, b: Bucket<A>, d: nat)
    requires Stored(r, table, tags, away) && IsBucket(b, |tags|, TagOf(b.leaf, b.key))
    requires var start := r.Hash(TagOf(b.leaf, b.key), |table|);
             !table[SlotAt(start, d, |table|)].occupied && Walked(table, start, d)
    ensures var tag := TagOf(b.leaf, b.key);
            Stored(r, table[SlotAt(r.Hash(tag, |table|), d, |table|) := b], tags + [tag], away + [d])
  {
    var tag := TagOf(b.leaf, b.key);
    var slot := SlotAt(r.Hash(tag, |table|), d, |table|);
    var table' := table[slot := b];
    var tags', away' := tags + [tag], away + [d];
    forall g | 0 <= g < |tags'| ensures Walked(table', r.Hash(tags'[g], |table|), away'[g]) {
      assert Walked(table, r.Hash(tags'[g], |table|), away'[g]);
    }
    forall g | 0 <= g < |tags'|
      ensures IsBucket(table'[SlotAt(r.Hash(tags'[g], |table|), away'[g], |table|)], g, tags'[g])
    {
      if g < |tags| {
        assert IsBucket(table[SlotAt(r.Hash(tags[g], |table|), away[g], |table|)], g, tags[g]);
      }
    }
  }

  // ---- the groups -----------------------------------------------------------

  /** The first update of a target opens a group. */
  function Opened(batch: seq<Task>, pos: nat): seq<Task>
    requires pos < |batch|
  {
    batch[pos := batch[pos].(next := None)]
  }

  /** A later one is linked behind the group's last. */
  function Linked(batch: seq<Task>, pos: nat, last: nat): seq<Task>
    requires last < |batch| && pos < |batch|
  {
    var cut := batch[pos := batch[pos].(next := None)];
    cut[last := cut[last].(next := Some(pos))]
  }

  lemma SameOps(batch: seq<Task>, pos: nat, last: nat)
    requires last < |batch| && pos < |batch|
    ensures Ops(Opened(batch, pos)) == Ops(batch) && Ops(Linked(batch, pos, last)) == Ops(batch)
  {
  }

  /** Tasks elsewhere do not change a chain. */
  lemma ChainFrame(batch: seq<Task>, batch': seq<Task>, hs: seq<nat>)
    requires Chained(batch, hs) && |batch'| == |batch|
    requires forall i :: 0 <= i < |hs| ==> hs[i] < |batch| && batch'[hs[i]] == batch[hs[i]]
    ensures Chained(batch', hs)
  {
  }

  lemma ChainGrows(batch: seq<Task>, hs: seq<nat>, pos: nat)
    requires Chained(batch, hs) && hs != [] && pos < |batch|
    requires forall i :: 0 <= i < |hs| ==> hs[i] < pos
    requires forall i, j :: 0 <= i < j < |hs| ==> hs[i] < hs[j]
    ensures Chained(Linked(batch, pos, hs[|hs|-1]), hs + [pos])
  {
    var all := hs + [pos];
    var batch' := Linked(batch, pos, hs[|hs|-1]);
    forall i | 0 <= i < |all| - 1 ensures batch'[all[i]].next == Some(all[i+1]) {
      if i < |hs| - 1 {
        assert all[i] == hs[i] && all[i+1] == hs[i+1] && hs[i] < hs[|hs|-1];
      }
    }
  }

  lemma NoHits<A>(r: Routing<A>, batch: seq<Task>, groups: seq<Group<A>>, tags: seq<Tag<A>>, first: nat, pos: nat, tag: Tag<A>)
    requires first <= pos <= |batch| && Grouped(r, batch, groups, tags, first, pos) && tag !in tags
    ensures Hits(r, Ops(batch), first, pos, tag) == []
  {
    hide Hits, GroupIs;
    NoneHit(r, Ops(batch), first, pos, tag);
  }

  lemma {:induction false} NoneHit<A>(r: Routing<A>, ops: seq<Op>, first: nat, pos: nat, tag: Tag<A>)
    requires first <= pos <= |ops| && forall p :: first <= p < pos ==> r.Tag(ops[p].key) != tag
    ensures Hits(r, ops, first, pos, tag) == []
    decreases pos - first
  {
    if first < pos {
      NoneHit(r, ops, first, pos - 1, tag);
    }
  }

  /** A group whose target the update is not for stays as it is. */
  lemma OtherGroup<A>(r: Routing<A>, batch: seq<Task>, batch': seq<Task>, g: Group<A>, tag: Tag<A>, first: nat, pos: nat, room: nat)
    requires first <= pos < |batch| == |batch'| && Ops(batch') == Ops(batch) && r.Tag(batch[pos].op.key) != tag
    requires GroupIs(batch, g, Hits(r, Ops(batch), first, pos, tag), room)
    requires forall p :: first <= p < pos && r.Tag(batch[p].op.key) == tag ==> batch'[p] == batch[p]
    ensures GroupIs(batch', g, Hits(r, Ops(batch'), first, pos + 1, tag), room)
  {
    hide Hits, Chained;
    var hs := Hits(r, Ops(batch), first, pos, tag);
    HitsAre(r, Ops(batch), first, pos, tag);
    MissStep(r, Ops(batch), first, pos, tag);
    assert forall i :: 0 <= i < |hs| ==> batch[hs[i]].op == Ops(batch)[hs[i]];
    ChainFrame(batch, batch', hs);
  }

  lemma MissStep<A>(r: Routing<A>, ops: seq<Op>, first: nat, pos: nat, tag: Tag<A>)
    requires first <= pos < |ops| && r.Tag(ops[pos].key) != tag
    ensures Hits(r, ops, first, pos + 1, tag) == Hits(r, ops, first, pos, tag)
  {
  }

  lemma OpenGroup<A>(r: Routing<A>, batch: seq<Task>, groups: seq<Group<A>>, tags: seq<Tag<A>>, first: nat, pos: nat)
    requires first <= pos < |batch| && Grouped(r, batch, groups, tags, first, pos)
    requires r.Tag(batch[pos].op.key) !in tags
    ensures var key := batch[pos].op.key;
            var g := Group(r.target(key), pos, pos, 1, 0 == r.available(r.target(key)));
            Grouped(r, Opened(batch, pos), groups + [g], tags + [r.Tag(key)], first, pos + 1)
  {
    hide Hits, GroupIs;
    var key := batch[pos].op.key;
    var tag := r.Tag(key);
    var batch' := Opened(batch, pos);
    SameOps(batch, pos, pos);
    forall i | 0 <= i < |tags|
      ensures GroupIs(batch', groups[i], Hits(r, Ops(batch'), first, pos + 1, tags[i]), r.available(LeafOf(tags[i])))
    {
      OtherGroup(r, batch, batch', groups[i], tags[i], first, pos, r.available(LeafOf(tags[i])));
    }
    NoHits(r, batch, groups, tags, first, pos, tag);
    FirstHit(r, batch', first, pos, tag);
  }

  lemma FirstHit<A>(r: Routing<A>, batch: seq<Task>, first: nat, pos: nat, tag: Tag<A>)
    requires first <= pos < |batch| && r.Tag(batch[pos].op.key) == tag && batch[pos].next == None
    requires Hits(r, Ops(batch), first, pos, tag) == []
    ensures var room := r.available(LeafOf(tag));
            GroupIs(batch, Group(LeafOf(tag), pos, pos, 1, 0 == room), Hits(r, Ops(batch), first, pos + 1, tag), room)
  {
    assert Hits(r, Ops(batch), first, pos + 1, tag) == [pos];
  }

  lemma JoinGroup<A>(r: Routing<A>, batch: seq<Task>, groups: seq<Group<A>>, tags: seq<Tag<A>>, first: nat, pos: nat, g: nat)
    requires first <= pos < |batch| && Grouped(r, batch, groups, tags, first, pos)
    requires g < |tags| && r.Tag(batch[pos].op.key) == tags[g]
    ensures groups[g].last < |batch|
    ensures var prior := groups[g];
            var g' := Group(prior.leaf, prior.first, pos, prior.count + 1, prior.count == r.available(prior.leaf));
            Grouped(r, Linked(batch, pos, prior.last), groups[g := g'], tags, first, pos + 1)
  {
    hide Hits, GroupIs;
    LastHit(r, batch, groups[g], tags[g], first, pos);
    var batch' := Linked(batch, pos, groups[g].last);
    SameOps(batch, pos, groups[g].last);
    forall i | 0 <= i < |tags| && i != g
      ensures GroupIs(batch', groups[i], Hits(r, Ops(batch'), first, pos + 1, tags[i]), r.available(LeafOf(tags[i])))
    {
      assert r.Tag(batch[groups[g].last].op.key) != tags[i];
      OtherGroup(r, batch, batch', groups[i], tags[i], first, pos, r.available(LeafOf(tags[i])));
    }
  }

  lemma LastHit<A>(r: Routing<A>, batch: seq<Task>, g: Group<A>, tag: Tag<A>, first: nat, pos: nat)
    requires first <= pos < |batch| && r.Tag(batch[pos].op.key) == tag && g.leaf == LeafOf(tag)
    requires GroupIs(batch, g, Hits(r, Ops(batch), first, pos, tag), r.available(g.leaf))
    ensures g.last < pos && r.Tag(batch[g.last].op.key) == tag
    ensures var batch' := Linked(batch, pos, g.last);
            GroupIs(batch', Group(g.leaf, g.first, pos, g.count + 1, g.count == r.available(g.leaf)),
                    Hits(r, Ops(batch'), first, pos + 1, tag), r.available(g.leaf))
  {
    var hs := Hits(r, Ops(batch), first, pos, tag);
    HitsAre(r, Ops(batch), first, pos, tag);
    SameOps(batch, pos, g.last);
    ChainGrows(batch, hs, pos);
    assert Hits(r, Ops(Linked(batch, pos, g.last)), first, pos + 1, tag) == hs + [pos];
  }

  // ---- the planner ----------------------------------------------------------

  class Planner<A(==)> {
    const routing: Routing<A>
    const extra: nat // one more update per target when leaves are replaced in parallel
    const table: array<Bucket<A>>
    var batch: seq<Task>
    var groups: seq<Group<A>>
    ghost var tags: seq<Tag<A>>
    ghost var away: seq<nat>

    constructor (routing: Routing<A>, extra: nat, tableSize: nat, batch: seq<Task>)
      requires tableSize > |batch|
      ensures this.routing == routing && this.extra == extra && table.Length == tableSize && this.batch == batch
      ensures fresh(table)
    {
      this.routing, this.extra, this.batch := routing, extra, batch;
      table := new Bucket<A>[tableSize](_ => Bucket(None, 0, 0, false));
      groups, tags, away := [], [], [];
    }

    ghost predicate Valid(first: nat, pos: nat)
      reads this, table
    {
      && first <= pos <= |batch| < table.Length
      && |tags| <= pos - first
      && Stored(routing, table[..], tags, away)
      && Grouped(routing, batch, groups, tags, first, pos)
    }

    /** The bucket of a target, or the empty one it would take. */
    method Probe(leaf: Option<A>, key: Key) returns (slot: nat, ghost d: nat)
      requires Stored(routing, table[..], tags, away) && |tags| < table.Length
      ensures slot < table.Length && slot == SlotAt(routing.Hash(TagOf(leaf, key), table.Length), d, table.Length)
      ensures Walked(table[..], routing.Hash(TagOf(leaf, key), table.Length), d)
      ensures table[slot].occupied ==> IsBucket(table[slot], table[slot].groupIndex, TagOf(leaf, key))
      ensures table[slot].occupied ==> table[slot].groupIndex < |tags| && tags[table[slot].groupIndex] == TagOf(leaf, key)
      ensures !table[slot].occupied ==> TagOf(leaf, key) !in tags
    {
      hide Stored, Passed, Walked, SlotAt;
      ghost var tag := TagOf(leaf, key);
      ghost var start := routing.Hash(tag, table.Length);
      slot := routing.Hash(TagOf(leaf, key), table.Length);
      d := 0;
      ProbeStart(table[..], start, tag);
      while table[slot].occupied && (table[slot].leaf != leaf || (leaf == None && table[slot].key != key))
        invariant slot == SlotAt(start, d, table.Length) && d <= |tags|
        invariant Walked(table[..], start, d) && Passed(table[..], start, d, tag)
        decreases |tags| - d
      {
        PassOne(table[..], start, d, tag);
        slot := if slot + 1 == table.Length then 0 else slot + 1;
        d := d + 1;
        ProbeEnds(routing, table[..], tags, away, start, d);
      }
      if !table[slot].occupied {
        ProbeMisses(routing, table[..], tags, away, tag, d);
      } else {
        Belongs(routing, table[..], tags, away, slot);
      }
    }

    /** plan_wave: takes updates until one finds its target full. */
    method PlanWave(first: nat) returns (pos: nat)
      requires first <= |batch| < table.Length
      modifies this, table
      ensures first <= pos <= |batch| == old(|batch|) && Ops(batch) == old(Ops(batch))
      ensures Grouped(routing, batch, groups, tags, first, pos)
      ensures forall p :: first <= p < pos ==> Fits(routing, Ops(batch), first, p, extra)
      ensures pos < |batch| ==> !Fits(routing, Ops(batch), first, pos, extra)
    {
      hide Hits, GroupIs, Grouped, Stored, Fits, Ops;
      groups, tags, away := [], [], [];
      forall i | 0 <= i < table.Length {
        table[i] := Bucket(None, 0, 0, false);
      }
      NothingPlanned(routing, table[..], batch, first);
      pos := first;
      var more := true;
      while more && pos < |batch|
        invariant Valid(first, pos) && |batch| == old(|batch|) && Ops(batch) == old(Ops(batch))
        invariant forall p :: first <= p < pos ==> Fits(routing, Ops(batch), first, p, extra)
        invariant !more ==> pos < |batch| && !Fits(routing, Ops(batch), first, pos, extra)
        decreases |batch| - pos, more
      {
        more := Plan(first, pos);
        if more {
          pos := pos + 1;
        }
      }
    }

    method Plan(first: nat, pos: nat) returns (more: bool)
      requires pos < |batch| && Valid(first, pos)
      modifies this, table
      ensures |batch| == old(|batch|) && Ops(batch) == old(Ops(batch))
      ensures more == Fits(routing, Ops(batch), first, pos, extra)
      ensures Valid(first, if more then pos + 1 else pos)
    {
      hide Hits, GroupIs, Grouped, Stored, Ops;
      var op := batch[pos].op;
      var leaf := routing.target(op.key);
      var available := routing.available(leaf);
      ghost var d;
      var slot;
      slot, d := Probe(leaf, op.key);
      var entry := table[slot];
      Reserved(entry, first, pos);
      var reserved := if entry.occupied then groups[entry.groupIndex].count else 0;
      if reserved >= available + extra {
        return false;
      }
      if !entry.occupied {
        OpenGroup(routing, batch, groups, tags, first, pos);
        SameOps(batch, pos, pos);
        StoreNew(routing, table[..], tags, away, Bucket(leaf, |groups|, op.key, true), d);
        batch := Opened(batch, pos);
        table[slot] := Bucket(leaf, |groups|, op.key, true);
        groups := groups + [Group(leaf, pos, pos, 1, reserved == available)];
        tags, away := tags + [routing.Tag(op.key)], away + [d];
      } else {
        var g := groups[entry.groupIndex];
        JoinGroup(routing, batch, groups, tags, first, pos, entry.groupIndex);
        SameOps(batch, pos, g.last);
        batch := Linked(batch, pos, g.last);
        groups := groups[entry.groupIndex := Group(g.leaf, g.first, pos, g.count + 1, reserved == available)];
      }
      more := true;
    }

    /** The bucket's group tells how many updates its target has taken. */
    lemma Reserved(entry: Bucket<A>, first: nat, pos: nat)
      requires pos < |batch| && Valid(first, pos)
      requires entry.occupied ==> entry.groupIndex < |tags| && tags[entry.groupIndex] == routing.Tag(batch[pos].op.key)
      requires !entry.occupied ==> routing.Tag(batch[pos].op.key) !in tags
      ensures |groups| == |tags|
      ensures Ops(batch)[pos] == batch[pos].op
      ensures |Hits(routing, Ops(batch), first, pos, routing.Tag(batch[pos].op.key))|
              == if entry.occupied then groups[entry.groupIndex].count else 0
      ensures entry.occupied ==> groups[entry.groupIndex].leaf == routing.target(batch[pos].op.key)
    {
      if !entry.occupied {
        NoHits(routing, batch, groups, tags, first, pos, routing.Tag(batch[pos].op.key));
      } else {
        assert GroupIs(batch, groups[entry.groupIndex], Hits(routing, Ops(batch), first, pos, tags[entry.groupIndex]),
                       routing.available(LeafOf(tags[entry.groupIndex])));
      }
    }
  }

  lemma ProbeStart<A>(table: seq<Bucket<A>>, start: nat, tag: Tag<A>)
    requires start < |table|
    ensures SlotAt(start, 0, |table|) == start && Walked(table, start, 0) && Passed(table, start, 0, tag)
  {
  }

  lemma NothingPlanned<A>(r: Routing<A>, table: seq<Bucket<A>>, batch: seq<Task>, first: nat)
    requires |table| > 0 && first <= |batch| && forall s :: 0 <= s < |table| ==> !table[s].occupied
    ensures Stored(r, table, [], []) && Grouped(r, batch, [], [], first, first)
  {
  }
}
