/** Executing the planned groups and collecting the replaced leaves. */
module WaveExec {
  import opened Options
  import opened Records
  import opened Nodes
  import opened BTree
  import opened BTreeHistory
  import opened BTreeMerge
  import opened WaveRun
  import P = WavePlan

  lemma {:induction false} HitIndex(r: P.Routing<Id>, ops: seq<P.Op>, first: nat, pos: nat, tag: P.Tag<Id>, i: nat)
    requires first <= pos <= |ops| && i < |P.Hits(r, ops, first, pos, tag)|
    ensures var p := P.Hits(r, ops, first, pos, tag)[i];
            first <= p < pos && r.Tag(ops[p].key) == tag && P.Hits(r, ops, first, p, tag) == P.Hits(r, ops, first, pos, tag)[..i]
    decreases pos
  {
    if first < pos {
      var before := P.Hits(r, ops, first, pos - 1, tag);
      var hs := P.Hits(r, ops, first, pos, tag);
      if i < |before| {
        HitIndex(r, ops, first, pos - 1, tag, i);
        assert hs[..i] == before[..i];
      } else {
        assert hs[..i] == before;
      }
    }
  }

  /** The planned prefix and its groups. */
  ghost predicate Plan(c: Conf, batch: seq<P.Task>, groups: seq<P.Group<Id>>, tags: seq<P.Tag<Id>>, end: nat) {
    && c.Planned(end) && P.Ops(batch) == c.ops
    && P.Grouped(c.Routing(), batch, groups, tags, c.first, end)
  }

  /** The positions of a group. */
  function Members(c: Conf, tag: P.Tag<Id>, end: nat): seq<nat>
    requires c.first <= end <= |c.ops|
  {
    P.Hits(c.Routing(), c.ops, c.first, end, tag)
  }

  lemma PlanFacts(c: Conf, batch: seq<P.Task>, groups: seq<P.Group<Id>>, tags: seq<P.Tag<Id>>, end: nat, g: nat)
    requires Plan(c, batch, groups, tags, end) && g < |groups|
    ensures |groups| == |tags| && c.Planned(end) && P.Ops(batch) == c.ops && |batch| == |c.ops|
    ensures P.GroupIs(batch, groups[g], Members(c, tags[g], end), c.Routing().available(P.LeafOf(tags[g])))
  {
    hide P.Hits, P.GroupIs, P.Fits;
  }

  lemma GroupFacts(c: Conf, batch: seq<P.Task>, groups: seq<P.Group<Id>>, tags: seq<P.Tag<Id>>, end: nat, g: nat, i: nat)
    requires |groups| == |tags| && |batch| == |c.ops| && c.first <= end <= |c.ops| && g < |groups|
    requires i < |Members(c, tags[g], end)| && Plan(c, batch, groups, tags, end)
    ensures var hs := Members(c, tags[g], end); var p := hs[i];
            && c.first <= p < end && tags[g] == P.AtLeaf(c.LeafAt(p)) && c.Ahead(p) == i
            && groups[g].first == hs[0] && groups[g].last == hs[|hs|-1]
            && (c.Replaces(p) <==> groups[g].materialize && p == groups[g].last)
            && batch[p].next == (if i + 1 < |hs| then Some(hs[i+1]) else None)
            && batch[p].op == c.ops[p]
  {
    hide P.Hits, P.GroupIs, P.Fits, Plan, P.Ops, Conf.Planned, Conf.Replaces, Conf.Ahead;
    var hs := Members(c, tags[g], end);
    var room := c.Routing().available(P.LeafOf(tags[g]));
    PlanFacts(c, batch, groups, tags, end, g);
    HitIndex(c.Routing(), c.ops, c.first, end, tags[g], i);
    HitIndex(c.Routing(), c.ops, c.first, end, tags[g], |hs| - 1);
    ChainFacts(batch, groups[g], hs, room, i);
    OpsAt(batch, hs[i]);
    LastOf(c, end, tags[g], hs, i);
  }

  lemma OpsAt(batch: seq<P.Task>, p: nat)
    requires p < |batch|
    ensures |P.Ops(batch)| == |batch| && batch[p].op == P.Ops(batch)[p]
  {
  }

  lemma ChainFacts(batch: seq<P.Task>, g: P.Group<Id>, hs: seq<nat>, room: nat, i: nat)
    requires P.GroupIs(batch, g, hs, room) && i < |hs|
    ensures hs[i] < |batch| && g.first == hs[0] && g.last == hs[|hs|-1] && g.materialize == (|hs| == room + 1)
    ensures batch[hs[i]].next == (if i + 1 < |hs| then Some(hs[i+1]) else None)
  {
  }

  lemma LastOf(c: Conf, end: nat, tag: P.Tag<Id>, hs: seq<nat>, i: nat)
    requires c.Planned(end) && hs == Members(c, tag, end) && i < |hs|
    requires c.first <= hs[i] < end && c.Routing().Tag(c.ops[hs[i]].key) == tag && P.Hits(c.Routing(), c.ops, c.first, hs[i], tag) == hs[..i]
    requires c.first <= hs[|hs|-1] < end && c.Routing().Tag(c.ops[hs[|hs|-1]].key) == tag
             && P.Hits(c.Routing(), c.ops, c.first, hs[|hs|-1], tag) == hs[..|hs|-1]
    ensures tag == P.AtLeaf(c.LeafAt(hs[i])) && c.Ahead(hs[i]) == i
    ensures var room := c.Routing().available(P.LeafOf(tag));
            c.Replaces(hs[i]) <==> |hs| == room + 1 && hs[i] == hs[|hs|-1]
  {
    hide P.Hits, P.Fits;
    AheadFits(c, end, hs[|hs|-1]);
    if hs[i] == hs[|hs|-1] {
      assert |hs[..i]| == |hs[..|hs|-1]|;
    }
  }

  class Executor {
    const c: Conf
    const batch: seq<P.Task>
    const groups: seq<P.Group<Id>>
    var side: Side
    var replacements: seq<Option<Change>>
    ghost const tags: seq<P.Tag<Id>>
    ghost const end: nat
    ghost var run: Run

    constructor (c: Conf, batch: seq<P.Task>, groups: seq<P.Group<Id>>, ghost tags: seq<P.Tag<Id>>, ghost end: nat)
      requires Plan(c, batch, groups, tags, end)
      ensures this.c == c && this.batch == batch && this.groups == groups && this.tags == tags && this.end == end
      ensures Valid() && run.done == {}
    {
      this.c, this.batch, this.groups, this.tags, this.end := c, batch, groups, tags, end;
      side := c.side;
      replacements := seq(|groups|, _ => None);
      run := Run(c.side, {}, map[], false);
      new;
      StartSettled(c, end);
    }

    ghost predicate Valid()
      reads this
    {
      && Plan(c, batch, groups, tags, end) && Settled(c, end, run) && side == run.side
      && |replacements| == |groups|
      && (forall g :: 0 <= g < |groups| ==> groups[g].first < |batch| && groups[g].last < |batch|)
      && (forall g :: 0 <= g < |groups| && groups[g].materialize ==>
            replacements[g] == if groups[g].last in run.prepared then Some(run.prepared[groups[g].last]) else None)
    }

    /** One operation of a group; false is the exception. */
    method Execute(index: nat, pos: nat) returns (ok: bool)
      requires Valid() && index < |groups| && pos < |batch| && c.first <= pos < end
      requires Next(c, end, run.done, pos)
      requires c.Replaces(pos) <==> groups[index].materialize && pos == groups[index].last
      requires batch[pos].op == c.ops[pos]
      requires forall g :: 0 <= g < |groups| && groups[g].last == pos ==> g == index
      modifies this
      ensures Valid() && ok && run.done == old(run.done) + {pos}
    {
      hide Settled, Plan, SideOf, Conf.Replaces, Turn, Next;
      TurnFacts(c, batch, groups, tags, end, run, pos);
      var op := batch[pos].op;
      var leaf := Route(c.tree, op.key);
      run := Turn(c, run, pos);
      if groups[index].materialize && pos == groups[index].last {
        var change := ChangeAt(c, pos, side);
        replacements := replacements[index := Some(change)];
        return true;
      }
      if |SlotsAt(side, leaf.id)| >= c.slots {
        return false;
      }
      side := Append(side, leaf.id, Slot(op.ticket, op.key, op.value));
      ok := true;
    }

    /** execute_group: follows the chain of the group's updates. */
    method ExecuteGroup(index: nat) returns (ok: bool)
      requires Valid() && index < |groups| == |tags|
      requires forall p :: p in Members(c, tags[index], end) ==> p !in run.done
      modifies this
      ensures Valid() && ok
      ensures run.done == old(run.done) + Firsts(Members(c, tags[index], end), |Members(c, tags[index], end)|)
    {
      hide Settled, Plan, P.Hits, P.GroupIs, Next, P.Ops;
      PlanIn(c, batch, groups, tags, end);
      ghost var hs := Members(c, tags[index], end);
      ghost var i := 0;
      PlanFacts(c, batch, groups, tags, end, index);
      NotEmpty(batch, groups[index], hs, c.Routing().available(P.LeafOf(tags[index])));
      GroupFacts(c, batch, groups, tags, end, index, 0);
      ok := true;
      var pos := Some(groups[index].first);
      while pos != None
        invariant Valid() && ok && i <= |hs| && pos == (if i < |hs| then Some(hs[i]) else None)
        invariant run.done == old(run.done) + Firsts(hs, i)
        decreases |hs| - i
      {
        GroupFacts(c, batch, groups, tags, end, index, i);
        NextMember(c, end, tags[index], old(run.done), run.done, i);
        forall k | 0 <= k < |groups| && groups[k].last == pos.value ensures k == index {
          OneLast(c, batch, groups, tags, end, index, k, pos.value);
        }
        ok := Execute(index, pos.value);
        assert Firsts(hs, i + 1) == Firsts(hs, i) + {hs[i]};
        i := i + 1;
        pos := batch[pos.value].next;
      }
    }

    /** The inline branch of run_wave: one group after another. */
    method RunInline() returns (ok: bool)
      requires Valid() && run.done == {}
      modifies this
      ensures Valid() && ok && run.done == All(c.first, end)
    {
      hide Settled, Plan, P.Hits, P.GroupIs, Next, P.Ops, Members;
      TagsApart(c, batch, groups, tags, end);
      ok := true;
      var i := 0;
      PlanIn(c, batch, groups, tags, end);
      while i < |groups|
        invariant Valid() && ok && i <= |groups| && GroupsDone(c, tags, end, i, run.done)
      {
        NextGroup(c, tags, end, i, run.done);
        ok := ExecuteGroup(i);
        i := i + 1;
      }
      AllDone(c, batch, groups, tags, end, run.done);
    }

    /** The replacements of the groups that have one, in group order. */
    method Collect() returns (cs: seq<Change>, ghost at: seq<nat>)
      requires Valid() && run.done == All(c.first, end)
      ensures Carries(c, end, cs, at)
    {
      hide Settled, Plan, Aligned;
      PlanIn(c, batch, groups, tags, end);
      cs, at := [], [];
      ghost var lasts := {};
      var g := 0;
      NoneAligned(c, end);
      while g < |groups|
        invariant g <= |groups| && Aligned(c, end, cs, at) && multiset(at) == multiset(lasts)
        invariant forall p :: p in lasts <==> LastBelow(groups, g, p)
      {
        LastsMore(groups, g);
        if groups[g].materialize {
          Prepared(c, batch, groups, tags, end, run, g);
          NewLast(c, batch, groups, tags, end, g, lasts);
          AlignedMore(c, end, cs, at, replacements[g].value, groups[g].last);
          cs := cs + [replacements[g].value];
          at := at + [groups[g].last];
          lasts := lasts + {groups[g].last};
        }
        g := g + 1;
      }
      forall p ensures p in lasts <==> p in Replacing(c, end) {
        AllLasts(c, batch, groups, tags, end, p);
      }
      assert lasts == Replacing(c, end);
    }
  }

  /** A group below g that has a replacement ends at p. */
  ghost predicate LastBelow(groups: seq<P.Group<Id>>, g: nat, p: nat)
    requires g <= |groups|
  {
    exists k :: 0 <= k < g && groups[k].materialize && groups[k].last == p
  }

  lemma LastsMore(groups: seq<P.Group<Id>>, g: nat)
    requires g < |groups|
    ensures forall p :: LastBelow(groups, g + 1, p) <==> LastBelow(groups, g, p) || (groups[g].materialize && groups[g].last == p)
  {
    forall p ensures LastBelow(groups, g + 1, p) <==> LastBelow(groups, g, p) || (groups[g].materialize && groups[g].last == p) {
      if groups[g].materialize && groups[g].last == p {
        assert LastBelow(groups, g + 1, p);
      }
    }
  }

  /** The updates that replace their leaf. */
  function Replacing(c: Conf, end: nat): set<nat>
    requires c.first <= end <= |c.ops|
  {
    set p | c.first <= p < end && c.Replaces(p)
  }

  /** Each replacement is the one its update makes on its leaf with all
      earlier slots. */
  ghost predicate Aligned(c: Conf, end: nat, cs: seq<Change>, at: seq<nat>)
    requires c.first <= end <= |c.ops|
  {
    && |at| == |cs|
    && (forall j :: 0 <= j < |cs| ==> c.first <= at[j] < end)
    && (forall j :: 0 <= j < |cs| ==> cs[j] == ChangeAt(c, at[j], SideOf(c, end, All(c.first, at[j]))))
  }

  /** All replacements of the wave, once each. */
  ghost predicate Carries(c: Conf, end: nat, cs: seq<Change>, at: seq<nat>) {
    c.first <= end <= |c.ops| && Aligned(c, end, cs, at) && multiset(at) == multiset(Replacing(c, end))
  }

  lemma NoneAligned(c: Conf, end: nat)
    requires c.first <= end <= |c.ops|
    ensures Aligned(c, end, [], [])
  {
  }

  lemma AlignedMore(c: Conf, end: nat, cs: seq<Change>, at: seq<nat>, x: Change, p: nat)
    requires c.first <= end <= |c.ops| && Aligned(c, end, cs, at) && c.first <= p < end
    requires x == ChangeAt(c, p, SideOf(c, end, All(c.first, p)))
    ensures Aligned(c, end, cs + [x], at + [p])
  {
    hide ChangeAt, SideOf, All;
  }

  lemma Prepared(c: Conf, batch: seq<P.Task>, groups: seq<P.Group<Id>>, tags: seq<P.Tag<Id>>, end: nat, r: Run, g: nat)
    requires Plan(c, batch, groups, tags, end) && g < |groups| && groups[g].materialize
    requires c.first <= end <= |c.ops| && Settled(c, end, r) && r.done == All(c.first, end)
    ensures var p := groups[g].last;
            && c.first <= p < end && c.Replaces(p) && p in r.prepared
            && r.prepared[p] == ChangeAt(c, p, SideOf(c, end, All(c.first, p)))
  {
    hide P.Grouped, P.Hits, P.GroupIs, ChangeAt, SideOf, InOrder, P.Ops;
    PlanFacts(c, batch, groups, tags, end, g);
    NotEmpty(batch, groups[g], Members(c, tags[g], end), c.Routing().available(P.LeafOf(tags[g])));
    GroupFacts(c, batch, groups, tags, end, g, |Members(c, tags[g], end)| - 1);
  }

  lemma NewLast(c: Conf, batch: seq<P.Task>, groups: seq<P.Group<Id>>, tags: seq<P.Tag<Id>>, end: nat, g: nat, lasts: set<nat>)
    requires Plan(c, batch, groups, tags, end) && g < |groups| && forall p :: p in lasts <==> LastBelow(groups, g, p)
    ensures groups[g].last !in lasts
  {
    hide P.Hits, P.GroupIs, Plan, P.Ops;
    PlanFacts(c, batch, groups, tags, end, g);
    NotEmpty(batch, groups[g], Members(c, tags[g], end), c.Routing().available(P.LeafOf(tags[g])));
    GroupFacts(c, batch, groups, tags, end, g, |Members(c, tags[g], end)| - 1);
    forall k | 0 <= k < g ensures groups[k].last != groups[g].last {
      if groups[k].last == groups[g].last {
        OneLast(c, batch, groups, tags, end, g, k, groups[g].last);
      }
    }
  }

  /** The groups with a replacement end at exactly the replacing updates. */
  lemma AllLasts(c: Conf, batch: seq<P.Task>, groups: seq<P.Group<Id>>, tags: seq<P.Tag<Id>>, end: nat, p: nat)
    requires Plan(c, batch, groups, tags, end) && c.first <= end <= |c.ops|
    ensures LastBelow(groups, |groups|, p) <==> p in Replacing(c, end)
  {
    hide P.Hits, P.GroupIs, Plan, P.Ops, Conf.Replaces;
    TagsApart(c, batch, groups, tags, end);
    if LastBelow(groups, |groups|, p) {
      var k :| 0 <= k < |groups| && groups[k].materialize && groups[k].last == p;
      PlanFacts(c, batch, groups, tags, end, k);
      NotEmpty(batch, groups[k], Members(c, tags[k], end), c.Routing().available(P.LeafOf(tags[k])));
      GroupFacts(c, batch, groups, tags, end, k, |Members(c, tags[k], end)| - 1);
    }
    if p in Replacing(c, end) {
      var k :| 0 <= k < |tags| && tags[k] == c.Routing().Tag(c.ops[p].key);
      MembersIn(c, end, tags[k], p);
      var i :| 0 <= i < |Members(c, tags[k], end)| && Members(c, tags[k], end)[i] == p;
      PlanFacts(c, batch, groups, tags, end, k);
      GroupFacts(c, batch, groups, tags, end, k, i);
    }
  }

  // ---- by route -------------------------------------------------------------

  /** The changes by route, as the merge takes them. */
  method SortByRoute(c: Conf, ghost end: nat, cs: seq<Change>, ghost at: seq<nat>) returns (s: seq<Change>, ghost t: seq<nat>)
    requires Carries(c, end, cs, at)
    ensures Carries(c, end, s, t) && Ascends(s)
  {
    hide ChangeAt, SideOf, All, Replacing, Insert;
    s, t := [], [];
    var i := 0;
    while i < |cs|
      invariant i <= |cs| && Aligned(c, end, s, t) && Ascends(s) && |s| == i && multiset(t) == multiset(at[..i])
    {
      var j := 0;
      while j < |s| && s[j].route <= cs[i].route
        invariant j <= |s| && forall k :: 0 <= k < j ==> s[k].route <= cs[i].route
      {
        j := j + 1;
      }
      Inserted(c, end, s, t, cs[i], at[i], j);
      assert at[..i+1] == at[..i] + [at[i]];
      s, t := Insert(s, j, cs[i]), Insert(t, j, at[i]);
      i := i + 1;
    }
    assert at[..|cs|] == at;
  }

  function Insert<T>(s: seq<T>, j: nat, x: T): (r: seq<T>)
    requires j <= |s|
    ensures |r| == |s| + 1
  {
    s[..j] + [x] + s[j..]
  }

  lemma InsertAt<T>(s: seq<T>, j: nat, x: T, k: nat)
    requires j <= |s| && k <= |s|
    ensures Insert(s, j, x)[k] == if k < j then s[k] else if k == j then x else s[k-1]
  {
  }

  lemma Inserted(c: Conf, end: nat, s: seq<Change>, t: seq<nat>, x: Change, p: nat, j: nat)
    requires c.first <= end <= |c.ops| && Aligned(c, end, s, t) && c.first <= p < end
    requires x == ChangeAt(c, p, SideOf(c, end, All(c.first, p)))
    requires Ascends(s) && j <= |s| && (forall k :: 0 <= k < j ==> s[k].route <= x.route) && (j < |s| ==> x.route < s[j].route)
    ensures Aligned(c, end, Insert(s, j, x), Insert(t, j, p)) && Ascends(Insert(s, j, x))
    ensures multiset(Insert(t, j, p)) == multiset(t) + multiset{p}
  {
    hide ChangeAt, SideOf, All, Insert;
    var s', t' := Insert(s, j, x), Insert(t, j, p);
    forall k | 0 <= k < |s'|
      ensures c.first <= t'[k] < end && s'[k] == ChangeAt(c, t'[k], SideOf(c, end, All(c.first, t'[k])))
    {
      InsertAt(s, j, x, k);
      InsertAt(t, j, p, k);
    }
    InsertOrdered(s, j, x);
    InsertCounts(t, j, p);
  }

  lemma InsertOrdered(s: seq<Change>, j: nat, x: Change)
    requires Ascends(s) && j <= |s| && (forall k :: 0 <= k < j ==> s[k].route <= x.route) && (j < |s| ==> x.route < s[j].route)
    ensures Ascends(Insert(s, j, x))
  {
    hide Insert;
    forall i, k | 0 <= i < k < |s| + 1 ensures Insert(s, j, x)[i].route <= Insert(s, j, x)[k].route {
      InsertAt(s, j, x, i);
      InsertAt(s, j, x, k);
    }
  }

  lemma InsertCounts(t: seq<nat>, j: nat, p: nat)
    requires j <= |t|
    ensures multiset(Insert(t, j, p)) == multiset(t) + multiset{p}
  {
    assert t == t[..j] + t[j..];
  }

  lemma PlanIn(c: Conf, batch: seq<P.Task>, groups: seq<P.Group<Id>>, tags: seq<P.Tag<Id>>, end: nat)
    requires Plan(c, batch, groups, tags, end)
    ensures c.first <= end <= |c.ops|
  {
  }

  /** Within its group an update comes after the earlier ones of its leaf. */
  lemma NextMember(c: Conf, end: nat, tag: P.Tag<Id>, done: set<nat>, before: set<nat>, i: nat)
    requires c.first <= end <= |c.ops| && i < |Members(c, tag, end)|
    requires before == done + Firsts(Members(c, tag, end), i) && Members(c, tag, end)[i] !in done
    requires Members(c, tag, end)[i] < |c.ops| && tag == P.AtLeaf(c.LeafAt(Members(c, tag, end)[i]))
    ensures Next(c, end, before, Members(c, tag, end)[i])
  {
    hide P.Hits;
    var hs := Members(c, tag, end);
    var p := hs[i];
    P.HitsAre(c.Routing(), c.ops, c.first, end, tag);
    forall q | c.first <= q < p && c.LeafAt(q) == c.LeafAt(p) ensures q in before {
      assert c.Routing().Tag(c.ops[q].key) == tag;
      assert q in hs;
      var j :| 0 <= j < |hs| && hs[j] == q;
      assert j < i;
    }
  }

  function Firsts(hs: seq<nat>, i: nat): set<nat>
    requires i <= |hs|
  {
    set j | 0 <= j < i :: hs[j]
  }

  /** The updates of the first n groups. */
  ghost predicate GroupsDone(c: Conf, tags: seq<P.Tag<Id>>, end: nat, n: nat, done: set<nat>)
    requires c.first <= end <= |c.ops| && n <= |tags|
  {
    forall p :: p in done <==> c.first <= p < end && c.Routing().Tag(c.ops[p].key) in tags[..n]
  }

  lemma MembersIn(c: Conf, end: nat, tag: P.Tag<Id>, p: nat)
    requires c.first <= end <= |c.ops|
    ensures p in Members(c, tag, end) <==> c.first <= p < end && c.Routing().Tag(c.ops[p].key) == tag
  {
    hide P.Hits;
    P.HitsAre(c.Routing(), c.ops, c.first, end, tag);
  }

  lemma NextGroup(c: Conf, tags: seq<P.Tag<Id>>, end: nat, n: nat, done: set<nat>)
    requires c.first <= end <= |c.ops| && n < |tags| && GroupsDone(c, tags, end, n, done)
    requires forall g, k :: 0 <= g < k < |tags| ==> tags[g] != tags[k]
    ensures forall p :: p in Members(c, tags[n], end) ==> p !in done
    ensures GroupsDone(c, tags, end, n + 1, done + Firsts(Members(c, tags[n], end), |Members(c, tags[n], end)|))
  {
    hide P.Hits, Members;
    var hs := Members(c, tags[n], end);
    assert tags[..n+1] == tags[..n] + [tags[n]];
    forall p: nat ensures p in Firsts(hs, |hs|) <==> c.first <= p < end && c.Routing().Tag(c.ops[p].key) == tags[n] {
      MembersIn(c, end, tags[n], p);
    }
    forall p | p in hs ensures p !in done {
      MembersIn(c, end, tags[n], p);
    }
  }

  lemma TagsApart(c: Conf, batch: seq<P.Task>, groups: seq<P.Group<Id>>, tags: seq<P.Tag<Id>>, end: nat)
    requires Plan(c, batch, groups, tags, end)
    ensures |groups| == |tags| && forall g, k :: 0 <= g < k < |tags| ==> tags[g] != tags[k]
    ensures forall p :: c.first <= p < end ==> c.Routing().Tag(c.ops[p].key) in tags
  {
    hide P.Hits, P.GroupIs, P.Fits, Conf.Routing;
    assert forall p :: c.first <= p < end ==> P.Ops(batch)[p] == batch[p].op;
  }

  lemma AllDone(c: Conf, batch: seq<P.Task>, groups: seq<P.Group<Id>>, tags: seq<P.Tag<Id>>, end: nat, done: set<nat>)
    requires Plan(c, batch, groups, tags, end) && |groups| == |tags| && GroupsDone(c, tags, end, |tags|, done)
    ensures done == All(c.first, end)
  {
    TagsApart(c, batch, groups, tags, end);
    assert tags[..|tags|] == tags;
  }

  /** Only one group ends at a position. */
  lemma OneLast(c: Conf, batch: seq<P.Task>, groups: seq<P.Group<Id>>, tags: seq<P.Tag<Id>>, end: nat, g: nat, k: nat, p: nat)
    requires Plan(c, batch, groups, tags, end) && |tags| == |groups| && g < |groups| && k < |groups| && groups[k].last == p && p < |c.ops|
    requires tags[g] == P.AtLeaf(c.LeafAt(p))
    ensures k == g
  {
    hide P.Hits, P.GroupIs, Plan, P.Ops;
    PlanFacts(c, batch, groups, tags, end, k);
    NotEmpty(batch, groups[k], Members(c, tags[k], end), c.Routing().available(P.LeafOf(tags[k])));
    GroupFacts(c, batch, groups, tags, end, k, |Members(c, tags[k], end)| - 1);
    TagsApart(c, batch, groups, tags, end);
  }

  lemma NotEmpty(batch: seq<P.Task>, g: P.Group<Id>, hs: seq<nat>, room: nat)
    requires P.GroupIs(batch, g, hs, room)
    ensures hs != []
  {
  }

  lemma TurnFacts(c: Conf, batch: seq<P.Task>, groups: seq<P.Group<Id>>, tags: seq<P.Tag<Id>>, end: nat, r: Run, p: nat)
    requires Plan(c, batch, groups, tags, end) && Settled(c, end, r) && Next(c, end, r.done, p)
    ensures c.first <= p < end <= |c.ops|
    ensures var r' := Turn(c, r, p);
            && Settled(c, end, r') && r'.done == r.done + {p}
            && r'.side == (if c.Replaces(p) then r.side else Append(r.side, c.LeafAt(p), c.SlotFor(p)))
            && r'.prepared == (if c.Replaces(p) then r.prepared[p := ChangeAt(c, p, r.side)] else r.prepared)
            && (!c.Replaces(p) ==> |SlotsAt(r.side, c.LeafAt(p))| < c.slots)
  {
    hide P.Grouped, Conf.Replaces, SideOf, InOrder, ChangeAt, Append;
    NextIn(c, end, r.done, p);
    TurnSettles(c, end, r, p);
    CapacityKept(c, end, r.done, p);
  }

  lemma NextIn(c: Conf, end: nat, done: set<nat>, p: nat)
    requires c.first <= end <= |c.ops| && Next(c, end, done, p)
    ensures c.first <= p < end
  {
  }
}
