/** One batch of a BeTree from merge to publication. */
module BeBatch {
  import opened Records
  import opened Nodes
  import opened BeTree
  import opened BeUpdate
  import opened BeMerge
  import opened BeRebuild
  import opened BeFull
  import opened BeShares
  import opened BeRun
  import opened BeHistory
  import opened BeMergeOk
  import opened BeMergeIds
  import Ok = BeUpdateOk
  import H = BTreeHistory
  import M = BTreeMergeIds

  /** A tree, and a sorted batch prepared on its leaves; later nodes have numbers
      from `next` on. */
  ghost predicate Ready(t: Node, cs: seq<Change>, rs: seq<Request>, side: Side, ticket: nat, names: Names, next: nat, limit: nat) {
    && |cs| == |rs| && limit > 0 && Ordered(t, side, 0, limit) && Distinct(t) && NamedBelow(Ids(t), next) && NoSlots(side, next)
    && Prepared(t, cs, rs, 0, |cs|, side, ticket) && Ascends(cs) && RoutesIn(cs, 0, |cs|, 0, limit)
    && Clean(Ids(t), cs, ticket, names) && NamedBelow(RunIds(cs, 0, |cs|), next)
  }

  lemma ReadyParts(t: Node, cs: seq<Change>, rs: seq<Request>, side: Side, ticket: nat, names: Names, next: nat, limit: nat)
    requires Ready(t, cs, rs, side, ticket, names, next, limit)
    ensures Formed(t)
  {
    hide Ordered, Distinct, Ids, Formed, Prepared, Clean;
    OrderedFormed(t, side, 0, limit);
  }

  /** fat_merge::build accepts a batch if and only if every change names the leaf
      of its route and no leaf comes twice. */
  lemma BatchAccepted(t: Node, cs: seq<Change>, rs: seq<Request>, side: Side, ticket: nat, names: Names, next: nat, limit: nat)
    requires Ready(t, cs, rs, side, ticket, names, next, limit)
    ensures Merge(t, cs, 0, |cs|, ticket, names).ok <==> Accepted(t, cs, 0, |cs|)
  {
    hide Ordered, Distinct, Ids, Prepared, Clean, Accepted, Merge;
    MergeAccepts(t, cs, 0, |cs|, ticket, names, side, 0, limit);
  }

  /** The merged tree shows the old map with the batch written over it, has every
      old node but the retired ones, and repeats none. */
  lemma RootOk(t: Node, cs: seq<Change>, rs: seq<Request>, side: Side, ticket: nat, names: Names, next: nat, limit: nat, k: Key)
    requires Ready(t, cs, rs, side, ticket, names, next, limit) && Merge(t, cs, 0, |cs|, ticket, names).ok && k < limit
    ensures var root, retired := MergedRoot(t, cs, ticket, names), Merge(t, cs, 0, |cs|, ticket, names).retired;
            && Ordered(root, side, 0, limit) && Distinct(root)
            && Get(root, side, ticket, k) == Written(rs, 0, |cs|, k, Get(t, side, ticket, k))
            && M.Once(retired) && H.Elements(retired) == Ids(t) - Ids(root)
            && (forall x :: x in Ids(root) - Ids(t) ==> Made(x, ticket) || x in RunIds(cs, 0, |cs|))
  {
    hide Ordered, Distinct, Ids, AllIds, AllDistinct, Formed, Prepared, Clean, Merge, Exact, RunIds, Get, Written;
    ReadyParts(t, cs, rs, side, ticket, names, next, limit);
    MergeOk(t, cs, rs, 0, |cs|, ticket, names, side, 0, limit, ticket, k);
    MergeShares(t, cs, 0, |cs|, ticket, names);
    var m := Merge(t, cs, 0, |cs|, ticket, names);
    var root := MergedRoot(t, cs, ticket, names);
    RootIds(t, m.run, root, m.retired, cs, ticket, names);
    match m.run {
      case One(u) =>
      case Two(left, sep, right) => Ok.PairOk(root, m.run, side, 0, limit, ticket, k);
    }
    RetiredIsLost(Ids(root), Ids(t), m.retired, cs, 0, |cs|, ticket, names);
    ExactNew(Ids(root), Ids(t), m.retired, cs, ticket, names);
  }

  lemma RootIds(t: Node, run: Run, root: Node, retired: seq<Id>, cs: seq<Change>, ticket: nat, names: Names)
    requires AllDistinct(RunNodes(run)) && Exact(AllIds(RunNodes(run)), Ids(t), retired, RunIds(cs, 0, |cs|), ticket, names)
    requires New(ticket, names(t.id), Root) !in AllIds(RunNodes(run))
    requires match run
             case One(u) => root == u
             case Two(left, sep, right) => root.Inner? && root.id == New(ticket, names(t.id), Root) && root.chs == [left, right]
    ensures Distinct(root) && Exact(Ids(root), Ids(t), retired, RunIds(cs, 0, |cs|), ticket, names)
  {
    hide Ids, AllIds, AllDistinct, Distinct, RunIds;
    match run {
      case One(u) => AllIdsOne(u);
      case Two(left, sep, right) =>
        assert root.chs == RunNodes(run);
        NodeIds(root);
        IdIn(t);
        assert names(t.id) in Numbers(Ids(t), names);
    }
  }

  lemma ExactNew(ids: set<Id>, was: set<Id>, retired: seq<Id>, cs: seq<Change>, ticket: nat, names: Names)
    requires Exact(ids, was, retired, RunIds(cs, 0, |cs|), ticket, names)
    ensures M.Once(retired) && forall x :: x in ids - was ==> Made(x, ticket) || x in RunIds(cs, 0, |cs|)
  {
    hide RunIds;
  }

  /** What a batch retires in all: the nodes its merge replaced, then what its
      checkpoint does not take over. */
  function BatchRetired(t: Node, cs: seq<Change>, ticket: nat, names: Names): seq<Id> {
    var m := Merge(t, cs, 0, |cs|, ticket, names);
    m.retired + if m.checkpoint then VisitRetired(MergedRoot(t, cs, ticket, names)) else []
  }

  lemma RootNamed(t: Node, cs: seq<Change>, ticket: nat, root: Node, next: nat)
    requires NamedBelow(Ids(t), next) && NamedBelow(RunIds(cs, 0, |cs|), next)
    requires forall x :: x in Ids(root) - Ids(t) ==> Made(x, ticket) || x in RunIds(cs, 0, |cs|)
    ensures NamedBelow(Ids(root), next)
  {
    hide Ids, RunIds;
  }

  lemma BatchParts(t: Node, cs: seq<Change>, rs: seq<Request>, side: Side, ticket: nat, names: Names, next: nat, limit: nat)
    requires Ready(t, cs, rs, side, ticket, names, next, limit)
    ensures NamedBelow(Ids(t), next) && NamedBelow(RunIds(cs, 0, |cs|), next) && NoSlots(side, next)
  {
    hide Ordered, Distinct, Ids, Prepared, Clean, RunIds, NoSlots;
  }

  lemma TwoParts(was: set<Id>, mid: set<Id>, ids: set<Id>, a: seq<Id>, c: seq<Id>)
    requires M.Once(a) && H.Elements(a) == was - mid && M.Once(c) && H.Elements(c) == mid - ids && was * ids <= mid
    ensures M.Once(a + c) && H.Elements(a + c) == (was + mid) - ids
  {
    M.Appended(a, c);
  }

  /** A published batch, checkpoint included: every key shows its latest value,
      the order of keys is kept, no node occurs twice, and exactly the nodes of the
      old and the merged tree that the published one lacks are retired, once
      each. */
  lemma BatchPublished(t: Node, cs: seq<Change>, rs: seq<Request>, side: Side, ticket: nat, names: Names, next: nat, limit: nat, k: Key)
    requires Ready(t, cs, rs, side, ticket, names, next, limit) && Accepted(t, cs, 0, |cs|) && k < limit
    requires MergeStep(t, side, cs, ticket, names, next).Some?
    ensures var u, root, given := MergeStep(t, side, cs, ticket, names, next).value, MergedRoot(t, cs, ticket, names), BatchRetired(t, cs, ticket, names);
            && Ordered(u, side, 0, limit) && Distinct(u)
            && Get(u, side, ticket, k) == Written(rs, 0, |cs|, k, Get(t, side, ticket, k))
            && M.Once(given) && H.Elements(given) == (Ids(t) + Ids(root)) - Ids(u)
  {
    hide Ordered, Distinct, Ids, Prepared, Clean, RunIds, Merge, Get, Rebuild, Written, VisitRetired, Accepted, NoSlots, Pairs, LeafAbove, Meets, Ready;
    BatchAccepted(t, cs, rs, side, ticket, names, next, limit);
    RootOk(t, cs, rs, side, ticket, names, next, limit, k);
    var m, root := Merge(t, cs, 0, |cs|, ticket, names), MergedRoot(t, cs, ticket, names);
    if m.checkpoint {
      BatchParts(t, cs, rs, side, ticket, names, next, limit);
      RootNamed(t, cs, ticket, root, next);
      CheckpointKeeps(root, side, ticket, next, limit, k);
      CheckpointNames(root, side, ticket, next);
      var u := Rebuild(root, side, ticket, next).value;
      Between(Ids(t), Ids(root), Ids(u), next);
      TwoParts(Ids(t), Ids(root), Ids(u), m.retired, VisitRetired(root));
    } else {
      assert m.retired + [] == m.retired;
    }
  }

  lemma Between(was: set<Id>, mid: set<Id>, ids: set<Id>, next: nat)
    requires NamedBelow(was, next) && forall x :: x in ids - mid ==> x.Built? && x.index >= next
    ensures was * ids <= mid
  {
  }
}
