/** BeTrees over whole runs: every update and every batch keeps the elastic
    shape, and checkpoints come in time. */
module BeRun {
  import opened Options
  import opened Nodes
  import opened BeTree
  import opened BeUpdate
  import opened BeMerge
  import opened BeRebuild
  import opened BeCheckpoint
  import opened BeFull

  /** What every published tree is: h upper levels over a boundary, wide enough
      to be rebuilt, with elastic subtrees no higher than E. */
  ghost predicate Published(t: Node, h: nat) {
    Elastic(t, h) && AtMost(t, h, E) && WideRoot(t, h) && t.verge == h
  }

  /** cow_update: the path copy, and a rebuild when it asks for one; none where
      that rebuild is undefined. */
  function CopyStep(t: Node, side: Side, r: Request, next: nat): Option<Node> {
    var o := Update(t, side, r, 0);
    if o.checkpoint then Rebuild(o.t, side, r.ticket, next) else Some(o.t)
  }

  /** The root of a merge, before any checkpoint. */
  function MergedRoot(t: Node, cs: seq<Change>, ticket: nat, names: Names): Node {
    match Merge(t, cs, 0, |cs|, ticket, names).run
    case One(u) => u
    case Two(left, sep, right) =>
      Inner(New(ticket, names(t.id), Root), ticket, if t.Leaf? then Boundary else t.kind, t.verge, if t.Leaf? then 0 else t.height + 1, [sep], [left, right])
  }

  /** fat_merge::build. */
  function MergeStep(t: Node, side: Side, cs: seq<Change>, ticket: nat, names: Names, next: nat): Option<Node> {
    var root := MergedRoot(t, cs, ticket, names);
    if Merge(t, cs, 0, |cs|, ticket, names).checkpoint then Rebuild(root, side, ticket, next) else Some(root)
  }

  /** A tree that has grown too high is rebuilt into a published one. */
  lemma Rebuilt(t: Node, h: nat, side: Side, v: nat, next: nat)
    requires Elastic(t, h) && WideRoot(t, h) && t.verge == h
    ensures Rebuild(t, side, v, next).Some? && Published(Rebuild(t, side, v, next).value, h)
  {
    hide Elastic, AtMost, WideRoot, RebuildUpper, RebuildEntire, LeafAbove, Meets, Rebuild;
    NoLeafAbove(t, h);
    ElasticMeets(t, h);
    RebuildDefined(t, side, v, next);
    RebuildFit(t, h, next);
    AtMostMore(RebuildUpper(t, h, next), h, 0, E);
  }

  lemma TopVerge(t: Node, u: Node, h: nat)
    requires SameTop(t, u, h)
    ensures t.Inner? && u.Inner? && u.verge == t.verge
  {
  }

  /** Each update publishes a tree of the same shape again. */
  lemma StepPublishes(t: Node, h: nat, side: Side, r: Request, next: nat)
    requires Published(t, h)
    ensures CopyStep(t, side, r, next).Some? && Published(CopyStep(t, side, r, next).value, h)
  {
    hide Elastic, AtMost, WideRoot, SameTop, Rebuild, Update;
    var o := Update(t, side, r, 0);
    UpdateKeeps(t, h, side, r, 0);
    SameTopWide(t, o.t, h);
    TopVerge(t, o.t, h);
    if o.checkpoint {
      Rebuilt(o.t, h, side, r.ticket, next);
    }
  }

  /** So does each batch of leaf replacements. */
  lemma MergePublishes(t: Node, h: nat, side: Side, cs: seq<Change>, ticket: nat, names: Names, next: nat)
    requires Published(t, h) && LeafRuns(cs)
    ensures MergeStep(t, side, cs, ticket, names, next).Some? && Published(MergeStep(t, side, cs, ticket, names, next).value, h)
  {
    hide Elastic, AtMost, WideRoot, SameTop, Rebuild, Merge, LeafRuns;
    var m := Merge(t, cs, 0, |cs|, ticket, names);
    MergeKeeps(t, h, cs, 0, |cs|, ticket, names);
    SameTopWide(t, m.run.t, h);
    TopVerge(t, m.run.t, h);
    if m.checkpoint {
      Rebuilt(m.run.t, h, side, ticket, next);
    }
  }
}
