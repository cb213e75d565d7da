/** Batched leaf replacement in a BeTree: full nodes below the boundary are cut in
    two, a boundary's child that is cut is wrapped instead, and the upper part
    keeps its shape. */
module BeMerge {
  import opened Records
  import opened Nodes
  import opened BeTree
  import opened BeUpdate

  /** A leaf to be replaced, named by its identity, and what replaces it. */
  datatype Change = Change(leaf: Id, route: Key, run: Run)

  ghost predicate LeafRuns(cs: seq<Change>) {
    forall i :: 0 <= i < |cs| ==> LeafRun(cs[i].run)
  }

  predicate LeafRun(run: Run) {
    if run.One? then run.t.Leaf? else run.left.Leaf? && run.right.Leaf?
  }

  /** The first change from b on that is not below the bound. */
  function Cut(cs: seq<Change>, b: nat, e: nat, bound: Key): (r: nat)
    requires b <= e <= |cs|
    ensures b <= r <= e
    decreases e - b
  {
    if b < e && cs[b].route < bound then Cut(cs, b + 1, e, bound) else b
  }

  /** What a merge makes of a node; `ok` is false after an exception. */
  datatype Merged = Merged(run: Run, checkpoint: bool, retired: seq<Id>, ok: bool)

  /** The same for the children of one node. */
  datatype Kids = Kids(keys: seq<Key>, chs: seq<Node>, checkpoint: bool, retired: seq<Id>, ok: bool)

  /** A new node is named after the old one it takes the place of, by a numbering
      of the old nodes. */
  type Names = Id -> nat

  /** internal_like: a node of the model's type, verge and height. */
  function Like(t: Node, ticket: nat, names: Names, role: Role, keys: seq<Key>, chs: seq<Node>): Node
    requires t.Inner?
  {
    Copied(t, New(ticket, names(t.id), role), ticket, keys, chs)
  }

  /** One node if the children fit, else two halves. */
  function Pack(t: Node, ticket: nat, names: Names, keys: seq<Key>, chs: seq<Node>): Run
    requires t.Inner? && |chs| == |keys| + 1
  {
    var n := |chs|;
    if n <= 2 * B then One(Like(t, ticket, names, WholeNode, keys, chs))
    else Two(Like(t, ticket, names, LeftHalf, keys[..n/2-1], chs[..n/2]), keys[n/2-1], Like(t, ticket, names, RightHalf, keys[n/2..], chs[n/2..]))
  }

  /** elastic_parent, for a child of the boundary that was cut. */
  function Wrapped(t: Node, run: Run, ticket: nat, names: Names): Node {
    match run
    case One(u) => u
    case Two(left, sep, right) =>
      Inner(New(ticket, names(t.id), Root), ticket, Lower, t.verge, HeightOf(t) + 1, [sep], [left, right])
  }

  /** merge. */
  function Merge(t: Node, cs: seq<Change>, b: nat, e: nat, ticket: nat, names: Names): Merged
    requires b <= e <= |cs|
    decreases t, 0, 0
  {
    if b == e then Merged(One(t), false, [], true)
    else if t.Leaf? then Merged(cs[b].run, false, [t.id], e == b + 1 && cs[b].leaf == t.id)
    else if |t.chs| != |t.keys| + 1 then Merged(One(t), false, [], false)
    else if t.kind == Boundary then
      var k := BoundaryKids(t.keys, t.chs, 0, cs, b, e, ticket, names);
      Merged(One(Like(t, ticket, names, WholeNode, t.keys, k.chs)), k.checkpoint, k.retired + [t.id], k.ok)
    else
      var k := MergeKids(t.keys, t.chs, 0, cs, b, e, ticket, names);
      Merged(Pack(t, ticket, names, k.keys, k.chs), k.checkpoint, k.retired + [t.id], k.ok)
  }

  /** The loop over the children of an upper or lower node. */
  function MergeKids(keys: seq<Key>, chs: seq<Node>, i: nat, cs: seq<Change>, b: nat, e: nat, ticket: nat, names: Names): (k: Kids)
    requires i < |chs| == |keys| + 1 && b <= e <= |cs|
    ensures |k.chs| == |k.keys| + 1
    decreases chs, 1, |chs| - i
  {
    var m := if i == |keys| then e else Cut(cs, b, e, keys[i]);
    var c := Merge(chs[i], cs, b, m, ticket, names);
    var ks := if c.run.One? then [] else [c.run.sep];
    var ts := if c.run.One? then [c.run.t] else [c.run.left, c.run.right];
    if i == |keys| then Kids(ks, ts, c.checkpoint, c.retired, c.ok)
    else
      var rest := MergeKids(keys, chs, i + 1, cs, m, e, ticket, names);
      Kids(ks + [keys[i]] + rest.keys, ts + rest.chs, c.checkpoint || rest.checkpoint, c.retired + rest.retired, c.ok && rest.ok)
  }

  /** The loop over the children of a boundary node: as many as before. */
  function BoundaryKids(keys: seq<Key>, chs: seq<Node>, i: nat, cs: seq<Change>, b: nat, e: nat, ticket: nat, names: Names): (k: Kids)
    requires i < |chs| == |keys| + 1 && b <= e <= |cs|
    ensures |k.chs| == |chs| - i
    decreases chs, 1, |chs| - i
  {
    var m := if i == |keys| then e else Cut(cs, b, e, keys[i]);
    var c := Merge(chs[i], cs, b, m, ticket, names);
    var u := Wrapped(chs[i], c.run, ticket, names);
    var flag := c.checkpoint || (c.run.Two? && HeightOf(chs[i]) + 1 > E);
    if i == |keys| then Kids([], [u], flag, c.retired, c.ok)
    else
      var rest := BoundaryKids(keys, chs, i + 1, cs, m, e, ticket, names);
      Kids([], [u] + rest.chs, flag || rest.checkpoint, c.retired + rest.retired, c.ok && rest.ok)
  }

  // ---- below the boundary ---------------------------------------------------

  lemma LeafRunLow(run: Run)
    requires LeafRun(run)
    ensures RunLow(run, 0)
  {
  }

  lemma EvenJoin(a: seq<Node>, b: seq<Node>, height: nat)
    requires Even(a, height) && Even(b, height)
    ensures Even(a + b, height)
  {
    hide Low;
  }

  lemma PackLow(t: Node, ticket: nat, names: Names, keys: seq<Key>, chs: seq<Node>)
    requires t.Inner? && t.kind == Lower && 2 <= |chs| == |keys| + 1 <= 4 * B && Even(chs, BeTree.Below(t.height))
    ensures RunLow(Pack(t, ticket, names, keys, chs), t.height)
  {
    hide Low;
    var n := |chs|;
    var run := Pack(t, ticket, names, keys, chs);
    if n <= 2 * B {
      EvenIs(run.t);
    } else {
      assert Even(chs[..n/2], BeTree.Below(t.height)) && Even(chs[n/2..], BeTree.Below(t.height));
      EvenIs(run.left);
      EvenIs(run.right);
    }
  }

  /** A merge below the boundary keeps heights, cuts a node in two at most, and
      asks for nothing. */
  lemma {:induction false} MergeLow(t: Node, cs: seq<Change>, b: nat, e: nat, ticket: nat, names: Names)
    requires Low(t) && LeafRuns(cs) && b <= e <= |cs|
    ensures var m := Merge(t, cs, b, e, ticket, names); RunLow(m.run, HeightOf(t)) && !m.checkpoint
    decreases t, 0, 0
  {
    hide Low, MergeKids, BoundaryKids, Pack, LeafRun;
    if b < e {
      if t.Leaf? {
        LeafRunLow(cs[b].run);
      } else {
        EvenIs(t);
        MergeKidsEven(t.keys, t.chs, 0, cs, b, e, ticket, names, BeTree.Below(t.height));
        var k := MergeKids(t.keys, t.chs, 0, cs, b, e, ticket, names);
        PackLow(t, ticket, names, k.keys, k.chs);
      }
    }
  }

  lemma {:induction false} MergeKidsEven(keys: seq<Key>, chs: seq<Node>, i: nat, cs: seq<Change>, b: nat, e: nat, ticket: nat, names: Names, height: nat)
    requires i < |chs| == |keys| + 1 && b <= e <= |cs| && LeafRuns(cs) && Even(chs, height)
    ensures var k := MergeKids(keys, chs, i, cs, b, e, ticket, names);
            Even(k.chs, height) && !k.checkpoint && |chs| - i <= |k.chs| <= 2 * (|chs| - i)
    decreases chs, 1, |chs| - i
  {
    hide Low, Merge, LeafRuns;
    var m := if i == |keys| then e else Cut(cs, b, e, keys[i]);
    MergeLow(chs[i], cs, b, m, ticket, names);
    var c := Merge(chs[i], cs, b, m, ticket, names);
    var ts := if c.run.One? then [c.run.t] else [c.run.left, c.run.right];
    assert Even(ts, height);
    if i < |keys| {
      MergeKidsEven(keys, chs, i + 1, cs, m, e, ticket, names, height);
      EvenJoin(ts, MergeKids(keys, chs, i + 1, cs, m, e, ticket, names).chs, height);
    }
  }

  // ---- boundary and above ---------------------------------------------------

  lemma WrappedLow(t: Node, run: Run, ticket: nat, names: Names)
    requires RunLow(run, HeightOf(t))
    ensures var u := Wrapped(t, run, ticket, names);
            Low(u) && HeightOf(u) == HeightOf(t) + if run.Two? then 1 else 0
  {
    hide Low;
    if run.Two? {
      var u := Wrapped(t, run, ticket, names);
      assert Even(u.chs, HeightOf(t));
      EvenIs(u);
    }
  }

  ghost predicate AllLow(chs: seq<Node>) {
    forall i :: 0 <= i < |chs| ==> Low(chs[i])
  }

  ghost predicate UpTo(chs: seq<Node>, e: nat) {
    forall i :: 0 <= i < |chs| ==> HeightOf(chs[i]) <= e
  }

  lemma {:induction false} BoundaryLow(keys: seq<Key>, chs: seq<Node>, i: nat, cs: seq<Change>, b: nat, e: nat, ticket: nat, names: Names)
    requires i < |chs| == |keys| + 1 && b <= e <= |cs| && LeafRuns(cs) && AllLow(chs)
    ensures var k := BoundaryKids(keys, chs, i, cs, b, e, ticket, names);
            AllLow(k.chs) && (UpTo(chs, E) ==> UpTo(k.chs, E + 1) && (k.checkpoint <==> !UpTo(k.chs, E)))
    decreases |chs| - i
  {
    hide Low, Merge, LeafRuns;
    var m := if i == |keys| then e else Cut(cs, b, e, keys[i]);
    MergeLow(chs[i], cs, b, m, ticket, names);
    var c := Merge(chs[i], cs, b, m, ticket, names);
    WrappedLow(chs[i], c.run, ticket, names);
    var u := Wrapped(chs[i], c.run, ticket, names);
    if i < |keys| {
      BoundaryLow(keys, chs, i + 1, cs, m, e, ticket, names);
      var rest := BoundaryKids(keys, chs, i + 1, cs, m, e, ticket, names).chs;
      ConsUpTo(u, rest, E);
      ConsUpTo(u, rest, E + 1);
    } else {
      ConsUpTo(u, [], E);
      ConsUpTo(u, [], E + 1);
      assert [u] + [] == [u];
    }
  }

  lemma ConsUpTo(u: Node, rest: seq<Node>, e: nat)
    ensures UpTo([u] + rest, e) <==> HeightOf(u) <= e && UpTo(rest, e)
  {
    var all := [u] + rest;
    if UpTo(all, e) {
      assert all[0] == u;
      forall i | 0 <= i < |rest| ensures HeightOf(rest[i]) <= e { assert all[i + 1] == rest[i]; }
    }
  }

  /** Upper nodes one by one. */
  ghost predicate SameRow(chs: seq<Node>, us: seq<Node>, i: nat, h: nat) {
    && i + |us| == |chs|
    && (forall j :: 0 <= j < |us| ==> Elastic(us[j], h) && SameTop(chs[i + j], us[j], h))
  }

  ghost predicate RowAtMost(us: seq<Node>, h: nat, e: nat) {
    forall j :: 0 <= j < |us| ==> AtMost(us[j], h, e)
  }

  lemma ConsAtMost(u: Node, rest: seq<Node>, h: nat, e: nat)
    ensures RowAtMost([u] + rest, h, e) <==> AtMost(u, h, e) && RowAtMost(rest, h, e)
  {
    hide AtMost;
    var all := [u] + rest;
    if RowAtMost(all, h, e) {
      assert all[0] == u;
      forall i | 0 <= i < |rest| ensures AtMost(rest[i], h, e) { assert all[i + 1] == rest[i]; }
    }
  }

  /** The elastic invariant under a batch merge. */
  lemma {:induction false} MergeKeeps(t: Node, h: nat, cs: seq<Change>, b: nat, e: nat, ticket: nat, names: Names)
    requires Elastic(t, h) && LeafRuns(cs) && b <= e <= |cs|
    ensures var m := Merge(t, cs, b, e, ticket, names);
            && m.run.One? && Elastic(m.run.t, h) && SameTop(t, m.run.t, h)
            && (AtMost(t, h, E) ==> AtMost(m.run.t, h, E + 1) && (m.checkpoint <==> !AtMost(m.run.t, h, E)))
    decreases t, 0, 0
  {
    hide Low, MergeKids, BoundaryKids, LeafRuns;
    if b == e {
      SameTopRefl(t, h);
      if AtMost(t, h, E) { AtMostMore(t, h, E, E + 1); }
    } else if h == 0 {
      BoundaryLow(t.keys, t.chs, 0, cs, b, e, ticket, names);
    } else {
      MergeKidsSame(t.keys, t.chs, 0, h - 1, cs, b, e, ticket, names);
    }
  }

  lemma {:induction false} MergeKidsSame(keys: seq<Key>, chs: seq<Node>, i: nat, h: nat, cs: seq<Change>, b: nat, e: nat, ticket: nat, names: Names)
    requires i < |chs| == |keys| + 1 && b <= e <= |cs| && LeafRuns(cs) && forall j :: 0 <= j < |chs| ==> Elastic(chs[j], h)
    ensures var k := MergeKids(keys, chs, i, cs, b, e, ticket, names);
            && k.keys == keys[i..] && SameRow(chs, k.chs, i, h)
            && (RowAtMost(chs, h, E) ==> RowAtMost(k.chs, h, E + 1) && (k.checkpoint <==> !RowAtMost(k.chs, h, E)))
    decreases chs, 1, |chs| - i
  {
    hide Elastic, SameTop, AtMost, Merge, LeafRuns, SameRow, RowAtMost;
    var m := if i == |keys| then e else Cut(cs, b, e, keys[i]);
    MergeKeeps(chs[i], h, cs, b, m, ticket, names);
    var u := Merge(chs[i], cs, b, m, ticket, names).run.t;
    KidAtMost(chs, h, i);
    if i < |keys| {
      MergeKidsSame(keys, chs, i + 1, h, cs, m, e, ticket, names);
      var rest := MergeKids(keys, chs, i + 1, cs, m, e, ticket, names).chs;
      ConsSame(chs, u, rest, i, h);
      ConsAtMost(u, rest, h, E);
      ConsAtMost(u, rest, h, E + 1);
      assert keys[i..] == [] + [keys[i]] + keys[i+1..];
    } else {
      NoneSame(chs, h);
      ConsSame(chs, u, [], i, h);
      ConsAtMost(u, [], h, E);
      ConsAtMost(u, [], h, E + 1);
      assert [u] + [] == [u] && keys[i..] == [];
    }
  }

  lemma KidAtMost(chs: seq<Node>, h: nat, i: nat)
    requires i < |chs|
    ensures RowAtMost(chs, h, E) ==> AtMost(chs[i], h, E)
  {
    hide AtMost;
  }

  lemma NoneSame(chs: seq<Node>, h: nat)
    ensures SameRow(chs, [], |chs|, h) && RowAtMost([], h, E) && RowAtMost([], h, E + 1)
  {
  }

  lemma ConsSame(chs: seq<Node>, u: Node, rest: seq<Node>, i: nat, h: nat)
    requires i < |chs| && Elastic(u, h) && SameTop(chs[i], u, h) && SameRow(chs, rest, i + 1, h)
    ensures SameRow(chs, [u] + rest, i, h)
  {
    hide Elastic, SameTop;
    var us := [u] + rest;
    forall j | 0 <= j < |us| ensures Elastic(us[j], h) && SameTop(chs[i + j], us[j], h) {
      if j > 0 { assert us[j] == rest[j-1] && i + j == (i + 1) + (j - 1); }
    }
  }
}
