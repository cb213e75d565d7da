/** Merging a wave's replaced leaves into a B+Tree in one recursive pass. */
module BTreeMerge {
  import opened Options
  import opened Records
  import opened Nodes
  import opened BTree
  import opened BTreeCow

  /** A replaced leaf: the key it was prepared for, and the one or two leaves
      that stand in for it. */
  datatype Change = Change(leaf: Tree, route: Key, ticket: nat, val: Val, run: Seg)
  {
    ghost predicate Shaped() {
      1 <= |run.chs| <= 2 && |run.chs| == |run.keys| + 1
    }

    /** prepare_fat_leaf on the leaf's slots. */
    ghost predicate Prepared(side: Side) {
      leaf.Leaf? && |leaf.keys| == |leaf.vals| && run == ReplaceLeaf(leaf, side, ticket, 0, route, val)
    }
  }

  ghost predicate Ascends(cs: seq<Change>) {
    forall i, j :: 0 <= i < j < |cs| ==> cs[i].route <= cs[j].route
  }

  ghost predicate AllShaped(cs: seq<Change>) {
    forall i :: 0 <= i < |cs| ==> cs[i].Shaped()
  }

  /** The changes from b on that belong left of a separator. */
  function Cut(cs: seq<Change>, b: nat, e: nat, key: Key): (m: nat)
    requires b <= e <= |cs|
    ensures b <= m <= e
    ensures forall j :: b <= j < m ==> cs[j].route < key
    ensures m < e ==> cs[m].route >= key
    decreases e - b
  {
    if b < e && cs[b].route < key then Cut(cs, b + 1, e, key) else b
  }

  // ---- the merged tree ------------------------------------------------------

  /** A run of siblings, and the number of internal nodes owned so far. */
  datatype Merged = Merged(run: Seg, next: nat)

  /** The rebuilt children as one node, or cut in half as two. */
  function Pack(s: Seg, version: nat, n: nat): (r: Merged)
    requires |s.chs| == |s.keys| + 1 && |s.chs| >= 1
    ensures 1 <= |r.run.chs| <= 2 && |r.run.chs| == |r.run.keys| + 1
  {
    if |s.chs| <= 2 * B then Merged(One(Node(New(version, n, WholeNode), version, s)), n + 1)
    else
      var half := |s.chs| / 2;
      Merged(Two(Node(New(version, n, WholeNode), version, Before(s, half - 1)), s.keys[half-1],
                 Node(New(version, n + 1, WholeNode), version, After(s, half - 1))), n + 2)
  }

  function Merge(t: Tree, cs: seq<Change>, b: nat, e: nat, version: nat, n: nat): (r: Merged)
    requires b <= e <= |cs| && AllShaped(cs)
    ensures 1 <= |r.run.chs| <= 2 && |r.run.chs| == |r.run.keys| + 1
    decreases t, 0
  {
    if b == e then Merged(One(t), n) else
    match t
    case Leaf(_, _, _, _) => Merged(cs[b].run, n)
    case Node(_, _, kids) =>
      if |kids.chs| != |kids.keys| + 1 then Merged(One(t), n) else
      var m := MergeKids(kids, 0, cs, b, e, version, n);
      Pack(m.run, version, m.next)
  }

  function MergeKids(s: Seg, i: nat, cs: seq<Change>, b: nat, e: nat, version: nat, n: nat): (r: Merged)
    requires b <= e <= |cs| && AllShaped(cs) && i < |s.chs| == |s.keys| + 1
    ensures |s.chs| - i <= |r.run.chs| == |r.run.keys| + 1 <= 2 * (|s.chs| - i)
    decreases s, |s.chs| - i
  {
    if i == |s.keys| then Merge(s.chs[i], cs, b, e, version, n)
    else
      var m := Cut(cs, b, e, s.keys[i]);
      var r := Merge(s.chs[i], cs, b, m, version, n);
      var rest := MergeKids(s, i + 1, cs, m, e, version, r.next);
      Merged(Join(r.run, s.keys[i], rest.run), rest.next)
  }

  /** The root after the merge. */
  function MergedRoot(t: Tree, cs: seq<Change>, version: nat): Tree
    requires AllShaped(cs)
  {
    var m := Merge(t, cs, 0, |cs|, version, 0);
    if |m.run.chs| == 1 then m.run.chs[0] else Node(New(version, m.next, WholeNode), version, m.run)
  }

  function MergedHeight(t: Tree, h: nat, cs: seq<Change>, version: nat): nat
    requires AllShaped(cs)
  {
    if |Merge(t, cs, 0, |cs|, version, 0).run.chs| == 1 then h else h + 1
  }

  /** The nodes replaced, children before parents. */
  function Replaced(t: Tree, cs: seq<Change>, b: nat, e: nat): seq<Id>
    requires b <= e <= |cs|
    decreases t, 0
  {
    if b == e then [] else
    match t
    case Leaf(id, _, _, _) => [id]
    case Node(id, _, kids) => if |kids.chs| != |kids.keys| + 1 then [] else ReplacedKids(kids, 0, cs, b, e) + [id]
  }

  function ReplacedKids(s: Seg, i: nat, cs: seq<Change>, b: nat, e: nat): seq<Id>
    requires b <= e <= |cs| && i < |s.chs| == |s.keys| + 1
    decreases s, |s.chs| - i
  {
    if i == |s.keys| then Replaced(s.chs[i], cs, b, e)
    else
      var m := Cut(cs, b, e, s.keys[i]);
      Replaced(s.chs[i], cs, b, m) + ReplacedKids(s, i + 1, cs, m, e)
  }

  /** No leaf is stale or replaced twice. */
  predicate Accepted(t: Tree, cs: seq<Change>, b: nat, e: nat)
    requires b <= e <= |cs|
    decreases t, 0
  {
    b == e ||
    match t
    case Leaf(id, _, _, _) => e == b + 1 && cs[b].leaf.id == id
    case Node(_, _, kids) => |kids.chs| == |kids.keys| + 1 && AcceptedKids(kids, 0, cs, b, e)
  }

  predicate AcceptedKids(s: Seg, i: nat, cs: seq<Change>, b: nat, e: nat)
    requires b <= e <= |cs| && i < |s.chs| == |s.keys| + 1
    decreases s, |s.chs| - i
  {
    if i == |s.keys| then Accepted(s.chs[i], cs, b, e)
    else
      var m := Cut(cs, b, e, s.keys[i]);
      Accepted(s.chs[i], cs, b, m) && AcceptedKids(s, i + 1, cs, m, e)
  }

  // ---- the pass over the arrays ---------------------------------------------

  datatype Branch = Branch(left: Tree, right: Option<Tree>, separator: Key)
  {
    function Run(): Seg {
      if right.Some? then Two(left, separator, right.value) else One(left)
    }
  }

  function BranchOf(run: Seg): (b: Branch)
    requires 1 <= |run.chs| <= 2 && |run.chs| == |run.keys| + 1
    ensures b.Run() == run
  {
    if |run.chs| == 1 then Branch(run.chs[0], None, 0) else Branch(run.chs[0], Some(run.chs[1]), run.keys[0])
  }

  /** Every node's arrays fit its fixed capacity. */
  ghost predicate Bounded(t: Tree)
    decreases t
  {
    t.Node? ==> |t.kids.chs| == |t.kids.keys| + 1 && |t.kids.keys| <= MAX_KEYS
                && forall i :: 0 <= i < |t.kids.chs| ==> Bounded(t.kids.chs[i])
  }

  class FatMerge {
    var owned: seq<Tree>
    var retired: seq<Id>

    constructor ()
      ensures owned == [] && retired == []
    {
      owned, retired := [], [];
    }

    method Internal(version: nat, children: array<Tree>, keys: array<Key>, from: nat, count: nat) returns (t: Tree)
      requires 1 <= count && from + count <= children.Length && from + count - 1 <= keys.Length
      modifies this`owned
      ensures t == Node(New(version, old(|owned|), WholeNode), version, Seg(keys[from..from+count-1], children[from..from+count]))
      ensures owned == old(owned) + [t]
    {
      t := Node(New(version, |owned|, WholeNode), version, Seg(keys[from..from+count-1], children[from..from+count]));
      owned := owned + [t];
    }

    /** merge: rebuilds the nodes above the changes, and stops at a leaf that
        is stale or replaced twice. */
    method MergeInto(t: Tree, cs: seq<Change>, b: nat, e: nat, version: nat) returns (ok: bool, result: Branch)
      requires b <= e <= |cs| && AllShaped(cs) && Bounded(t)
      modifies this
      ensures ok == Accepted(t, cs, b, e)
      ensures ok ==> result.Run() == Merge(t, cs, b, e, version, old(|owned|)).run
                     && |owned| == Merge(t, cs, b, e, version, old(|owned|)).next
                     && retired == old(retired) + Replaced(t, cs, b, e)
      decreases t, 1
    {
      if b == e {
        return true, Branch(t, None, 0);
      }
      match t {
        case Leaf(id, _, _, _) =>
          if e != b + 1 || cs[b].leaf.id != id {
            return false, Branch(t, None, 0);
          }
          retired := retired + [id];
          return true, BranchOf(cs[b].run);
        case Node(id, _, kids) =>
          var children, keys, count;
          ok, children, keys, count := MergeChildren(kids, cs, b, e, version);
          if !ok {
            return false, Branch(t, None, 0);
          }
          retired := retired + [id];
          result := PackArrays(version, children, keys, count);
      }
    }

    /** build: the merged tree, with a new root when the old one split. */
    method Build(t: Tree, cs: seq<Change>, version: nat) returns (ok: bool, root: Tree)
      requires owned == [] && AllShaped(cs) && Bounded(t)
      modifies this
      ensures ok == Accepted(t, cs, 0, |cs|)
      ensures ok ==> root == MergedRoot(t, cs, version) && retired == old(retired) + Replaced(t, cs, 0, |cs|)
    {
      var result;
      ok, result := MergeInto(t, cs, 0, |cs|, version);
      root := result.left;
      if ok && result.right.Some? {
        var children, keys := new Tree[2](i => if i == 0 then result.left else result.right.value), new Key[1](_ => result.separator);
        root := Internal(version, children, keys, 0, 2);
        assert children[0..2] == [result.left, result.right.value] && keys[0..1] == [result.separator];
      }
    }

    /** One node if the children fit, else two halves. */
    method PackArrays(version: nat, children: array<Tree>, keys: array<Key>, count: nat) returns (result: Branch)
      requires 1 <= count <= children.Length && count - 1 <= keys.Length
      modifies this`owned
      ensures var p := Pack(Seg(keys[..count-1], children[..count]), version, old(|owned|));
              result.Run() == p.run && |owned| == p.next
    {
      if count <= 2 * B {
        var only := Internal(version, children, keys, 0, count);
        return Branch(only, None, 0);
      }
      var half := count / 2;
      var left := Internal(version, children, keys, 0, half);
      var right := Internal(version, children, keys, half, count - half);
      result := Branch(left, Some(right), keys[half-1]);
      HalvesAre(children[..count], keys[..count-1], half);
      assert children[..count][..half] == children[..half] && children[..count][half..] == children[half..count];
      assert keys[..count-1][..half-1] == keys[..half-1] && keys[..count-1][half..] == keys[half..count-1];
    }

    /** The loop over the children: each can become at most two, so 4 * B
        places are enough. */
    method MergeChildren(s: Seg, cs: seq<Change>, b: nat, e: nat, version: nat)
      returns (ok: bool, children: array<Tree>, keys: array<Key>, count: nat)
      requires b <= e <= |cs| && AllShaped(cs)
      requires |s.chs| == |s.keys| + 1 && |s.keys| <= MAX_KEYS && forall i :: 0 <= i < |s.chs| ==> Bounded(s.chs[i])
      modifies this
      ensures fresh(children) && fresh(keys) && children.Length == 4 * B && keys.Length == 4 * B - 1
      ensures ok == AcceptedKids(s, 0, cs, b, e)
      ensures ok ==> 1 <= count <= children.Length
                     && MergeKids(s, 0, cs, b, e, version, old(|owned|)) == Merged(Seg(keys[..count-1], children[..count]), |owned|)
                     && retired == old(retired) + ReplacedKids(s, 0, cs, b, e)
      decreases s, 0
    {
      hide Merge, Replaced, Accepted, MergeKids, ReplacedKids, AcceptedKids, Cut;
      children := new Tree[4 * B](_ => s.chs[0]);
      keys := new Key[4 * B - 1](_ => 0);
      count := 0;
      ok := true;
      var first := b;
      var i := 0;
      ghost var run := Seg([], []);
      ghost var n0, r0 := |owned|, retired;
      while i <= |s.keys|
        invariant 0 <= i <= |s.chs| && b <= first <= e && i <= count <= 2 * i
        invariant fresh(children) && fresh(keys) && children.Length == 4 * B && keys.Length == 4 * B - 1
        invariant i > 0 ==> run == Seg(keys[..count-1], children[..count])
        invariant Standing(s, i, cs, b, first, e, version, n0, run, |owned|)
        invariant retired + RetiredFrom(s, i, cs, first, e) == r0 + ReplacedKids(s, 0, cs, b, e)
        invariant AcceptedFrom(s, i, cs, first, e) == AcceptedKids(s, 0, cs, b, e)
        decreases |s.chs| - i
      {
        var last := Advance(s, i, cs, first, e);
        StandingStep(s, i, cs, b, first, last, e, version, n0, run, |owned|);
        RetiredStep(s, i, cs, first, last, e, retired);
        AcceptedStep(s, i, cs, first, last, e);
        var result;
        ok, result := MergeInto(s.chs[i], cs, first, last, version);
        if !ok {
          return;
        }
        run := Extended(run, s, i, result.Run());
        count := Put(s, i, children, keys, count, result);
        first := last;
        i := i + 1;
      }
      StandingEnds(s, cs, b, first, e, version, n0, run, |owned|);
    }
  }

  method Advance(s: Seg, i: nat, cs: seq<Change>, first: nat, e: nat) returns (last: nat)
    requires first <= e <= |cs| && i <= |s.keys|
    ensures last == LastOf(s, i, cs, first, e)
  {
    last := first;
    while last < e && (i == |s.keys| || cs[last].route < s.keys[i])
      invariant first <= last <= e
      invariant LastOf(s, i, cs, first, e) == LastOf(s, i, cs, last, e)
    {
      last := last + 1;
    }
  }

  method Put(s: Seg, i: nat, children: array<Tree>, keys: array<Key>, count: nat, result: Branch) returns (now: nat)
    requires i <= |s.keys| && i <= count <= 2 * i && children.Length == 4 * B && keys.Length == 4 * B - 1 && |s.keys| <= MAX_KEYS
    requires i > 0 ==> count > 0
    modifies children, keys
    ensures i + 1 <= now <= 2 * i + 2
    ensures Seg(keys[..now-1], children[..now])
            == if i == 0 then result.Run()
               else Join(Seg(old(keys[..count-1]), old(children[..count])), s.keys[i-1], result.Run())
  {
    now := count;
    if now > 0 {
      keys[now-1] := s.keys[i-1];
    }
    children[now] := result.left;
    now := now + 1;
    if result.right.Some? {
      keys[now-1] := result.separator;
      children[now] := result.right.value;
      now := now + 1;
    }
  }

  /** Where the changes of child i end. */
  function LastOf(s: Seg, i: nat, cs: seq<Change>, first: nat, e: nat): (last: nat)
    requires first <= e <= |cs| && i <= |s.keys|
    ensures first <= last <= e
  {
    if i == |s.keys| then e else Cut(cs, first, e, s.keys[i])
  }

  // ---- the loop's meaning ---------------------------------------------------

  function Extended(run: Seg, s: Seg, i: nat, r: Seg): Seg
    requires i <= |s.keys|
  {
    if i == 0 then r else Join(run, s.keys[i-1], r)
  }

  /** What is in the arrays, followed by the children still to come. */
  ghost predicate Standing(s: Seg, i: nat, cs: seq<Change>, b: nat, first: nat, e: nat, version: nat, n0: nat, run: Seg, n: nat)
    requires b <= first <= e <= |cs| && AllShaped(cs) && i <= |s.chs| == |s.keys| + 1
  {
    var all := MergeKids(s, 0, cs, b, e, version, n0);
    if i == |s.chs| then all == Merged(run, n)
    else
      var rest := MergeKids(s, i, cs, first, e, version, n);
      all == Merged(Extended(run, s, i, rest.run), rest.next)
  }

  lemma StandingStep(s: Seg, i: nat, cs: seq<Change>, b: nat, first: nat, last: nat, e: nat, version: nat, n0: nat, run: Seg, n: nat)
    requires b <= first <= e <= |cs| && AllShaped(cs) && i <= |s.keys| && |s.chs| == |s.keys| + 1
    requires last == LastOf(s, i, cs, first, e)
    requires Standing(s, i, cs, b, first, e, version, n0, run, n)
    ensures var r := Merge(s.chs[i], cs, first, last, version, n);
            Standing(s, i + 1, cs, b, last, e, version, n0, Extended(run, s, i, r.run), r.next)
  {
    hide Merge, Cut;
    if i < |s.keys| {
      var r := Merge(s.chs[i], cs, first, last, version, n);
      var rest := MergeKids(s, i + 1, cs, last, e, version, r.next);
      if i > 0 {
        JoinJoin(run, s.keys[i-1], r.run, s.keys[i], rest.run);
      }
    }
  }

  lemma StandingEnds(s: Seg, cs: seq<Change>, b: nat, first: nat, e: nat, version: nat, n0: nat, run: Seg, n: nat)
    requires b <= first <= e <= |cs| && AllShaped(cs) && |s.chs| == |s.keys| + 1
    requires Standing(s, |s.chs|, cs, b, first, e, version, n0, run, n)
    ensures MergeKids(s, 0, cs, b, e, version, n0) == Merged(run, n)
  {
  }

  lemma JoinJoin(a: Seg, k: Key, b: Seg, l: Key, c: Seg)
    ensures Join(Join(a, k, b), l, c) == Join(a, k, Join(b, l, c))
  {
    assert (a.keys + [k] + b.keys) + [l] + c.keys == a.keys + [k] + (b.keys + [l] + c.keys);
    assert (a.chs + b.chs) + c.chs == a.chs + (b.chs + c.chs);
  }

  function RetiredFrom(s: Seg, i: nat, cs: seq<Change>, first: nat, e: nat): seq<Id>
    requires first <= e <= |cs| && i <= |s.chs| == |s.keys| + 1
  {
    if i == |s.chs| then [] else ReplacedKids(s, i, cs, first, e)
  }

  lemma RetiredStep(s: Seg, i: nat, cs: seq<Change>, first: nat, last: nat, e: nat, before: seq<Id>)
    requires first <= e <= |cs| && i <= |s.keys| && |s.chs| == |s.keys| + 1 && last == LastOf(s, i, cs, first, e)
    ensures before + RetiredFrom(s, i, cs, first, e) == before + Replaced(s.chs[i], cs, first, last) + RetiredFrom(s, i + 1, cs, last, e)
  {
    hide Replaced, Cut;
    var a, c := Replaced(s.chs[i], cs, first, last), RetiredFrom(s, i + 1, cs, last, e);
    assert before + a + c == before + (a + c);
    assert i == |s.keys| ==> a + c == a;
  }

  function AcceptedFrom(s: Seg, i: nat, cs: seq<Change>, first: nat, e: nat): bool
    requires first <= e <= |cs| && i <= |s.chs| == |s.keys| + 1
  {
    i == |s.chs| || AcceptedKids(s, i, cs, first, e)
  }

  lemma AcceptedStep(s: Seg, i: nat, cs: seq<Change>, first: nat, last: nat, e: nat)
    requires first <= e <= |cs| && i <= |s.keys| && |s.chs| == |s.keys| + 1 && last == LastOf(s, i, cs, first, e)
    ensures AcceptedFrom(s, i, cs, first, e) == (Accepted(s.chs[i], cs, first, last) && AcceptedFrom(s, i + 1, cs, last, e))
  {
    hide Accepted, Cut;
  }

  /** The two halves of the arrays are the halves of the run. */
  lemma HalvesAre(children: seq<Tree>, keys: seq<Key>, half: nat)
    requires |children| == |keys| + 1 && 1 <= half < |children|
    ensures Before(Seg(keys, children), half - 1) == Seg(keys[..half-1], children[..half])
    ensures After(Seg(keys, children), half - 1) == Seg(keys[half..], children[half..])
  {
  }
}
