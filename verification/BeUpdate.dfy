/** One update of a BeTree: upper and boundary nodes are only copied, the
    elastic subtree below takes the splits. */
module BeUpdate {
  import opened Records
  import opened Nodes
  import opened BeTree
  import BTreeCow

  datatype Request = Request(ticket: nat, key: Key, val: Val)

  /** One or two nodes, and the separator between them. */
  datatype Run = One(t: Node) | Two(left: Node, sep: Key, right: Node)

  // ---- the copies -----------------------------------------------------------

  /** update_leaf_cow: the leaf's map at the ticket with the key set, cut in the
      middle when it is too long. */
  function LeafCopies(t: Node, side: Side, r: Request, stage: nat): Run
    requires t.Leaf?
  {
    if |t.keys| != |t.vals| then One(t) else
    var m := View(t, side, r.ticket)[r.key := r.val];
    var ks := Ascending(m.Keys);
    BTreeCow.AscendingIn(m.Keys);
    CutLeaves(ks, ValuesOf(m, ks), t.verge, r, stage)
  }

  function CutLeaves(ks: seq<Key>, vs: seq<Val>, verge: nat, r: Request, stage: nat): Run
    requires |ks| == |vs|
  {
    var n := |ks|;
    if n <= MAX_KEYS then One(Leaf(New(r.ticket, stage, WholeLeaf), r.ticket, verge, ks, vs))
    else Two(Leaf(New(r.ticket, stage, LeftLeaf), r.ticket, 0, ks[..n/2], vs[..n/2]), ks[n/2],
             Leaf(New(r.ticket, stage, RightLeaf), r.ticket, 0, ks[n/2..], vs[n/2..]))
  }

  function SpliceKeys(keys: seq<Key>, i: nat, run: Run): seq<Key>
    requires i <= |keys|
  {
    if run.One? then keys else keys[..i] + [run.sep] + keys[i..]
  }

  /** A child store, or insert_child. */
  function SpliceKids(chs: seq<Node>, i: nat, run: Run): seq<Node>
    requires i < |chs|
  {
    if run.One? then chs[i := run.t] else chs[..i] + [run.left, run.right] + chs[i+1..]
  }

  /** copy_internal, with other children. */
  function Copied(t: Node, id: Id, ticket: nat, keys: seq<Key>, chs: seq<Node>): Node
    requires t.Inner?
  {
    Inner(id, ticket, t.kind, t.verge, t.height, keys, chs)
  }

  /** split: two lower nodes of the same height, one of them on the way. */
  function Halves(t: Node, side: Side, r: Request, stage: nat): Run
    requires t.Inner? && |t.keys| == MAX_KEYS && |t.chs| == 2 * B
    decreases t, 1
  {
    var sep := t.keys[B-1];
    var l, h := New(r.ticket, stage, LeftHalf), New(r.ticket, stage, RightHalf);
    if r.key < sep then
      var d := Descend(t.keys[..B-1], t.chs[..B], side, r, stage + 1);
      Two(Inner(l, r.ticket, Lower, 0, t.height, d.0, d.1), sep, Inner(h, r.ticket, Lower, 0, t.height, t.keys[B..], t.chs[B..]))
    else
      var d := Descend(t.keys[B..], t.chs[B..], side, r, stage + 1);
      Two(Inner(l, r.ticket, Lower, 0, t.height, t.keys[..B-1], t.chs[..B]), sep, Inner(h, r.ticket, Lower, 0, t.height, d.0, d.1))
  }

  /** What takes the place of a node below an elastic root. */
  function Replace(t: Node, side: Side, r: Request, stage: nat): Run
    decreases t, 2
  {
    if t.Leaf? then LeafCopies(t, side, r, stage)
    else if |t.chs| != |t.keys| + 1 then One(t)
    else if |t.keys| == MAX_KEYS then Halves(t, side, r, stage)
    else
      var d := Descend(t.keys, t.chs, side, r, stage + 1);
      One(Copied(t, New(r.ticket, stage, WholeNode), r.ticket, d.0, d.1))
  }

  /** update_lower_cow on a node with room for one more child: full children are
      split on the way down. */
  function Descend(keys: seq<Key>, chs: seq<Node>, side: Side, r: Request, stage: nat): (seq<Key>, seq<Node>)
    decreases chs, 0
  {
    var i := FindCh(keys, r.key);
    if i >= |chs| then (keys, chs) else
    var run := Replace(chs[i], side, r, stage);
    (SpliceKeys(keys, i, run), SpliceKids(chs, i, run))
  }

  /** handle_elastic: the root of an elastic subtree never splits; a node one
      higher takes its halves. */
  function Raised(t: Node, run: Run, r: Request, stage: nat): Node {
    match run
    case One(u) => u
    case Two(left, sep, right) => Inner(New(r.ticket, stage, Root), r.ticket, Lower, 0, HeightOf(t) + 1, [sep], [left, right])
  }

  datatype Outcome = Outcome(t: Node, checkpoint: bool)

  /** update_upper_cow and handle_elastic from the root on: the new tree, and
      whether it asks for a checkpoint. */
  function Update(t: Node, side: Side, r: Request, stage: nat): Outcome
    decreases t
  {
    if t.Leaf? then
      match LeafCopies(t, side, r, stage)
      case One(u) => Outcome(u, false)
      case Two(left, sep, right) => Outcome(Inner(New(r.ticket, stage, Root), r.ticket, Boundary, t.verge, 0, [sep], [left, right]), false)
    else
      var i := FindCh(t.keys, r.key);
      var id := New(r.ticket, stage, WholeNode);
      if i >= |t.chs| then Outcome(t, false)
      else if t.kind == Boundary then
        var u := Raised(t.chs[i], Replace(t.chs[i], side, r, stage + 1), r, stage + 1);
        Outcome(Copied(t, id, r.ticket, t.keys, t.chs[i := u]), HeightOf(u) > HeightOf(t.chs[i]) && HeightOf(u) > E)
      else
        var o := Update(t.chs[i], side, r, stage + 1);
        Outcome(Copied(t, id, r.ticket, t.keys, t.chs[i := o.t]), o.checkpoint)
  }

  // ---- elastic subtrees -----------------------------------------------------

  /** Children of one height. */
  ghost predicate Even(chs: seq<Node>, height: nat) {
    forall i :: 0 <= i < |chs| ==> Low(chs[i]) && HeightOf(chs[i]) == height
  }

  ghost predicate RunLow(run: Run, height: nat) {
    match run
    case One(t) => Low(t) && HeightOf(t) == height
    case Two(left, _, right) => Low(left) && HeightOf(left) == height && Low(right) && HeightOf(right) == height
  }

  lemma EvenIs(t: Node)
    requires t.Inner?
    ensures Low(t) <==> t.kind == Lower && Sized(t) && Even(t.chs, BeTree.Below(t.height))
  {
  }

  lemma SpliceEven(keys: seq<Key>, chs: seq<Node>, i: nat, run: Run, height: nat)
    requires i < |chs| == |keys| + 1 && Even(chs, height) && RunLow(run, height)
    ensures var ks, cs := SpliceKeys(keys, i, run), SpliceKids(chs, i, run);
            && Even(cs, height) && |cs| == |ks| + 1 && |keys| <= |ks| <= |keys| + 1
  {
    hide Low;
    var cs := SpliceKids(chs, i, run);
    forall j | 0 <= j < |cs| ensures Low(cs[j]) && HeightOf(cs[j]) == height {
      if run.Two? && j >= i + 2 { assert cs[j] == chs[j-1]; }
    }
  }

  lemma {:induction false} DescendEven(keys: seq<Key>, chs: seq<Node>, side: Side, r: Request, stage: nat, height: nat)
    requires |chs| == |keys| + 1 && Even(chs, height)
    ensures var d := Descend(keys, chs, side, r, stage);
            Even(d.1, height) && |d.1| == |d.0| + 1 && |keys| <= |d.0| <= |keys| + 1
    decreases chs, 0
  {
    hide Low, Replace;
    var i := FindCh(keys, r.key);
    ReplaceLow(chs[i], side, r, stage);
    SpliceEven(keys, chs, i, Replace(chs[i], side, r, stage), height);
  }

  lemma {:induction false} ReplaceLow(t: Node, side: Side, r: Request, stage: nat)
    requires Low(t)
    ensures RunLow(Replace(t, side, r, stage), HeightOf(t))
    decreases t, 2
  {
    hide Low, Descend, LeafCopies, Halves;
    if t.Leaf? {
      LeavesLow(t, side, r, stage);
    } else {
      EvenIs(t);
      if |t.keys| == MAX_KEYS {
        HalvesLow(t, side, r, stage);
      } else {
        DescendEven(t.keys, t.chs, side, r, stage + 1, BeTree.Below(t.height));
        var d := Descend(t.keys, t.chs, side, r, stage + 1);
        EvenIs(Copied(t, New(r.ticket, stage, WholeNode), r.ticket, d.0, d.1));
      }
    }
  }

  lemma LeavesLow(t: Node, side: Side, r: Request, stage: nat)
    requires t.Leaf?
    ensures RunLow(LeafCopies(t, side, r, stage), 0)
  {
    hide View, Ascending;
  }

  lemma {:induction false} HalvesLow(t: Node, side: Side, r: Request, stage: nat)
    requires t.Inner? && Low(t) && |t.keys| == MAX_KEYS && |t.chs| == 2 * B
    ensures RunLow(Halves(t, side, r, stage), HeightOf(t))
    decreases t, 1
  {
    hide Low, Descend;
    EvenIs(t);
    var c := BeTree.Below(t.height);
    EvenParts(t.chs, c);
    if r.key < t.keys[B-1] {
      DescendEven(t.keys[..B-1], t.chs[..B], side, r, stage + 1, c);
    } else {
      DescendEven(t.keys[B..], t.chs[B..], side, r, stage + 1, c);
    }
    var run := Halves(t, side, r, stage);
    EvenIs(run.left);
    EvenIs(run.right);
  }

  lemma EvenParts(chs: seq<Node>, height: nat)
    requires Even(chs, height) && |chs| == 2 * B
    ensures Even(chs[..B], height) && Even(chs[B..], height)
  {
    hide Low;
  }

  lemma RaisedLow(t: Node, run: Run, r: Request, stage: nat)
    requires RunLow(run, HeightOf(t))
    ensures var u := Raised(t, run, r, stage);
            Low(u) && HeightOf(t) <= HeightOf(u) <= HeightOf(t) + 1
  {
    hide Low;
    if run.Two? {
      var u := Raised(t, run, r, stage);
      assert Even(u.chs, HeightOf(t));
      EvenIs(u);
    }
  }

  // ---- the whole tree -------------------------------------------------------

  lemma SameTopRefl(t: Node, h: nat)
    requires Elastic(t, h)
    ensures SameTop(t, t, h)
    decreases t
  {
    if h > 0 {
      forall i | 0 <= i < |t.chs| ensures SameTop(t.chs[i], t.chs[i], h - 1) {
        SameTopRefl(t.chs[i], h - 1);
      }
    }
  }

  lemma {:induction false} AtMostMore(t: Node, h: nat, a: nat, b: nat)
    requires AtMost(t, h, a) && a <= b
    ensures AtMost(t, h, b)
    decreases t
  {
    if t.Inner? && h > 0 {
      forall i | 0 <= i < |t.chs| ensures AtMost(t.chs[i], h - 1, b) {
        AtMostMore(t.chs[i], h - 1, a, b);
      }
    }
  }

  /** A node with one child replaced. */
  lemma ChildHeights(t: Node, u: Node, h: nat, i: nat, flag: bool)
    requires t.Inner? && u.Inner? && i < |t.chs| == |u.chs| && u.chs == t.chs[i := u.chs[i]] && AtMost(t, h, E)
    requires h == 0 ==> HeightOf(u.chs[i]) <= E + 1 && (flag <==> HeightOf(u.chs[i]) > E)
    requires h > 0 ==> AtMost(u.chs[i], h - 1, E + 1) && (flag <==> !AtMost(u.chs[i], h - 1, E))
    ensures AtMost(u, h, E + 1) && (flag <==> !AtMost(u, h, E))
  {
    if h > 0 {
      forall j | 0 <= j < |u.chs| ensures AtMost(u.chs[j], h - 1, E + 1) {
        if j != i { AtMostMore(t.chs[j], h - 1, E, E + 1); }
      }
    }
  }

  /** The elastic invariant under one update: upper and boundary nodes keep their
      separators and the number of their children, heights stay stacked one by
      one, and a subtree grows above E only with a request for a checkpoint. */
  lemma {:induction false} UpdateKeeps(t: Node, h: nat, side: Side, r: Request, stage: nat)
    requires Elastic(t, h)
    ensures var o := Update(t, side, r, stage);
            && Elastic(o.t, h) && SameTop(t, o.t, h)
            && (AtMost(t, h, E) ==> AtMost(o.t, h, E + 1) && (o.checkpoint <==> !AtMost(o.t, h, E)))
    decreases t
  {
    hide Low, Replace, Raised, AtMost;
    var i := FindCh(t.keys, r.key);
    var o := Update(t, side, r, stage);
    if h == 0 {
      ReplaceLow(t.chs[i], side, r, stage + 1);
      RaisedLow(t.chs[i], Replace(t.chs[i], side, r, stage + 1), r, stage + 1);
      assert o.t.chs[i] == Raised(t.chs[i], Replace(t.chs[i], side, r, stage + 1), r, stage + 1);
    } else {
      UpdateKeeps(t.chs[i], h - 1, side, r, stage + 1);
      forall j | 0 <= j < |t.chs| ensures SameTop(t.chs[j], o.t.chs[j], h - 1) && Elastic(o.t.chs[j], h - 1) {
        if j != i { SameTopRefl(t.chs[j], h - 1); }
      }
      assert o.t.chs[i] == Update(t.chs[i], side, r, stage + 1).t;
    }
    if AtMost(t, h, E) {
      ChildAtMost(t, h, i, E);
      ChildHeights(t, o.t, h, i, o.checkpoint);
    }
  }

  lemma ChildAtMost(t: Node, h: nat, i: nat, e: nat)
    requires t.Inner? && i < |t.chs| && AtMost(t, h, e)
    ensures if h == 0 then HeightOf(t.chs[i]) <= e else AtMost(t.chs[i], h - 1, e)
  {
  }

  /** So the tree stays wide enough for a rebuild. */
  lemma {:induction false} SameTopWide(t: Node, u: Node, h: nat)
    requires SameTop(t, u, h)
    ensures Wide(t, h) ==> Wide(u, h)
    ensures WideRoot(t, h) ==> WideRoot(u, h)
    decreases t
  {
    if h > 0 {
      forall i | 0 <= i < |t.chs| ensures Wide(t.chs[i], h - 1) ==> Wide(u.chs[i], h - 1) {
        SameTopWide(t.chs[i], u.chs[i], h - 1);
      }
    }
  }
}
