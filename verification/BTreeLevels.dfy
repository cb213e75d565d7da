/** The path-copying update, stage by stage: what each level of the search path
    is replaced by, and how facts about new nodes and shared nodes add up to
    facts about the whole new tree. */
module BTreeLevels {
  import opened Records
  import opened BTree
  import opened BTreeCow

  /** The node at a depth of the search path. */
  function PathNode(t: Tree, key: Key, k: nat): Tree
    decreases k
  {
    if k == 0 || t.Leaf? then t
    else
      var i := FindCh(t.kids.keys, key);
      if i < |t.kids.chs| then PathNode(t.kids.chs[i], key, k - 1) else t
  }

  /** The child the search descends to. */
  function Toward(t: Tree, key: Key): Tree {
    PathNode(t, key, 1)
  }

  /** The nodes a stage puts in place of a path node that is h levels above the
      leaves. */
  function RunFor(t: Tree, h: nat, side: Side, ticket: nat, stage: nat, key: Key, val: Val): Seg
    requires t.Leaf? ==> |t.keys| == |t.vals|
    requires t.Node? ==> h > 0 && |t.kids.chs| == |t.kids.keys| + 1
  {
    if t.Leaf? then ReplaceLeaf(t, side, ticket, stage, key, val)
    else if |t.kids.keys| == MAX_KEYS then Halves(t.kids, h - 1, side, ticket, stage, key, val)
    else One(Copy(t, h - 1, side, ticket, stage, key, val))
  }

  lemma PathStep(t: Tree, key: Key, k: nat)
    ensures PathNode(t, key, k + 1) == Toward(PathNode(t, key, k), key)
    decreases k
  {
    if k > 0 && t.Node? {
      var i := FindCh(t.kids.keys, key);
      if i < |t.kids.chs| {
        PathStep(t.kids.chs[i], key, k - 1);
      }
    }
  }

  /** Path nodes of a well-formed tree are well-formed, and lie h - k levels
      above the leaves. */
  lemma {:induction false} PathWf(t: Tree, side: Side, lo: nat, hi: nat, h: nat, key: Key, k: nat) returns (l: nat, r: nat)
    requires Wf(t, side, lo, hi, h) && lo <= key < hi && k <= h
    ensures lo <= l <= key < r <= hi && Wf(PathNode(t, key, k), side, l, r, h - k)
    decreases k
  {
    if k == 0 {
      l, r := lo, hi;
    } else {
      var i := FindCh(t.kids.keys, key);
      l, r := PathWf(t.kids.chs[i], side, LoAt(t.kids.keys, lo, i), HiAt(t.kids.keys, hi, i), h - 1, key, k - 1);
    }
  }

  ghost predicate PathOk(t: Tree, key: Key, h: nat) {
    forall k :: 0 <= k <= h ==> Shaped(PathNode(t, key, k), h - k)
  }

  /** What the stages need of a path node. */
  ghost predicate Shaped(t: Tree, h: int) {
    match t
    case Leaf(_, _, keys, vals) => h == 0 && |keys| == |vals|
    case Node(_, _, kids) => h > 0 && |kids.chs| == |kids.keys| + 1 && 1 <= |kids.keys| <= MAX_KEYS && Sorted(kids.keys)
  }

  lemma WfPath(t: Tree, side: Side, lo: nat, hi: nat, h: nat, key: Key)
    requires Wf(t, side, lo, hi, h) && lo <= key < hi
    ensures PathOk(t, key, h)
  {
    forall k | 0 <= k <= h
      ensures Shaped(PathNode(t, key, k), h - k)
    {
      var l, r := PathWf(t, side, lo, hi, h, key, k);
    }
  }

  /** The run that replaces level k. */
  ghost function LevelRun(t: Tree, h: nat, side: Side, ticket: nat, key: Key, val: Val, k: nat): Seg
    requires PathOk(t, key, h) && k <= h
  {
    RunFor(PathNode(t, key, k), h - k, side, ticket, k, key, val)
  }

  lemma CowIsTopRun(t: Tree, h: nat, side: Side, ticket: nat, key: Key, val: Val)
    requires PathOk(t, key, h)
    ensures PathNode(t, key, 0) == t && Shaped(t, h)
    ensures Cow(t, h, side, ticket, key, val) == Wrap(LevelRun(t, h, side, ticket, key, val, 0), ticket)
  {
    assert Shaped(PathNode(t, key, 0), h - 0);
  }

  /** A node of the search path is copied with its child replaced. */
  lemma GrowIsSplice(kids: Seg, h: nat, side: Side, ticket: nat, stage: nat, key: Key, val: Val)
    requires |kids.chs| == |kids.keys| + 1
    requires Shaped(kids.chs[FindCh(kids.keys, key)], h)
    ensures Grow(kids, h, side, ticket, stage, key, val)
            == Splice(kids, FindCh(kids.keys, key), RunFor(kids.chs[FindCh(kids.keys, key)], h, side, ticket, stage + 1, key, val))
  {
  }

  // ---- all nodes ------------------------------------------------------------

  ghost predicate AllNodes(t: Tree, q: Tree -> bool)
    decreases t
  {
    q(t) && (t.Node? ==> AllKids(t.kids, q))
  }

  ghost predicate AllKids(s: Seg, q: Tree -> bool)
    decreases s
  {
    forall i :: 0 <= i < |s.chs| ==> AllNodes(s.chs[i], q)
  }

  /** The new nodes themselves. */
  ghost predicate Tops(s: Seg, q: Tree -> bool) {
    forall i :: 0 <= i < |s.chs| ==> q(s.chs[i])
  }

  ghost predicate OwnFrom(t: Tree, h: nat, side: Side, ticket: nat, key: Key, val: Val, q: Tree -> bool, k: nat)
    requires PathOk(t, key, h)
  {
    forall j :: k <= j <= h ==> Tops(LevelRun(t, h, side, ticket, key, val, j), q)
  }

  lemma SpliceKids(s: Seg, i: nat, r: Seg, q: Tree -> bool)
    requires i < |s.chs| == |s.keys| + 1 && |r.chs| == |r.keys| + 1 && AllKids(s, q) && AllKids(r, q)
    ensures AllKids(Splice(s, i, r), q)
  {
    SpliceSlices(s, i, r);
    var c := Splice(s, i, r).chs;
    forall j | 0 <= j < |c| ensures AllNodes(c[j], q) {
      if j < i {
        assert c[j] == s.chs[j];
      } else if j < i + |r.chs| {
        assert c[j] == r.chs[j - i];
      } else {
        assert c[j] == s.chs[j - |r.chs| + 1];
      }
    }
  }

  lemma PathAll(t: Tree, key: Key, k: nat, q: Tree -> bool)
    requires AllNodes(t, q)
    ensures AllNodes(PathNode(t, key, k), q)
    decreases k
  {
    if k > 0 && t.Node? {
      var i := FindCh(t.kids.keys, key);
      if i < |t.kids.chs| {
        PathAll(t.kids.chs[i], key, k - 1, q);
      }
    }
  }

  /** Shared nodes bring their facts along; the new ones of each level are the
      only others. */
  lemma {:induction false} LevelAll(t: Tree, h: nat, side: Side, ticket: nat, key: Key, val: Val, q: Tree -> bool, k: nat)
    requires PathOk(t, key, h) && k <= h && AllNodes(t, q) && OwnFrom(t, h, side, ticket, key, val, q, k)
    ensures AllKids(LevelRun(t, h, side, ticket, key, val, k), q)
    decreases h - k
  {
    hide PathOk, RunFor, PathNode, Tops, AllKids, AllNodes, Shaped;
    assert Tops(LevelRun(t, h, side, ticket, key, val, k), q);
    ShapedAt(t, key, h, k);
    if k == h {
      RunLeafAll(PathNode(t, key, k), side, ticket, k, key, val, q);
    } else {
      LevelAll(t, h, side, ticket, key, val, q, k + 1);
      PathAll(t, key, k, q);
      PathStep(t, key, k);
      ShapedAt(t, key, h, k + 1);
      RunAll(PathNode(t, key, k), h - k - 1, side, ticket, k, key, val, q);
    }
  }

  lemma RunLeafAll(past: Tree, side: Side, ticket: nat, stage: nat, key: Key, val: Val, q: Tree -> bool)
    requires Shaped(past, 0) && Tops(RunFor(past, 0, side, ticket, stage, key, val), q)
    ensures AllKids(RunFor(past, 0, side, ticket, stage, key, val), q)
  {
    hide ReplaceLeaf;
    LeavesOnly(past, side, ticket, stage, key, val);
  }

  lemma LeavesOnly(t: Tree, side: Side, ticket: nat, stage: nat, key: Key, val: Val)
    requires t.Leaf? && |t.keys| == |t.vals|
    ensures forall i :: 0 <= i < |ReplaceLeaf(t, side, ticket, stage, key, val).chs| ==> ReplaceLeaf(t, side, ticket, stage, key, val).chs[i].Leaf?
  {
    hide LeafView, Ascending, ValuesOf;
  }

  lemma RunAll(past: Tree, h: nat, side: Side, ticket: nat, stage: nat, key: Key, val: Val, q: Tree -> bool)
    requires Shaped(past, h + 1) && Shaped(Toward(past, key), h) && AllNodes(past, q)
    requires Tops(RunFor(past, h + 1, side, ticket, stage, key, val), q)
    requires AllKids(RunFor(Toward(past, key), h, side, ticket, stage + 1, key, val), q)
    ensures AllKids(RunFor(past, h + 1, side, ticket, stage, key, val), q)
  {
    hide AllKids, AllNodes, PathNode, Halves;
    if |past.kids.keys| == MAX_KEYS {
      HalvesAll(past, h, side, ticket, stage, key, val, q);
    } else {
      assert RunFor(past, h + 1, side, ticket, stage, key, val).chs[0] == Copy(past, h, side, ticket, stage, key, val);
      CopyAll(past, h, side, ticket, stage, key, val, q);
    }
  }

  lemma ShapedAt(t: Tree, key: Key, h: nat, k: nat)
    requires PathOk(t, key, h) && k <= h
    ensures Shaped(PathNode(t, key, k), h - k)
  {
  }

  lemma CopyAll(past: Tree, h: nat, side: Side, ticket: nat, stage: nat, key: Key, val: Val, q: Tree -> bool)
    requires Shaped(past, h + 1) && Shaped(Toward(past, key), h) && AllNodes(past, q)
    requires q(Copy(past, h, side, ticket, stage, key, val))
    requires AllKids(RunFor(Toward(past, key), h, side, ticket, stage + 1, key, val), q)
    ensures AllKids(One(Copy(past, h, side, ticket, stage, key, val)), q)
  {
    var i := FindCh(past.kids.keys, key);
    assert Toward(past, key) == past.kids.chs[i] by { assert PathNode(past.kids.chs[i], key, 0) == past.kids.chs[i]; }
    GrowIsSplice(past.kids, h, side, ticket, stage, key, val);
    RunShape(past.kids.chs[i], h, side, ticket, stage + 1, key, val);
    SpliceKids(past.kids, i, RunFor(past.kids.chs[i], h, side, ticket, stage + 1, key, val), q);
  }

  lemma RunShape(t: Tree, h: nat, side: Side, ticket: nat, stage: nat, key: Key, val: Val)
    requires Shaped(t, h)
    ensures var r := RunFor(t, h, side, ticket, stage, key, val); 1 <= |r.chs| <= 2 && |r.chs| == |r.keys| + 1
  {
  }

  /** The half of a full node the key belongs to. */
  function HalfFor(kids: Seg, key: Key): Seg
    requires |kids.keys| == MAX_KEYS && |kids.chs| == |kids.keys| + 1
  {
    if key < kids.keys[B-1] then Before(kids, B-1) else After(kids, B-1)
  }

  /** The search goes on in that half as it would in the whole node. */
  lemma HalfToward(t: Tree, key: Key)
    requires t.Node? && |t.kids.keys| == MAX_KEYS && |t.kids.chs| == |t.kids.keys| + 1 && Sorted(t.kids.keys)
    ensures var half := HalfFor(t.kids, key);
            && |half.chs| == |half.keys| + 1 == B
            && half.chs[FindCh(half.keys, key)] == Toward(t, key)
  {
    var l, r := Before(t.kids, B-1), After(t.kids, B-1);
    var sep := t.kids.keys[B-1];
    assert t.kids.keys == l.keys + [sep] + r.keys;
    assert t.kids.chs == l.chs + r.chs;
    JoinPosition(l.keys, sep, r.keys, key, if key < sep then FindCh(l.keys, key) else |l.keys| + 1 + FindCh(r.keys, key));
    var i := FindCh(t.kids.keys, key);
    assert PathNode(t.kids.chs[i], key, 0) == t.kids.chs[i];
  }

  lemma HalvesAll(past: Tree, h: nat, side: Side, ticket: nat, stage: nat, key: Key, val: Val, q: Tree -> bool)
    requires Shaped(past, h + 1) && |past.kids.keys| == MAX_KEYS && Shaped(Toward(past, key), h) && AllNodes(past, q)
    requires Tops(Halves(past.kids, h, side, ticket, stage, key, val), q)
    requires AllKids(RunFor(Toward(past, key), h, side, ticket, stage + 1, key, val), q)
    ensures AllKids(Halves(past.kids, h, side, ticket, stage, key, val), q)
  {
    var kids := past.kids;
    var l, r := Before(kids, B-1), After(kids, B-1);
    var half := HalfFor(kids, key);
    HalfToward(past, key);
    assert AllKids(l, q) by { assert forall j :: 0 <= j < |l.chs| ==> l.chs[j] == kids.chs[j]; }
    assert AllKids(r, q) by { assert forall j :: 0 <= j < |r.chs| ==> r.chs[j] == kids.chs[B + j]; }
    var i := FindCh(half.keys, key);
    GrowIsSplice(half, h, side, ticket, stage, key, val);
    RunShape(half.chs[i], h, side, ticket, stage + 1, key, val);
    SpliceKids(half, i, RunFor(half.chs[i], h, side, ticket, stage + 1, key, val), q);
    var hs := Halves(kids, h, side, ticket, stage, key, val);
    assert hs.chs[0].kids == (if key < kids.keys[B-1] then Grow(l, h, side, ticket, stage, key, val) else l);
    assert hs.chs[1].kids == (if key < kids.keys[B-1] then r else Grow(r, h, side, ticket, stage, key, val));
  }

  /** A fact that holds of all nodes of a tree and of the nodes an update
      creates holds of all nodes of the updated tree. */
  lemma CowAll(t: Tree, h: nat, side: Side, ticket: nat, key: Key, val: Val, q: Tree -> bool)
    requires PathOk(t, key, h) && AllNodes(t, q) && OwnFrom(t, h, side, ticket, key, val, q, 0)
    requires q(Cow(t, h, side, ticket, key, val))
    ensures AllNodes(Cow(t, h, side, ticket, key, val), q)
  {
    hide PathOk;
    CowIsTopRun(t, h, side, ticket, key, val);
    LevelAll(t, h, side, ticket, key, val, q, 0);
    RunShape(t, h, side, ticket, 0, key, val);
    var run := LevelRun(t, h, side, ticket, key, val, 0);
    assert AllNodes(run.chs[0], q);
  }
}
