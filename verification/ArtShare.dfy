/** What a path copy of a radix tree shares with its source, and what it
    retires. */
module ArtShare {
  import opened Records
  import opened Nodes
  import opened Art
  import opened ArtCow

  function Ids(t: Node): set<Id>
    decreases t, 0
  {
    match t
    case Leaf(id, _, _, _, _) => {id}
    case Branch(id, _, _, _, _, _, chs) => {id} + AllIds(chs)
  }

  function AllIds(ts: seq<Node>): set<Id>
    decreases ts, 0
  {
    set i, x | 0 <= i < |ts| && x in Ids(ts[i]) :: x
  }

  /** No physical node occurs twice. */
  ghost predicate Distinct(t: Node)
    decreases t, 0
  {
    t.Branch? ==> t.id !in AllIds(t.chs) && AllDistinct(t.chs)
  }

  ghost predicate AllDistinct(ts: seq<Node>)
    decreases ts, 0
  {
    && (forall i :: 0 <= i < |ts| ==> Distinct(ts[i]))
    && (forall i, j :: 0 <= i < j < |ts| ==> Ids(ts[i]) !! Ids(ts[j]))
  }

  predicate Fresh(x: Id, ticket: nat, stage: nat) {
    x.New? && x.ticket == ticket && x.stage >= stage
  }

  ghost predicate NoneOf(ids: set<Id>, ticket: nat) {
    forall x :: x in ids ==> !(x.New? && x.ticket == ticket)
  }

  /** All of the old nodes but the path, and otherwise only new ones. */
  ghost predicate Shares(ids: set<Id>, nodes: set<Id>, path: seq<Id>, ticket: nat, stage: nat) {
    && (forall x :: x in ids ==> (x in nodes && x !in path) || Fresh(x, ticket, stage))
    && (forall x :: x in nodes && x !in path ==> x in ids)
  }

  lemma ChildIds(ts: seq<Node>, i: nat)
    requires i < |ts|
    ensures Ids(ts[i]) <= AllIds(ts)
  {
  }

  lemma {:induction false} PathIn(t: Node, ofs: nat, w: Word)
    ensures forall x :: x in Path(t, ofs, w) ==> x in Ids(t)
    decreases t
  {
    if (t.Leaf? && t.ofs > 8) || t.ofs != ofs || ofs + |NodePrefix(t)| > 8 {
    } else if t.Branch? && MatchLen(t.pfx, w, ofs) == |t.pfx| && ofs + |t.pfx| < 8 && |t.keys| == |t.chs| {
      var i := IndexOf(t.keys, w[ofs+|t.pfx|], 0);
      if i.Some? {
        PathIn(t.chs[i.value], ofs + |t.pfx| + 1, w);
        ChildIds(t.chs, i.value);
      }
    }
  }

  /** The siblings of child i. */
  function Others(ts: seq<Node>, i: nat): set<Id>
    requires i < |ts|
  {
    set j, x | 0 <= j < |ts| && j != i && x in Ids(ts[j]) :: x
  }

  lemma SplitIds(ts: seq<Node>, i: nat)
    requires i < |ts|
    ensures AllIds(ts) == Others(ts, i) + Ids(ts[i])
    ensures AllDistinct(ts) ==> Others(ts, i) !! Ids(ts[i])
  {
    hide Ids;
    forall x | x in AllIds(ts) ensures x in Others(ts, i) + Ids(ts[i]) {
      var j :| 0 <= j < |ts| && x in Ids(ts[j]);
    }
    if AllDistinct(ts) {
      forall x | x in Others(ts, i) ensures x !in Ids(ts[i]) {
        var j :| 0 <= j < |ts| && j != i && x in Ids(ts[j]);
        assert if j < i then Ids(ts[j]) !! Ids(ts[i]) else Ids(ts[i]) !! Ids(ts[j]);
      }
    }
  }

  lemma StoreIds(ts: seq<Node>, i: nat, c: Node)
    requires i < |ts|
    ensures AllIds(ts[i := c]) == Others(ts, i) + Ids(c)
    ensures AllDistinct(ts) && Distinct(c) && Others(ts, i) !! Ids(c) ==> AllDistinct(ts[i := c])
  {
    hide Ids, Distinct;
    var ts' := ts[i := c];
    SplitIds(ts', i);
    assert Others(ts', i) == Others(ts, i) by {
      assert forall j :: 0 <= j < |ts| && j != i ==> ts'[j] == ts[j];
    }
    if AllDistinct(ts) && Distinct(c) && Others(ts, i) !! Ids(c) {
      forall j, k | 0 <= j < k < |ts'| ensures Ids(ts'[j]) !! Ids(ts'[k]) {
        if j == i { OtherIds(ts, i, k); } else if k == i { OtherIds(ts, i, j); }
      }
    }
  }

  lemma OtherIds(ts: seq<Node>, i: nat, j: nat)
    requires i < |ts| && j < |ts| && i != j
    ensures Ids(ts[j]) <= Others(ts, i)
  {
    hide Ids;
  }

  lemma InsertIds(ts: seq<Node>, i: nat, c: Node)
    requires i <= |ts|
    ensures AllIds(InsertAt(ts, i, c)) == AllIds(ts) + Ids(c)
    ensures AllDistinct(ts) && Distinct(c) && AllIds(ts) !! Ids(c) ==> AllDistinct(InsertAt(ts, i, c))
  {
    hide Ids, Distinct, InsertAt;
    var ts' := InsertAt(ts, i, c);
    forall x ensures x in AllIds(ts') <==> x in AllIds(ts) + Ids(c) {
      if x in AllIds(ts) {
        var j :| 0 <= j < |ts| && x in Ids(ts[j]);
        InsertedAt(ts, i, c, if j < i then j else j + 1);
      }
      InsertedAt(ts, i, c, i);
      if x in AllIds(ts') {
        var j :| 0 <= j < |ts'| && x in Ids(ts'[j]);
        InsertedAt(ts, i, c, j);
      }
    }
    if AllDistinct(ts) && Distinct(c) && AllIds(ts) !! Ids(c) {
      forall j | 0 <= j < |ts'| ensures Distinct(ts'[j]) { InsertedAt(ts, i, c, j); }
      forall j, k | 0 <= j < k < |ts'| ensures Ids(ts'[j]) !! Ids(ts'[k]) {
        InsertedAt(ts, i, c, j);
        InsertedAt(ts, i, c, k);
        if j == i {
          ChildIds(ts, k - 1);
        } else if k == i {
          ChildIds(ts, j);
        }
      }
    }
  }

  lemma PairIds(a: Node, b: Node)
    ensures AllIds([a, b]) == Ids(a) + Ids(b)
    ensures Distinct(a) && Distinct(b) && Ids(a) !! Ids(b) ==> AllDistinct([a, b])
  {
    hide Ids, Distinct;
    assert [a, b][0] == a && [a, b][1] == b;
  }

  lemma LoweredIds(t: Node, side: Histories, ticket: nat, m: nat)
    requires (t.Leaf? ==> t.ofs <= 8) && m < |NodePrefix(t)| && Distinct(t) && NoneOf(Ids(t), ticket)
    ensures Distinct(LoweredCopy(t, side, ticket, m))
    ensures Ids(LoweredCopy(t, side, ticket, m)) == (Ids(t) - {t.id}) + {New(ticket, t.ofs + m + 1, RightHalf)}
  {
  }

  lemma ForkShares(t: Node, side: Histories, ticket: nat, ofs: nat, m: nat, w: Word, v: Val)
    requires (t.Leaf? ==> t.ofs <= 8) && m < |NodePrefix(t)| && ofs + m < 8 && t.ofs == ofs && Distinct(t) && NoneOf(Ids(t), ticket)
    ensures var c := ForkCopy(t, side, ticket, ofs, m, w, v);
            Distinct(c) && Shares(Ids(c), Ids(t), [t.id], ticket, ofs)
  {
    hide AllIds, AllDistinct, LoweredCopy, NodePrefix;
    var low, leaf := LoweredCopy(t, side, ticket, m), Leaf(New(ticket, ofs + m + 1, WholeLeaf), ticket, ofs + m + 1, w, v);
    LoweredIds(t, side, ticket, m);
    PairIds(low, leaf);
    PairIds(leaf, low);
  }

  /** A copied branch over a changed child. */
  lemma ChildShares(t: Node, i: nat, c: Node, path: seq<Id>, ticket: nat, ofs: nat)
    requires t.Branch? && i < |t.chs| && Distinct(t) && NoneOf(Ids(t), ticket) && Distinct(c)
    requires Shares(Ids(c), Ids(t.chs[i]), path, ticket, ofs + 1) && forall x :: x in path ==> x in Ids(t.chs[i])
    ensures var b := Branch(New(ticket, ofs, WholeNode), ticket, t.kind, t.ofs, t.pfx, t.keys, t.chs[i := c]);
            Distinct(b) && Shares(Ids(b), Ids(t), [t.id] + path, ticket, ofs)
  {
    hide AllIds, AllDistinct;
    StoreIds(t.chs, i, c);
    SplitIds(t.chs, i);
    ChildIds(t.chs, i);
  }

  lemma WidenedShares(t: Node, ticket: nat, b: Byte, w: Word, v: Val, o: nat)
    requires t.Branch? && |t.keys| == |t.chs| && Distinct(t) && NoneOf(Ids(t), ticket) && o >= t.ofs
    ensures var c := WidenedCopy(t, ticket, b, Leaf(New(ticket, o + 1, WholeLeaf), ticket, o + 1, w, v));
            Distinct(c) && Shares(Ids(c), Ids(t), [t.id], ticket, t.ofs)
  {
    hide AllIds, AllDistinct;
    InsertIds(t.chs, FindGt(t.keys, b, 0), Leaf(New(ticket, o + 1, WholeLeaf), ticket, o + 1, w, v));
  }

  /** The tree is shaped so that a copy from offset ofs goes through. */
  ghost predicate Shaped(t: Node, path: seq<Byte>) {
    Wf(Seen(t, map[], 0), path)
  }

  lemma ShapedIs(t: Node, path: seq<Byte>)
    requires Shaped(t, path)
    ensures t.ofs == |path| && (t.Leaf? ==> t.ofs <= 8) && |path| + |NodePrefix(t)| <= 8
    ensures t.Branch? ==> |path| + |t.pfx| < 8 && |t.keys| == |t.chs|
                          && forall i :: 0 <= i < |t.chs| ==> Shaped(t.chs[i], path + t.pfx + [t.keys[i]])
  {
    if t.Branch? {
      forall i | 0 <= i < |t.chs| ensures Shaped(t.chs[i], path + t.pfx + [t.keys[i]]) {
        SeenChild(t.chs, i, map[], 0);
      }
    }
  }

  /** Retiring is exact: the copy shares every node but the path, all its other
      nodes are new, and no node occurs twice. */
  lemma {:induction false} CowShares(t: Node, side: Histories, ticket: nat, path: seq<Byte>, w: Word, v: Val)
    requires Shaped(t, path) && Distinct(t) && NoneOf(Ids(t), ticket)
    ensures var c := Cow(t, side, ticket, |path|, w, v);
            Distinct(c) && Shares(Ids(c), Ids(t), Path(t, |path|, w), ticket, |path|)
    decreases t
  {
    hide Shaped, ForkCopy, WidenedCopy, Shares;
    ShapedIs(t, path);
    var ofs := |path|;
    var m := MatchLen(NodePrefix(t), w, ofs);
    if m < |NodePrefix(t)| {
      ForkShares(t, side, ticket, ofs, m, w, v);
    } else if t.Leaf? {
      LeafShares(t, ticket, ofs, v);
    } else {
      var o := ofs + |t.pfx|;
      var i := IndexOf(t.keys, w[o], 0);
      if i.Some? {
        ChildIds(t.chs, i.value);
        CowShares(t.chs[i.value], side, ticket, path + t.pfx + [w[o]], w, v);
        PathIn(t.chs[i.value], o + 1, w);
        var c := Cow(t.chs[i.value], side, ticket, o + 1, w, v);
        LaterStages(Ids(c), Ids(t.chs[i.value]), Path(t.chs[i.value], o + 1, w), ticket, ofs + 1, o + 1);
        ChildShares(t, i.value, c, Path(t.chs[i.value], o + 1, w), ticket, ofs);
      } else {
        WidenedShares(t, ticket, w[o], w, v, o);
      }
    }
  }

  lemma LaterStages(ids: set<Id>, nodes: set<Id>, path: seq<Id>, ticket: nat, a: nat, b: nat)
    requires Shares(ids, nodes, path, ticket, b) && a <= b
    ensures Shares(ids, nodes, path, ticket, a)
  {
  }

  lemma LeafShares(t: Node, ticket: nat, ofs: nat, v: Val)
    requires t.Leaf?
    ensures var c := Leaf(New(ticket, ofs, WholeLeaf), ticket, ofs, t.key, v);
            Distinct(c) && Shares(Ids(c), Ids(t), [t.id], ticket, ofs)
  {
  }

  /** The retired path names no node twice. */
  lemma {:induction false} PathOnce(t: Node, ofs: nat, w: Word)
    requires Distinct(t)
    ensures forall i, j :: 0 <= i < j < |Path(t, ofs, w)| ==> Path(t, ofs, w)[i] != Path(t, ofs, w)[j]
    decreases t
  {
    if (t.Leaf? && t.ofs > 8) || t.ofs != ofs || ofs + |NodePrefix(t)| > 8 {
    } else if t.Branch? && MatchLen(t.pfx, w, ofs) == |t.pfx| && ofs + |t.pfx| < 8 && |t.keys| == |t.chs| {
      var i := IndexOf(t.keys, w[ofs+|t.pfx|], 0);
      if i.Some? {
        var rest := Path(t.chs[i.value], ofs + |t.pfx| + 1, w);
        PathOnce(t.chs[i.value], ofs + |t.pfx| + 1, w);
        PathIn(t.chs[i.value], ofs + |t.pfx| + 1, w);
        ChildIds(t.chs, i.value);
        assert forall j :: 0 <= j < |rest| ==> rest[j] in Ids(t.chs[i.value]);
      }
    }
  }
}
