/** Path-copying updates of a radix tree with versioned leaf values. */
module ArtCow {
  import opened Records
  import opened Nodes
  import opened Art

  /** A value appended to a leaf's history. */
  datatype Entry = Entry(version: nat, value: Val)

  /** Histories by physical leaf. */
  type Histories = map<Id, seq<Entry>>

  datatype Node =
    | Leaf(id: Id, ver: nat, ofs: nat, key: Word, val: Val)
    | Branch(id: Id, ver: nat, kind: Kind, ofs: nat, pfx: seq<Byte>, keys: seq<Byte>, chs: seq<Node>)

  function HistoryOf(side: Histories, id: Id): seq<Entry> {
    if id in side then side[id] else []
  }

  /** The newest value not above a version. */
  function Read(base: Val, es: seq<Entry>, version: nat): Val {
    if es == [] then base
    else if es[|es|-1].version <= version then es[|es|-1].value
    else Read(base, es[..|es|-1], version)
  }

  /** The tree as a snapshot of a version sees it. */
  function Seen(t: Node, side: Histories, version: nat): Radix
    decreases t, 0
  {
    match t
    case Leaf(id, _, ofs, key, val) => Tip(ofs, key, Read(val, HistoryOf(side, id), version))
    case Branch(_, _, kind, ofs, pfx, keys, chs) => Inner(kind, ofs, pfx, keys, SeenAll(chs, side, version))
  }

  function SeenAll(ts: seq<Node>, side: Histories, version: nat): (r: seq<Radix>)
    ensures |r| == |ts|
    decreases ts, 0
  {
    seq(|ts|, i requires 0 <= i < |ts| => Seen(ts[i], side, version))
  }

  // ---- the copies -----------------------------------------------------------

  function NodePrefix(t: Node): seq<Byte>
    requires t.Leaf? ==> t.ofs <= 8
  {
    if t.Leaf? then t.key[t.ofs..] else t.pfx
  }

  /** node_copy below a fork: a leaf keeps only its newest value. */
  function LoweredCopy(t: Node, side: Histories, ticket: nat, m: nat): Node
    requires (t.Leaf? ==> t.ofs <= 8) && m < |NodePrefix(t)|
  {
    match t
    case Leaf(id, _, ofs, key, val) =>
      Leaf(New(ticket, ofs + m + 1, RightHalf), ticket, ofs + m + 1, key, Read(val, HistoryOf(side, id), ticket))
    case Branch(_, _, kind, ofs, pfx, keys, chs) =>
      Branch(New(ticket, ofs + m + 1, RightHalf), ticket, kind, ofs + m + 1, pfx[m+1..], keys, chs)
  }

  function ForkCopy(t: Node, side: Histories, ticket: nat, ofs: nat, m: nat, w: Word, v: Val): Node
    requires (t.Leaf? ==> t.ofs <= 8) && m < |NodePrefix(t)| && ofs + m < 8
  {
    var b0, b1 := NodePrefix(t)[m], w[ofs+m];
    var low, leaf := LoweredCopy(t, side, ticket, m), Leaf(New(ticket, ofs + m + 1, WholeLeaf), ticket, ofs + m + 1, w, v);
    var id := New(ticket, ofs, LeftHalf);
    if b0 > b1 then Branch(id, ticket, K4, ofs, w[ofs..ofs+m], [b1, b0], [leaf, low])
    else Branch(id, ticket, K4, ofs, w[ofs..ofs+m], [b0, b1], [low, leaf])
  }

  function WidenedCopy(t: Node, ticket: nat, b: Byte, c: Node): Node
    requires t.Branch? && |t.keys| == |t.chs|
  {
    var i := FindGt(t.keys, b, 0);
    var kind := if |t.keys| >= t.kind.Capacity() then t.kind.Next() else t.kind;
    Branch(New(ticket, t.ofs, WholeNode), ticket, kind, t.ofs, t.pfx, InsertAt(t.keys, i, b), InsertAt(t.chs, i, c))
  }

  /** The staged copies from a node at offset ofs down. */
  function Cow(t: Node, side: Histories, ticket: nat, ofs: nat, w: Word, v: Val): Node
    decreases t
  {
    if (t.Leaf? && t.ofs > 8) || t.ofs != ofs || ofs + |NodePrefix(t)| > 8 then t else
    var m := MatchLen(NodePrefix(t), w, ofs);
    if m < |NodePrefix(t)| then ForkCopy(t, side, ticket, ofs, m, w, v)
    else
      match t
      case Leaf(_, _, _, key, _) => Leaf(New(ticket, ofs, WholeLeaf), ticket, ofs, key, v)
      case Branch(_, _, kind, _, pfx, keys, chs) =>
        var o := ofs + |pfx|;
        if o >= 8 || |keys| != |chs| then t else
        var i := IndexOf(keys, w[o], 0);
        if i.Some? then
          Branch(New(ticket, ofs, WholeNode), ticket, kind, ofs, pfx, keys, chs[i.value := Cow(chs[i.value], side, ticket, o + 1, w, v)])
        else WidenedCopy(t, ticket, w[o], Leaf(New(ticket, o + 1, WholeLeaf), ticket, o + 1, w, v))
  }

  /** The nodes replaced. */
  function Path(t: Node, ofs: nat, w: Word): seq<Id>
    decreases t
  {
    if (t.Leaf? && t.ofs > 8) || t.ofs != ofs || ofs + |NodePrefix(t)| > 8 then [] else
    var m := MatchLen(NodePrefix(t), w, ofs);
    if m < |NodePrefix(t)| || t.Leaf? then [t.id]
    else
      var o := ofs + |t.pfx|;
      if o >= 8 || |t.keys| != |t.chs| then [] else
      var i := IndexOf(t.keys, w[o], 0);
      if i.Some? then [t.id] + Path(t.chs[i.value], o + 1, w) else [t.id]
  }

  // ---- copying is inserting -------------------------------------------------

  /** Histories are older than the ticket, and new nodes have none yet. */
  ghost predicate Below(side: Histories, ticket: nat) {
    && (forall id :: id in side ==> !(id.New? && id.ticket == ticket))
    && (forall id, i :: id in side && 0 <= i < |side[id]| ==> side[id][i].version < ticket)
  }

  lemma ReadAll(base: Val, es: seq<Entry>, v: nat, u: nat)
    requires forall i :: 0 <= i < |es| ==> es[i].version <= v && es[i].version <= u
    ensures Read(base, es, v) == Read(base, es, u)
  {
  }

  lemma NewRead(side: Histories, ticket: nat, id: Id, base: Val, version: nat)
    requires Below(side, ticket) && id.New? && id.ticket == ticket
    ensures Read(base, HistoryOf(side, id), version) == base
  {
  }

  lemma LoweredSeen(t: Node, side: Histories, ticket: nat, m: nat, version: nat)
    requires Below(side, ticket) && ticket <= version && (t.Leaf? ==> t.ofs <= 8) && m < |NodePrefix(t)|
    ensures Seen(LoweredCopy(t, side, ticket, m), side, version) == Lowered(Seen(t, side, version), m)
  {
    if t.Leaf? {
      ReadAll(t.val, HistoryOf(side, t.id), ticket, version);
      NewRead(side, ticket, LoweredCopy(t, side, ticket, m).id, Read(t.val, HistoryOf(side, t.id), ticket), version);
    }
  }

  lemma LeafSeen(side: Histories, ticket: nat, id: Id, ofs: nat, w: Word, v: Val, version: nat)
    requires Below(side, ticket) && id.New? && id.ticket == ticket
    ensures Seen(Leaf(id, ticket, ofs, w, v), side, version) == Tip(ofs, w, v)
  {
    NewRead(side, ticket, id, v, version);
  }

  lemma PrefixSeen(t: Node, side: Histories, version: nat)
    requires t.Leaf? ==> t.ofs <= 8
    ensures Seen(t, side, version).ofs == t.ofs && Seen(t, side, version).Tip? == t.Leaf?
    ensures Prefix(Seen(t, side, version)) == NodePrefix(t)
  {
  }

  lemma SeenPair(a: Node, b: Node, side: Histories, version: nat)
    ensures SeenAll([a, b], side, version) == [Seen(a, side, version), Seen(b, side, version)]
  {
  }

  lemma SeenStore(ts: seq<Node>, i: nat, c: Node, side: Histories, version: nat)
    requires i < |ts|
    ensures SeenAll(ts[i := c], side, version) == SeenAll(ts, side, version)[i := Seen(c, side, version)]
  {
    hide Seen;
  }

  lemma SeenInsert(ts: seq<Node>, i: nat, c: Node, side: Histories, version: nat)
    requires i <= |ts|
    ensures SeenAll(InsertAt(ts, i, c), side, version) == InsertAt(SeenAll(ts, side, version), i, Seen(c, side, version))
  {
    hide Seen;
  }

  lemma ForkSeen(t: Node, side: Histories, ticket: nat, ofs: nat, m: nat, w: Word, v: Val, version: nat)
    requires Below(side, ticket) && ticket <= version && (t.Leaf? ==> t.ofs <= 8) && m < |NodePrefix(t)| && ofs + m < 8
    ensures Seen(ForkCopy(t, side, ticket, ofs, m, w, v), side, version) == Fork(Seen(t, side, version), ofs, m, w, v)
  {
    hide Read;
    var low, leaf := LoweredCopy(t, side, ticket, m), Leaf(New(ticket, ofs + m + 1, WholeLeaf), ticket, ofs + m + 1, w, v);
    PrefixSeen(t, side, version);
    LoweredSeen(t, side, ticket, m, version);
    LeafSeen(side, ticket, New(ticket, ofs + m + 1, WholeLeaf), ofs + m + 1, w, v, version);
    SeenPair(leaf, low, side, version);
    SeenPair(low, leaf, side, version);
  }

  /** Copying the path and updating in place give the same tree, for every
      snapshot that includes the ticket. */
  lemma {:induction false} CopyIsInsert(t: Node, side: Histories, ticket: nat, ofs: nat, w: Word, v: Val, version: nat)
    requires Below(side, ticket) && ticket <= version
    ensures Seen(Cow(t, side, ticket, ofs, w, v), side, version) == Insert(Seen(t, side, version), ofs, w, v)
    decreases t
  {
    hide Read, ForkCopy, Fork, InsertAt, SeenAll;
    if (t.Leaf? && t.ofs > 8) || t.ofs != ofs || ofs + |NodePrefix(t)| > 8 {
    } else {
      PrefixSeen(t, side, version);
      var m := MatchLen(NodePrefix(t), w, ofs);
      if m < |NodePrefix(t)| {
        ForkSeen(t, side, ticket, ofs, m, w, v, version);
      } else if t.Leaf? {
        LeafSeen(side, ticket, New(ticket, ofs, WholeLeaf), ofs, t.key, v, version);
      } else {
        var o := ofs + |t.pfx|;
        if o < 8 && |t.keys| == |t.chs| {
          var i := IndexOf(t.keys, w[o], 0);
          if i.Some? {
            CopyIsInsert(t.chs[i.value], side, ticket, o + 1, w, v, version);
            SeenStore(t.chs, i.value, Cow(t.chs[i.value], side, ticket, o + 1, w, v), side, version);
            SeenChild(t.chs, i.value, side, version);
          } else {
            LeafSeen(side, ticket, New(ticket, o + 1, WholeLeaf), o + 1, w, v, version);
            SeenInsert(t.chs, FindGt(t.keys, w[o], 0), Leaf(New(ticket, o + 1, WholeLeaf), ticket, o + 1, w, v), side, version);
          }
        }
      }
    }
  }

  lemma SeenChild(ts: seq<Node>, i: nat, side: Histories, version: nat)
    requires i < |ts|
    ensures SeenAll(ts, side, version)[i] == Seen(ts[i], side, version)
  {
  }
}
