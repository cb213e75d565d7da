/** The list of replaced nodes kept in an update's context: six entries in the
    context itself, the rest in linked blocks, newest block first. */
module RetireList {
  import opened Options
  import opened Nodes

  const INLINE_CAPACITY := 6
  const BLOCK_CAPACITY := 14
  const COUNT_LIMIT := 0x1_0000 // the counter has sixteen bits

  // ---- the list as a value --------------------------------------------------

  datatype Held = Held(entries: seq<Id>, chain: seq<seq<Id>>, count: nat)
  {
    ghost predicate Ok() {
      |entries| == INLINE_CAPACITY && count < COUNT_LIMIT
    }

    function InlineCount(): nat {
      if count < INLINE_CAPACITY then count else INLINE_CAPACITY
    }

    function Add(x: Id): Held
      requires Ok()
    {
      var c := (count + 1) % COUNT_LIMIT;
      if count < INLINE_CAPACITY then Held(entries[count := x], chain, c)
      else if chain == [] || |chain[0]| == BLOCK_CAPACITY then Held(entries, [[x]] + chain, c)
      else Held(entries, [chain[0] + [x]] + chain[1..], c)
    }

    /** What a drain hands over, in order. */
    function Drained(): seq<Id>
      requires Ok()
    {
      entries[..InlineCount()] + Concat(chain)
    }
  }

  function Concat(chain: seq<seq<Id>>): seq<Id> {
    if chain == [] then [] else chain[0] + Concat(chain[1..])
  }

  function AddAll(h: Held, log: seq<Id>): (r: Held)
    requires h.Ok()
    ensures r.Ok()
  {
    if log == [] then h else AddAll(h, log[..|log|-1]).Add(log[|log|-1])
  }

  /** The order of a drain: the first six, then blocks of fourteen, newest first. */
  function DrainOrder(log: seq<Id>): seq<Id> {
    if |log| <= INLINE_CAPACITY then log
    else log[..INLINE_CAPACITY] + NewestFirst(log[INLINE_CAPACITY..])
  }

  function NewestFirst(s: seq<Id>): seq<Id>
    decreases |s|
  {
    if |s| <= BLOCK_CAPACITY then s
    else
      var last := (|s| - 1) / BLOCK_CAPACITY * BLOCK_CAPACITY;
      s[last..] + NewestFirst(s[..last])
  }

  /** The blocks of a log, newest first and only the newest one not full. */
  function Blocks(s: seq<Id>): seq<seq<Id>>
    decreases |s|
  {
    if s == [] then []
    else
      var last := Boundary(|s| - 1);
      [s[last..]] + Blocks(s[..last])
  }

  /** Where the block of the k-th entry starts. */
  function Boundary(k: nat): (b: nat)
    ensures b <= k < b + BLOCK_CAPACITY
  {
    k / BLOCK_CAPACITY * BLOCK_CAPACITY
  }

  lemma NextBoundary(k: nat)
    requires k > 0
    ensures Boundary(k) == if k == Boundary(k - 1) + BLOCK_CAPACITY then k else Boundary(k - 1)
  {
  }

  lemma BlocksStep(s: seq<Id>, x: Id)
    ensures var b := Blocks(s);
            Blocks(s + [x]) == if b == [] || |b[0]| == BLOCK_CAPACITY then [[x]] + b else [b[0] + [x]] + b[1..]
  {
    hide Boundary;
    var n := |s|;
    var last := Boundary(n);
    assert (s + [x])[..last] == s[..last];
    if n > 0 {
      NextBoundary(n);
      if last == n {
        assert s[..n] == s;
        assert (s + [x])[last..] == [x];
      } else {
        assert (s + [x])[last..] == s[last..] + [x];
      }
    } else {
      assert (s + [x])[last..] == [x];
    }
  }

  lemma {:induction false} BlocksConcat(s: seq<Id>)
    ensures Concat(Blocks(s)) == NewestFirst(s)
    decreases |s|
  {
    if s != [] {
      var last := (|s| - 1) / BLOCK_CAPACITY * BLOCK_CAPACITY;
      BlocksConcat(s[..last]);
      var b := Blocks(s);
      assert b[0] == s[last..] && b[1..] == Blocks(s[..last]);
      if |s| <= BLOCK_CAPACITY {
        assert last == 0 && s[last..] == s && s[..last] == [];
      }
    }
  }

  /** Up to 65535 nodes, the list is the log cut into blocks. */
  lemma {:induction false} HoldsLog(h: Held, log: seq<Id>)
    requires h.Ok() && h.count == 0 && h.chain == [] && |log| < COUNT_LIMIT
    ensures Holds(AddAll(h, log), log)
  {
    if log != [] {
      var n := |log| - 1;
      HoldsLog(h, log[..n]);
      AddHolds(AddAll(h, log[..n]), log[..n], log[n]);
      assert log == log[..n] + [log[n]];
    }
  }

  /** The list holds exactly a log. */
  ghost predicate Holds(h: Held, log: seq<Id>) {
    && h.Ok() && h.count == |log|
    && h.entries[..h.InlineCount()] == log[..h.InlineCount()]
    && h.chain == Blocks(log[h.InlineCount()..])
  }

  lemma AddHolds(h: Held, log: seq<Id>, x: Id)
    requires Holds(h, log) && |log| + 1 < COUNT_LIMIT
    ensures Holds(h.Add(x), log + [x])
  {
    hide Blocks;
    var n, k := |log|, h.InlineCount();
    Small(n + 1);
    if n < INLINE_CAPACITY {
      assert log[n..] == [] && (log + [x])[n+1..] == [];
      assert h.entries[..n] == log && h.entries[n := x][..n+1] == log + [x] == (log + [x])[..n+1];
    } else {
      BlocksStep(log[k..], x);
      assert (log + [x])[k..] == log[k..] + [x];
    }
  }

  lemma Small(n: nat)
    requires n < COUNT_LIMIT
    ensures n % COUNT_LIMIT == n
  {
  }

  /** A drain hands over the log in drain order. */
  lemma DrainsLog(h: Held, log: seq<Id>)
    requires h.Ok() && h.count == 0 && h.chain == [] && |log| < COUNT_LIMIT
    ensures AddAll(h, log).Drained() == DrainOrder(log)
  {
    HoldsLog(h, log);
    var n := AddAll(h, log).InlineCount();
    BlocksConcat(log[n..]);
    if |log| <= INLINE_CAPACITY {
      assert log[n..] == [] && log[..n] == log;
    }
  }

  lemma {:induction false} NewestFirstKeeps(s: seq<Id>)
    ensures multiset(NewestFirst(s)) == multiset(s)
    decreases |s|
  {
    if |s| > BLOCK_CAPACITY {
      var last := (|s| - 1) / BLOCK_CAPACITY * BLOCK_CAPACITY;
      NewestFirstKeeps(s[..last]);
      assert s == s[..last] + s[last..];
    }
  }

  lemma {:induction false} ChainLength(h: Held, log: seq<Id>)
    requires h.Ok() && h.count == 0 && h.chain == []
    ensures var r := AddAll(h, log);
            r.count == |log| % COUNT_LIMIT && |r.Drained()| + INLINE_CAPACITY * (|log| / COUNT_LIMIT) == |log|
  {
    if log != [] {
      var n := |log| - 1;
      ChainLength(h, log[..n]);
      var p := AddAll(h, log[..n]);
      ConcatAdd(p, log[n]);
      Wraps(n);
    }
  }

  lemma Wraps(n: nat)
    ensures n % COUNT_LIMIT == COUNT_LIMIT - 1 ==> (n + 1) % COUNT_LIMIT == 0 && (n + 1) / COUNT_LIMIT == n / COUNT_LIMIT + 1
    ensures n % COUNT_LIMIT < COUNT_LIMIT - 1 ==> (n + 1) % COUNT_LIMIT == n % COUNT_LIMIT + 1 && (n + 1) / COUNT_LIMIT == n / COUNT_LIMIT
  {
  }

  lemma ConcatAdd(p: Held, x: Id)
    requires p.Ok()
    ensures |Concat(p.Add(x).chain)| == |Concat(p.chain)| + if p.count < INLINE_CAPACITY then 0 else 1
  {
    if p.count >= INLINE_CAPACITY {
      var c := p.Add(x).chain;
      if p.chain == [] || |p.chain[0]| == BLOCK_CAPACITY {
        assert c[0] == [x] && c[1..] == p.chain;
      } else {
        assert c[0] == p.chain[0] + [x] && c[1..] == p.chain[1..];
      }
    }
  }

  /** A drain hands over every added node, as often as it was added, exactly
      as long as the sixteen-bit counter has not wrapped. */
  lemma DrainIsExact(h: Held, log: seq<Id>)
    requires h.Ok() && h.count == 0 && h.chain == []
    ensures multiset(AddAll(h, log).Drained()) == multiset(log) <==> |log| < COUNT_LIMIT
  {
    if |log| < COUNT_LIMIT {
      DrainsLog(h, log);
      if |log| > INLINE_CAPACITY {
        NewestFirstKeeps(log[INLINE_CAPACITY..]);
        assert log == log[..INLINE_CAPACITY] + log[INLINE_CAPACITY..];
      }
    } else {
      ChainLength(h, log);
      assert |log| / COUNT_LIMIT >= 1;
      assert |multiset(AddAll(h, log).Drained())| != |multiset(log)|;
    }
  }

  // ---- the context's fields -------------------------------------------------

  class Block {
    var count: nat
    const nodes: array<Id>

    constructor ()
      ensures count == 0 && fresh(nodes) && nodes.Length == BLOCK_CAPACITY
    {
      count := 0;
      nodes := new Id[BLOCK_CAPACITY](_ => Built(0));
    }

    ghost predicate Valid()
      reads this
    {
      count <= BLOCK_CAPACITY == nodes.Length
    }

    ghost function Contents(): seq<Id>
      reads this, nodes
      requires Valid()
    {
      nodes[..count]
    }

    method Entries() returns (out: seq<Id>)
      requires Valid()
      ensures out == Contents()
    {
      out := [];
      for i := 0 to count
        invariant out == nodes[..i]
      {
        out := out + [nodes[i]];
      }
    }
  }

  class Context {
    const gcEnabled: bool
    const retiredInline: array<Id>
    var blocks: seq<Block> // newest first
    var retiredCount: nat

    /** The blocks share nothing. */
    ghost predicate Valid()
      reads this, blocks
    {
      && retiredInline.Length == INLINE_CAPACITY && retiredCount < COUNT_LIMIT
      && (forall i :: 0 <= i < |blocks| ==> blocks[i].Valid() && blocks[i].nodes != retiredInline)
      && (forall i, j :: 0 <= i < j < |blocks| ==> blocks[i] != blocks[j] && blocks[i].nodes != blocks[j].nodes)
    }

    ghost function Arrays(): set<object>
      reads this
    {
      set b | b in blocks :: b.nodes
    }

    ghost function Chain(): seq<seq<Id>>
      reads this, blocks, Arrays()
      requires Valid()
    {
      seq(|blocks|, i requires 0 <= i < |blocks| reads this, blocks, Arrays() requires Valid() => blocks[i].Contents())
    }

    ghost function List(): (h: Held)
      reads this, blocks, Arrays(), retiredInline
      requires Valid()
      ensures h.Ok()
    {
      Held(retiredInline[..], Chain(), retiredCount)
    }

    constructor (gcEnabled: bool)
      ensures Valid() && fresh(retiredInline) && this.gcEnabled == gcEnabled && blocks == []
      ensures List().count == 0 && List().chain == []
    {
      this.gcEnabled := gcEnabled;
      retiredInline := new Id[INLINE_CAPACITY](_ => Built(0));
      retiredCount := 0;
      blocks := [];
    }

    /** retire_replaced: nothing without reclamation or without a node. */
    method RetireReplaced(node: Option<Id>)
      requires Valid()
      modifies this, retiredInline, blocks, Arrays()
      ensures Valid() && fresh(set b | b in blocks && b !in old(blocks)) && fresh(Arrays() - old(Arrays()))
      ensures List() == if gcEnabled && node.Some? then old(List()).Add(node.value) else old(List())
    {
      if !gcEnabled || node.None? {
        return;
      }
      if retiredCount < INLINE_CAPACITY {
        RetireInline(node.value);
      } else {
        RetireOverflow(node.value);
      }
    }

    method RetireInline(node: Id)
      requires Valid() && retiredCount < INLINE_CAPACITY
      modifies this`retiredCount, retiredInline
      ensures Valid() && List() == old(List()).Add(node)
    {
      retiredInline[retiredCount] := node;
      retiredCount := retiredCount + 1;
      assert forall i :: 0 <= i < |blocks| ==> blocks[i].Contents() == old(blocks[i].Contents());
      assert Chain() == old(Chain());
    }

    method RetireOverflow(node: Id)
      requires Valid() && retiredCount >= INLINE_CAPACITY
      modifies this, blocks, Arrays()
      ensures Valid() && fresh(set b | b in blocks && b !in old(blocks)) && fresh(Arrays() - old(Arrays()))
      ensures List() == old(List()).Add(node)
    {
      ghost var chain := Chain();
      assert blocks != [] ==> chain[0] == blocks[0].Contents();
      if blocks == [] || blocks[0].count == BLOCK_CAPACITY {
        NewBlock();
        assert Chain()[0] == [] && Chain()[1..] == chain && [] + [node] == [node];
      }
      Spill(node);
      Count();
    }

    method Count()
      requires Valid()
      modifies this`retiredCount
      ensures Valid() && retiredCount == (old(retiredCount) + 1) % COUNT_LIMIT && Chain() == old(Chain())
    {
      retiredCount := (retiredCount + 1) % COUNT_LIMIT;
    }

    method NewBlock()
      requires Valid()
      modifies this`blocks
      ensures Valid() && blocks != [] && blocks[1..] == old(blocks) && blocks[0].count == 0 && fresh(blocks[0]) && fresh(blocks[0].nodes)
      ensures Chain() == [[]] + old(Chain()) && retiredInline[..] == old(retiredInline[..])
    {
      var block := new Block();
      blocks := [block] + blocks;
      assert forall i :: 1 <= i < |blocks| ==> blocks[i] == old(blocks[i-1]);
      assert Chain() == [[]] + old(Chain());
    }

    method Spill(node: Id)
      requires Valid() && blocks != [] && blocks[0].count < BLOCK_CAPACITY
      modifies blocks[0], blocks[0].nodes
      ensures Valid() && Chain() == [old(Chain()[0]) + [node]] + old(Chain())[1..]
    {
      var b := blocks[0];
      b.nodes[b.count] := node;
      b.count := b.count + 1;
      assert b.Contents() == old(b.Contents()) + [node];
      assert forall i :: 1 <= i < |blocks| ==> blocks[i].Contents() == old(blocks[i].Contents());
    }

    /** drain_retired: hands over every node held and leaves the list empty. */
    method DrainRetired() returns (out: seq<Id>, count: nat)
      requires Valid()
      modifies this`retiredCount, this`blocks
      ensures Valid() && List().count == 0 && List().chain == []
      ensures out == old(List()).Drained() && count == old(retiredCount)
    {
      count := retiredCount;
      var inlineCount := if count < INLINE_CAPACITY then count else INLINE_CAPACITY;
      out := [];
      for i := 0 to inlineCount
        invariant out == retiredInline[..i]
      {
        out := out + [retiredInline[i]];
      }
      ghost var chain := Chain();
      for j := 0 to |blocks|
        invariant Valid() && blocks == old(blocks) && retiredCount == count && Chain() == chain
        invariant out + Concat(chain[j..]) == old(List()).Drained()
      {
        var nodes := blocks[j].Entries();
        assert nodes == chain[j] && chain[j..][1..] == chain[j+1..];
        out := out + nodes;
      }
      blocks, retiredCount := [], 0;
    }
  }
}
