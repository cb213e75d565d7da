/** Bulk building a B+Tree level by level from sorted pairs. */
module BTreeBuild {
  import opened Records
  import opened Nodes
  import opened BTree
  import opened BTreeCow
  import opened BTreeScan
  import LeafScan

  // ---- spreading the remainder ----------------------------------------------

  /** How far the first c of m chunks reach: i items, and a carry k. */
  ghost predicate Spread(n: nat, m: nat, c: nat, i: nat, k: nat) {
    m >= 2 && k < m && i * m + k == c * n
  }

  /** The loop's state while it cuts n items into n / 8 chunks. */
  ghost predicate Spreading(n: nat, m: nat, r: nat, c: nat, i: nat, k: nat) {
    m == n / B && r == n - m * B && Spread(n, m, c, i, k)
  }

  lemma SpreadStart(n: nat, m: nat, r: nat)
    requires n >= 2 * B && m == n / B && r == n - m * B
    ensures Spreading(n, m, r, 0, 0, 0)
  {
  }

  lemma NextChunk(n: nat, m: nat, r: nat, c: nat, i: nat, k: nat)
    requires Spreading(n, m, r, c, i, k) && i < n
    ensures m > 0 && c < m
    ensures var size := ChunkSize(k, r, m);
            B <= size <= B + 4 && i + size <= n && Spreading(n, m, r, c + 1, i + size, Carry(k, r, m))
  {
    hide Spread, ChunkSize, Carry;
    assert n >= m;
    SpreadEnds(n, m, c, i, k);
    assert m > 0;
    SpreadStep(n, m, r, c, i, k);
  }

  /** The loop stops after exactly n / 8 chunks, at least two. */
  lemma LastChunk(n: nat, m: nat, r: nat, c: nat, i: nat, k: nat)
    requires Spreading(n, m, r, c, i, k) && i == n
    ensures c == n / B >= 2
  {
    SpreadEnds(n, m, c, i, k);
  }

  lemma SpreadEnds(n: nat, m: nat, c: nat, i: nat, k: nat)
    requires Spread(n, m, c, i, k) && n >= m
    ensures i < n <==> c < m
    ensures i <= n <==> c <= m
    ensures i == n ==> c == m && k == 0
  {
    if c <= m {
      MulMono(c, m, n);
      assert i * m <= n * m;
      if i > n { MulMono(n + 1, i, m); }
    } else {
      MulMono(m + 1, c, n);
      assert i * m + k >= m * n + n;
      if i <= n { MulMono(i, n, m); }
    }
    if c < m {
      MulMono(c + 1, m, n);
      if i >= n { MulMono(n, i, m); }
    }
    if c == m && i < n {
      MulMono(i + 1, n, m);
    }
  }

  lemma MulMono(a: nat, b: nat, x: nat)
    requires a <= b
    ensures a * x <= b * x
  {
  }

  /** Items of the next chunk: eight, and a share of the remainder. */
  function ChunkSize(k: nat, r: nat, m: nat): nat
    requires m > 0
  {
    B + (k + r) / m
  }

  function Carry(k: nat, r: nat, m: nat): nat
    requires m > 0
  {
    (k + r) % m
  }

  /** Every chunk has 8 to 12 items, and the last one ends exactly at n. */
  lemma Divided(x: nat, m: nat)
    requires m > 0
    ensures x == x / m * m + x % m && x % m < m && x / m >= 0
  {
  }

  lemma SpreadStep(n: nat, m: nat, r: nat, c: nat, i: nat, k: nat)
    requires m == n / B && r == n - m * B && Spread(n, m, c, i, k) && c < m
    ensures var size, k' := ChunkSize(k, r, m), Carry(k, r, m);
            && B <= size <= B + 4 && i + size <= n && Spread(n, m, c + 1, i + size, k')
  {
    Divided(k + r, m);
    ChunkStep(n, m, r, c, i, k, (k + r) / m, (k + r) % m);
  }

  lemma ChunkStep(n: nat, m: nat, r: nat, c: nat, i: nat, k: nat, q: nat, k': nat)
    requires n == m * B + r && r < B && Spread(n, m, c, i, k) && c < m && k + r == q * m + k' && k' < m
    ensures q <= 4 && i + B + q <= n && Spread(n, m, c + 1, i + B + q, k')
  {
    if q > 4 {
      MulMono(5, q, m);
    }
    assert (i + B + q) * m == i * m + B * m + q * m;
    assert (c + 1) * n == c * n + n;
    SpreadEnds(n, m, c + 1, i + B + q, k');
  }

  // ---- rows of siblings -----------------------------------------------------

  /** The entries of subtrees, left to right. */
  function Flat(ts: seq<Tree>): seq<(Key, Val)> {
    if ts == [] then [] else Entries(ts[0], map[], 0) + Flat(ts[1..])
  }

  lemma {:induction false} FlatJoin(a: seq<Tree>, b: seq<Tree>)
    ensures Flat(a + b) == Flat(a) + Flat(b)
  {
    hide Entries, Flat;
    if a == [] {
      FlatNone(b);
      assert a + b == b;
    } else {
      FlatJoin(a[1..], b);
      FlatCons(a[0], a[1..]);
      FlatCons(a[0], a[1..] + b);
      assert [a[0]] + a[1..] == a && [a[0]] + (a[1..] + b) == a + b;
      SeqAssoc(Entries(a[0], map[], 0), Flat(a[1..]), Flat(b));
    }
  }

  lemma FlatNone(b: seq<Tree>)
    ensures Flat([]) + Flat(b) == Flat(b)
  {
    hide Entries;
  }

  lemma FlatCons(t: Tree, ts: seq<Tree>)
    ensures Flat([t] + ts) == Entries(t, map[], 0) + Flat(ts)
    ensures Flat([t]) == Entries(t, map[], 0)
  {
    hide Entries;
    assert ([t] + ts)[1..] == ts;
    assert [t][1..] == [] && Flat([]) == [];
    assert Entries(t, map[], 0) + [] == Entries(t, map[], 0);
  }

  lemma SeqAssoc<T>(a: seq<T>, b: seq<T>, c: seq<T>)
    ensures (a + b) + c == a + (b + c)
  {
  }

  lemma {:induction false} FlatEntries(s: Seg, i: nat)
    requires i <= |s.chs|
    ensures SegEntries(s, i, map[], 0) == Flat(s.chs[i..])
    decreases |s.chs| - i
  {
    hide Entries;
    if i < |s.chs| {
      FlatEntries(s, i + 1);
      assert s.chs[i..][1..] == s.chs[i+1..];
    }
  }

  /** Full enough to be below another node. */
  ghost predicate Filled(t: Tree)
    decreases t
  {
    match t
    case Leaf(_, _, keys, _) => |keys| >= B
    case Node(_, _, kids) => |kids.chs| >= B && forall i :: 0 <= i < |kids.chs| ==> Filled(kids.chs[i])
  }

  ghost predicate FilledRoot(t: Tree) {
    t.Node? ==> |t.kids.chs| >= 2 && forall i :: 0 <= i < |t.kids.chs| ==> Filled(t.kids.chs[i])
  }

  /** A level under construction: subtrees with their lowest keys. */
  ghost predicate Row(keys: seq<Key>, ts: seq<Tree>, hi: nat, h: nat, next: nat) {
    && |keys| == |ts| >= 1
    && Fits(Seg(keys[1..], ts), map[], 0, hi, h)
    && (|keys| >= 2 ==> keys[0] < keys[1]) && keys[0] < hi
    && (forall i :: 0 <= i < |ts| ==> Filled(ts[i]))
    && SegDistinct(Seg(keys[1..], ts)) && BuiltBelow(SegIds(Seg(keys[1..], ts)), next)
  }

  ghost predicate BuiltBelow(ids: set<Id>, next: nat) {
    forall x :: x in ids ==> x.Built? && x.index < next
  }

  /** Neighbours a..b of a level. */
  lemma SliceFits(s: Seg, a: nat, b: nat, lo: nat, hi: nat, h: nat)
    requires Fits(s, map[], lo, hi, h) && a < b <= |s.chs|
    ensures Fits(Seg(s.keys[a..b-1], s.chs[a..b]), map[], LoAt(s.keys, lo, a), HiAt(s.keys, hi, b - 1), h)
  {
    hide Wf;
    var c := Seg(s.keys[a..b-1], s.chs[a..b]);
    forall j | 0 <= j < |c.chs|
      ensures Wf(c.chs[j], map[], LoAt(c.keys, LoAt(s.keys, lo, a), j), HiAt(c.keys, HiAt(s.keys, hi, b - 1), j), h)
    {
      var i := a + j;
      assert c.chs[j] == s.chs[i];
      assert LoAt(c.keys, LoAt(s.keys, lo, a), j) == LoAt(s.keys, lo, i);
      assert HiAt(c.keys, HiAt(s.keys, hi, b - 1), j) == HiAt(s.keys, hi, i);
    }
  }

  lemma SliceIds(s: Seg, a: nat, b: nat, keys: seq<Key>)
    requires a <= b <= |s.chs| && SegDistinct(s)
    ensures SegDistinct(Seg(keys, s.chs[a..b])) && SegIds(Seg(keys, s.chs[a..b])) <= SegIds(s)
  {
    hide Distinct, Ids;
    assert forall j :: 0 <= j < b - a ==> s.chs[a..b][j] == s.chs[a + j];
  }

  lemma SliceApart(s: Seg, a: nat, b: nat, c: nat, keys: seq<Key>)
    requires a <= b <= c <= |s.chs| && SegDistinct(s)
    ensures SegIds(Seg(keys, s.chs[a..b])) !! SegIds(Seg(keys, s.chs[b..c]))
    ensures SegIds(Seg(keys, s.chs[a..c])) == SegIds(Seg(keys, s.chs[a..b])) + SegIds(Seg(keys, s.chs[b..c]))
  {
    hide Distinct, Ids;
    assert forall j :: 0 <= j < b - a ==> s.chs[a..b][j] == s.chs[a + j];
    assert forall j :: 0 <= j < c - b ==> s.chs[b..c][j] == s.chs[b + j];
    assert forall j :: 0 <= j < c - a ==> s.chs[a..c][j] == s.chs[a + j];
    var x, y, z := Seg(keys, s.chs[a..b]), Seg(keys, s.chs[b..c]), Seg(keys, s.chs[a..c]);
    forall id | id in SegIds(x) + SegIds(y) ensures id in SegIds(z) {
      if id in SegIds(x) {
        var j :| 0 <= j < |x.chs| && id in Ids(x.chs[j]);
        assert x.chs[j] == z.chs[j];
      } else {
        var j :| 0 <= j < |y.chs| && id in Ids(y.chs[j]);
        assert y.chs[j] == z.chs[b - a + j];
      }
    }
    forall id | id in SegIds(z) ensures id in SegIds(x) + SegIds(y) {
      var j :| 0 <= j < |z.chs| && id in Ids(z.chs[j]);
      if j < b - a { assert x.chs[j] == z.chs[j]; } else { assert y.chs[j - (b - a)] == z.chs[j]; }
    }
  }

  // ---- one level up ---------------------------------------------------------

  /** The first nodes of the level above, over the first i children. */
  ghost predicate Above(s: Seg, hi: nat, h: nat, i: nat, lows: seq<Key>, ts: seq<Tree>, n0: nat, next: nat)
    requires 0 < i <= |s.chs| == |s.keys| + 1
  {
    && |lows| == |ts| >= 1 && lows[0] < HiAt(s.keys, hi, i - 1) && (|lows| >= 2 ==> lows[0] < lows[1])
    && Fits(Seg(lows[1..], ts), map[], 0, HiAt(s.keys, hi, i - 1), h + 1)
    && (forall j :: 0 <= j < |ts| ==> Filled(ts[j]))
    && n0 <= next && SegDistinct(Seg(lows[1..], ts))
    && (forall x :: x in SegIds(Seg(lows[1..], ts)) <==> x in SegIds(Seg([], s.chs[..i])) || (x.Built? && n0 <= x.index < next))
    && Flat(ts) == Flat(s.chs[..i])
  }

  /** A node over the children a..b. */
  function Over(s: Seg, a: nat, b: nat, next: nat): Tree
    requires a < b <= |s.chs| == |s.keys| + 1
  {
    Node(Built(next), 0, Seg(s.keys[a..b-1], s.chs[a..b]))
  }

  lemma OverOk(s: Seg, hi: nat, h: nat, a: nat, b: nat, next: nat)
    requires Fits(s, map[], 0, hi, h) && a < b <= |s.chs| && 2 <= b - a <= 2 * B
    requires SegDistinct(s) && BuiltBelow(SegIds(s), next) && forall i :: 0 <= i < |s.chs| ==> Filled(s.chs[i])
    ensures var t := Over(s, a, b, next);
            && Wf(t, map[], LoAt(s.keys, 0, a), HiAt(s.keys, hi, b - 1), h + 1) && Distinct(t)
            && Ids(t) == {Built(next)} + SegIds(Seg([], s.chs[a..b]))
            && FilledRoot(t) && (b - a >= B ==> Filled(t))
            && Entries(t, map[], 0) == Flat(s.chs[a..b])
  {
    hide Entries;
    SliceFits(s, a, b, 0, hi, h);
    var t := Over(s, a, b, next);
    SliceIds(s, a, b, t.kids.keys);
    FlatEntries(t.kids, 0);
    assert t.kids.chs[0..] == t.kids.chs;
    NodeEntries(t, map[], 0);
    assert SegIds(t.kids) == SegIds(Seg([], s.chs[a..b]));
  }

  lemma FirstAbove(s: Seg, hi: nat, h: nat, b: nat, low: Key, next: nat)
    requires Fits(s, map[], 0, hi, h) && B <= b <= |s.chs| && b <= 2 * B && low < hi && (s.keys != [] ==> low < s.keys[0])
    requires SegDistinct(s) && BuiltBelow(SegIds(s), next) && forall i :: 0 <= i < |s.chs| ==> Filled(s.chs[i])
    ensures Above(s, hi, h, b, [low], [Over(s, 0, b, next)], next, next + 1)
  {
    hide Wf, Filled, Distinct, Ids, Entries, Flat, Over;
    var t := Over(s, 0, b, next);
    OverOk(s, hi, h, 0, b, next);
    OneFits(t, map[], 0, HiAt(s.keys, hi, b - 1), h + 1);
    OneIds(t);
    FlatCons(t, []);
    assert s.chs[0..b] == s.chs[..b] && [low][1..] == [];
    LowBelow(s, hi, h, b, low);
  }

  lemma LowBelow(s: Seg, hi: nat, h: nat, b: nat, low: Key)
    requires Fits(s, map[], 0, hi, h) && 0 < b <= |s.chs| && low < hi && (s.keys != [] ==> low < s.keys[0])
    ensures low < HiAt(s.keys, hi, b - 1)
  {
  }

  lemma NextAbove(s: Seg, hi: nat, h: nat, i: nat, b: nat, lows: seq<Key>, ts: seq<Tree>, n0: nat, next: nat)
    requires Fits(s, map[], 0, hi, h) && 0 < i < b <= |s.chs| == |s.keys| + 1 && B <= b - i <= 2 * B
    requires SegDistinct(s) && BuiltBelow(SegIds(s), n0) && forall i :: 0 <= i < |s.chs| ==> Filled(s.chs[i])
    requires Above(s, hi, h, i, lows, ts, n0, next)
    ensures Above(s, hi, h, b, lows + [s.keys[i-1]], ts + [Over(s, i, b, next)], n0, next + 1)
  {
    hide Wf, Filled, Distinct, Ids, Entries, Flat, Over, SegIds, SegDistinct, Fits, Join;
    var t := Over(s, i, b, next);
    BuiltMore(SegIds(s), n0, next);
    OverOk(s, hi, h, i, b, next);
    NextFits(s, hi, h, i, b, lows, ts, t);
    NextIds(s, i, b, lows, ts, t, n0, next);
    FlatCons(t, []);
    FlatJoin(ts, [t]);
    FlatJoin(s.chs[..i], s.chs[i..b]);
    assert s.chs[..b] == s.chs[..i] + s.chs[i..b];
  }

  lemma NextFits(s: Seg, hi: nat, h: nat, i: nat, b: nat, lows: seq<Key>, ts: seq<Tree>, t: Tree)
    requires Fits(s, map[], 0, hi, h) && 0 < i < b <= |s.chs| && |lows| == |ts| >= 1 && (|lows| >= 2 ==> lows[0] < lows[1])
    requires lows[0] < s.keys[i-1] && Fits(Seg(lows[1..], ts), map[], 0, s.keys[i-1], h + 1)
    requires Wf(t, map[], s.keys[i-1], HiAt(s.keys, hi, b - 1), h + 1)
    ensures var lows' := lows + [s.keys[i-1]];
            && Fits(Seg(lows'[1..], ts + [t]), map[], 0, HiAt(s.keys, hi, b - 1), h + 1)
            && lows'[0] < HiAt(s.keys, hi, b - 1) && lows'[0] < lows'[1]
  {
    hide Wf;
    var sep := s.keys[i-1];
    assert i - 1 < b - 1 < |s.keys| ==> s.keys[i-1] < s.keys[b-1];
    OneFits(t, map[], sep, HiAt(s.keys, hi, b - 1), h + 1);
    JoinFits(Seg(lows[1..], ts), sep, One(t), map[], 0, HiAt(s.keys, hi, b - 1), h + 1);
    assert Seg((lows + [sep])[1..], ts + [t]) == Join(Seg(lows[1..], ts), sep, One(t));
  }

  lemma NextIds(s: Seg, i: nat, b: nat, lows: seq<Key>, ts: seq<Tree>, t: Tree, n0: nat, next: nat)
    requires 0 < i < b <= |s.chs| == |s.keys| + 1 && |lows| == |ts| >= 1 && n0 <= next
    requires SegDistinct(s) && BuiltBelow(SegIds(s), n0) && SegDistinct(Seg(lows[1..], ts)) && Distinct(t)
    requires forall x :: x in SegIds(Seg(lows[1..], ts)) <==> x in SegIds(Seg([], s.chs[..i])) || (x.Built? && n0 <= x.index < next)
    requires Ids(t) == {Built(next)} + SegIds(Seg([], s.chs[i..b]))
    ensures var r := Seg((lows + [s.keys[i-1]])[1..], ts + [t]);
            && SegDistinct(r)
            && forall x :: x in SegIds(r) <==> x in SegIds(Seg([], s.chs[..b])) || (x.Built? && n0 <= x.index < next + 1)
  {
    hide Distinct, Ids, SegIds, SegDistinct;
    var r, sep := Seg(lows[1..], ts), s.keys[i-1];
    assert Seg((lows + [sep])[1..], ts + [t]) == Join(r, sep, One(t));
    OneIds(t);
    JoinIds(r, sep, One(t));
    SliceApart(s, 0, i, b, []);
    SliceIds(s, i, b, []);
    SliceIds(s, 0, i, []);
    assert s.chs[0..i] == s.chs[..i] && s.chs[0..b] == s.chs[..b];
    IdsApart(SegIds(Seg([], s.chs[..i])), SegIds(Seg([], s.chs[i..b])), SegIds(r), Ids(t), n0, next);
    JoinDistinct(r, sep, One(t));
  }

  lemma IdsApart(a: set<Id>, b: set<Id>, r: set<Id>, t: set<Id>, n0: nat, next: nat)
    requires a !! b && BuiltBelow(a, n0) && BuiltBelow(b, n0) && n0 <= next && t == {Built(next)} + b
    requires forall x :: x in r <==> x in a || (x.Built? && n0 <= x.index < next)
    ensures r !! t
  {
  }

  lemma BuiltMore(ids: set<Id>, n0: nat, next: nat)
    requires BuiltBelow(ids, n0) && n0 <= next
    ensures BuiltBelow(ids, next)
  {
  }

  /** build_internal: one level above another, until a single node holds them. */
  method BuildInternal(lows: seq<Key>, chs: seq<Tree>, next: nat, ghost hi: nat, ghost h: nat) returns (t: Tree, ghost height: nat, ghost last: nat)
    requires |chs| >= 2 && Row(lows, chs, hi, h, next)
    ensures Wf(t, map[], 0, hi, height) && Distinct(t) && BuiltBelow(Ids(t), last)
    ensures FilledRoot(t) && height > h && Entries(t, map[], 0) == Flat(chs)
    decreases |chs|
  {
    hide Wf, Filled, Distinct, Ids, Entries, Flat, Over, SegIds, SegDistinct, Fits, Above, BuiltBelow, ChunkSize, Carry, Spreading;
    ghost var s := Seg(lows[1..], chs);
    var n := |chs|;
    if n < 2 * B {
      t := Node(Built(next), 0, Seg(lows[1..n], chs[0..n]));
      height, last := h + 1, next + 1;
      RootNode(s, hi, h, next);
      assert t == Over(s, 0, n, next) by { OverIs(s, lows, 0, n, next); }
      return;
    }
    var m := n / B;
    var r := n - m * B;
    var keys, ts := [], [];
    var i, k := 0, 0;
    SpreadStart(n, m, r);
    while i < n
      invariant i <= n && |keys| == |ts| && Spreading(n, m, r, |ts|, i, k)
      invariant i == 0 ==> keys == [] && ts == []
      invariant i > 0 ==> Above(s, hi, h, i, keys, ts, next, next + |ts|)
      decreases n - i
    {
      NextChunk(n, m, r, |ts|, i, k);
      var size := ChunkSize(k, r, m);
      k := Carry(k, r, m);
      var node := Node(Built(next + |ts|), 0, Seg(lows[i+1..i+size], chs[i..i+size]));
      OverIs(s, lows, i, i + size, next + |ts|);
      if i == 0 {
        assert keys == [] && ts == [];
        FirstAbove(s, hi, h, size, lows[0], next);
        assert [] + [lows[0]] == [lows[0]] && [] + [node] == [node];
      } else {
        NextAbove(s, hi, h, i, i + size, keys, ts, next, next + |ts|);
        assert lows[i] == s.keys[i-1];
      }
      keys, ts, i := keys + [lows[i]], ts + [node], i + size;
    }
    LastChunk(n, m, r, |ts|, i, k);
    AboveRow(s, hi, h, keys, ts, next, next + |ts|);
    t, height, last := BuildInternal(keys, ts, next + |ts|, hi, h + 1);
  }

  lemma OverIs(s: Seg, lows: seq<Key>, a: nat, b: nat, next: nat)
    requires |lows| == |s.chs| >= 1 && s.keys == lows[1..] && a < b <= |s.chs|
    ensures Over(s, a, b, next) == Node(Built(next), 0, Seg(lows[a+1..b], s.chs[a..b]))
  {
    assert s.keys[a..b-1] == lows[a+1..b];
  }

  lemma RootNode(s: Seg, hi: nat, h: nat, next: nat)
    requires Fits(s, map[], 0, hi, h) && 2 <= |s.chs| == |s.keys| + 1 <= 2 * B
    requires SegDistinct(s) && BuiltBelow(SegIds(s), next) && forall i :: 0 <= i < |s.chs| ==> Filled(s.chs[i])
    ensures var t := Over(s, 0, |s.chs|, next);
            Wf(t, map[], 0, hi, h + 1) && Distinct(t) && BuiltBelow(Ids(t), next + 1) && FilledRoot(t) && Entries(t, map[], 0) == Flat(s.chs)
  {
    hide Wf, Filled, Distinct, Ids, Entries, Flat, Over, SegIds, SegDistinct, Fits;
    OverOk(s, hi, h, 0, |s.chs|, next);
    SliceIds(s, 0, |s.chs|, []);
    assert s.chs[0..|s.chs|] == s.chs;
  }

  lemma AboveRow(s: Seg, hi: nat, h: nat, lows: seq<Key>, ts: seq<Tree>, n0: nat, next: nat)
    requires 1 <= |s.chs| == |s.keys| + 1 && Above(s, hi, h, |s.chs|, lows, ts, n0, next) && SegDistinct(s) && BuiltBelow(SegIds(s), n0)
    ensures Row(lows, ts, hi, h + 1, next) && Flat(ts) == Flat(s.chs)
  {
    hide Wf, Filled, Distinct, Ids, Entries, Flat, SegIds, SegDistinct, Fits;
    SliceIds(s, 0, |s.chs|, []);
    assert s.chs[0..|s.chs|] == s.chs == s.chs[..|s.chs|];
  }

  // ---- leaves ---------------------------------------------------------------

  ghost predicate SortedPairs(elems: seq<(Key, Val)>, hi: nat) {
    && (forall i, j :: 0 <= i < j < |elems| ==> elems[i].0 < elems[j].0)
    && (forall i :: 0 <= i < |elems| ==> elems[i].0 < hi)
  }

  function PairKeys(elems: seq<(Key, Val)>): (r: seq<Key>)
    ensures |r| == |elems| && forall i :: 0 <= i < |r| ==> r[i] == elems[i].0
  {
    seq(|elems|, i requires 0 <= i < |elems| => elems[i].0)
  }

  function PairVals(elems: seq<(Key, Val)>): (r: seq<Val>)
    ensures |r| == |elems| && forall i :: 0 <= i < |r| ==> r[i] == elems[i].1
  {
    seq(|elems|, i requires 0 <= i < |elems| => elems[i].1)
  }

  /** Where the keys of the elements from i on begin. */
  function From(elems: seq<(Key, Val)>, hi: nat, i: nat): nat {
    if i < |elems| then elems[i].0 else hi
  }

  function LeafOver(elems: seq<(Key, Val)>, next: nat): Tree {
    Leaf(Built(next), 0, PairKeys(elems), PairVals(elems))
  }

  /** A leaf's entries are the pairs it was filled with. */
  lemma LeafOverOk(elems: seq<(Key, Val)>, lo: nat, hi: nat, next: nat)
    requires SortedPairs(elems, hi) && |elems| <= MAX_KEYS && lo < hi && forall i :: 0 <= i < |elems| ==> lo <= elems[i].0
    ensures Wf(LeafOver(elems, next), map[], lo, hi, 0)
    ensures Entries(LeafOver(elems, next), map[], 0) == elems
  {
    hide Base, LeafScan.Items, Ascending;
    LeafItems(elems, hi);
    EmptyOverlay(Base(PairKeys(elems), PairVals(elems)));
  }

  lemma EmptyOverlay(m: map<Key, Val>)
    ensures Overlay(m, [], 0) == m
  {
  }

  lemma LeafItems(elems: seq<(Key, Val)>, hi: nat)
    requires SortedPairs(elems, hi)
    ensures LeafScan.Items(Base(PairKeys(elems), PairVals(elems))) == elems
  {
    hide Base, Ascending, LeafScan.Items;
    var ks, vs := PairKeys(elems), PairVals(elems);
    var m := Base(ks, vs);
    BaseKeys(ks, vs);
    SortedUnique(ks, Ascending(m.Keys));
    forall i | 0 <= i < |elems| ensures LeafScan.Items(m)[i] == elems[i] {
      assert m[ks[i]] == vs[i];
    }
  }

  ghost predicate Leaves(elems: seq<(Key, Val)>, hi: nat, i: nat, lows: seq<Key>, ts: seq<Tree>)
    requires 0 < i <= |elems|
  {
    && |lows| == |ts| >= 1 && lows[0] < From(elems, hi, i) && (|lows| >= 2 ==> lows[0] < lows[1])
    && Fits(Seg(lows[1..], ts), map[], 0, From(elems, hi, i), 0)
    && (forall j :: 0 <= j < |ts| ==> Filled(ts[j]) && Ids(ts[j]) == {Built(j)} && Distinct(ts[j]))
    && Flat(ts) == elems[..i]
  }

  lemma FirstLeaf(elems: seq<(Key, Val)>, hi: nat, b: nat)
    requires SortedPairs(elems, hi) && B <= b <= |elems| && b <= MAX_KEYS
    ensures Leaves(elems, hi, b, [elems[0].0], [LeafOver(elems[..b], 0)])
  {
    hide Entries, Flat, Wf, LeafOver;
    var t := LeafOver(elems[..b], 0);
    assert elems[0].0 < From(elems, hi, b);
    LeafOverOk(elems[..b], 0, From(elems, hi, b), 0);
    LeafOverIs(elems[..b], 0);
    OneFits(t, map[], 0, From(elems, hi, b), 0);
    FlatCons(t, []);
    assert [elems[0].0][1..] == [];
  }

  lemma LeafOverIs(elems: seq<(Key, Val)>, next: nat)
    ensures Ids(LeafOver(elems, next)) == {Built(next)} && Distinct(LeafOver(elems, next))
    ensures |elems| >= B ==> Filled(LeafOver(elems, next))
  {
  }

  lemma NextLeaf(elems: seq<(Key, Val)>, hi: nat, i: nat, b: nat, lows: seq<Key>, ts: seq<Tree>)
    requires SortedPairs(elems, hi) && 0 < i < b <= |elems| && B <= b - i <= MAX_KEYS && Leaves(elems, hi, i, lows, ts)
    ensures Leaves(elems, hi, b, lows + [elems[i].0], ts + [LeafOver(elems[i..b], |ts|)])
  {
    hide Entries, Flat, Wf, Filled, Ids, Distinct, Fits, LeafOver;
    var t, sep := LeafOver(elems[i..b], |ts|), elems[i].0;
    LeafOverOk(elems[i..b], sep, From(elems, hi, b), |ts|);
    LeafOverIs(elems[i..b], |ts|);
    NextLeafFits(elems, hi, i, b, lows, ts, t);
    FlatCons(t, []);
    FlatJoin(ts, [t]);
    assert elems[..b] == elems[..i] + elems[i..b];
  }

  lemma NextLeafFits(elems: seq<(Key, Val)>, hi: nat, i: nat, b: nat, lows: seq<Key>, ts: seq<Tree>, t: Tree)
    requires SortedPairs(elems, hi) && 0 < i < b <= |elems| && |lows| == |ts| >= 1 && (|lows| >= 2 ==> lows[0] < lows[1])
    requires lows[0] < elems[i].0 && Fits(Seg(lows[1..], ts), map[], 0, elems[i].0, 0) && Wf(t, map[], elems[i].0, From(elems, hi, b), 0)
    ensures var lows' := lows + [elems[i].0];
            && Fits(Seg(lows'[1..], ts + [t]), map[], 0, From(elems, hi, b), 0)
            && lows'[0] < From(elems, hi, b) && lows'[0] < lows'[1]
  {
    hide Wf;
    var sep := elems[i].0;
    OneFits(t, map[], sep, From(elems, hi, b), 0);
    JoinFits(Seg(lows[1..], ts), sep, One(t), map[], 0, From(elems, hi, b), 0);
    assert Seg((lows + [sep])[1..], ts + [t]) == Join(Seg(lows[1..], ts), sep, One(t));
  }

  lemma LeavesRow(elems: seq<(Key, Val)>, hi: nat, lows: seq<Key>, ts: seq<Tree>)
    requires |elems| > 0 && Leaves(elems, hi, |elems|, lows, ts)
    ensures Row(lows, ts, hi, 0, |ts|) && Flat(ts) == elems
  {
    hide Entries, Flat, Wf, Filled, Fits, Distinct;
    assert elems[..|elems|] == elems;
    var s := Seg(lows[1..], ts);
    forall x | x in SegIds(s) ensures x.Built? && x.index < |ts| {
      var j :| 0 <= j < |ts| && x in Ids(ts[j]);
    }
  }

  /** build_sorted: a tree whose entries are exactly the sorted input. */
  method BuildSorted(elems: seq<(Key, Val)>, ghost hi: nat) returns (t: Tree, ghost height: nat, ghost next: nat)
    requires SortedPairs(elems, hi) && hi > 0
    ensures Wf(t, map[], 0, hi, height) && Distinct(t) && BuiltBelow(Ids(t), next) && FilledRoot(t)
    ensures Entries(t, map[], 0) == elems
    ensures height > 0 <==> |elems| >= 2 * B
  {
    hide Filled, Distinct, Ids, Entries, Flat, SegIds, SegDistinct, Fits, BuiltBelow, Leaves, LeafOver, Wf, ChunkSize, Carry, Spreading;
    var n := |elems|;
    if n < 2 * B {
      t := Leaf(Built(0), 0, PairKeys(elems), PairVals(elems));
      height, next := 0, 1;
      LeafOverOk(elems, 0, hi, 0);
      OneLeaf(elems);
      return;
    }
    var m := n / B;
    var r := n - m * B;
    var keys, ts := [], [];
    var i, k := 0, 0;
    SpreadStart(n, m, r);
    while i < n
      invariant i <= n && |keys| == |ts| && Spreading(n, m, r, |ts|, i, k)
      invariant i == 0 ==> keys == [] && ts == []
      invariant i > 0 ==> Leaves(elems, hi, i, keys, ts)
      decreases n - i
    {
      NextChunk(n, m, r, |ts|, i, k);
      var size := ChunkSize(k, r, m);
      k := Carry(k, r, m);
      var leaf := Leaf(Built(|ts|), 0, PairKeys(elems[i..i+size]), PairVals(elems[i..i+size]));
      LeafIs(elems[i..i+size], |ts|);
      if i == 0 {
        assert keys == [] && ts == [];
        FirstLeaf(elems, hi, size);
        assert [] + [elems[0].0] == [elems[0].0] && [] + [leaf] == [leaf] && elems[0..size] == elems[..size];
      } else {
        NextLeaf(elems, hi, i, i + size, keys, ts);
      }
      keys, ts, i := keys + [elems[i].0], ts + [leaf], i + size;
    }
    LastChunk(n, m, r, |ts|, i, k);
    LeavesRow(elems, hi, keys, ts);
    t, height, next := BuildInternal(keys, ts, |ts|, hi, 0);
  }

  lemma LeafIs(elems: seq<(Key, Val)>, next: nat)
    ensures LeafOver(elems, next) == Leaf(Built(next), 0, PairKeys(elems), PairVals(elems))
  {
  }

  lemma OneLeaf(elems: seq<(Key, Val)>)
    ensures var t := LeafOver(elems, 0);
            t == Leaf(Built(0), 0, PairKeys(elems), PairVals(elems)) && Distinct(t) && BuiltBelow(Ids(t), 1) && FilledRoot(t)
  {
  }
}
