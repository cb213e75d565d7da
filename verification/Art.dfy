/** Adaptive radix trees over eight-byte keys, with leaf values as seen at one
    version: lookup, insertion with prefix forks and node growth. */
module Art {
  import opened Options
  import opened Records

  type Byte = b: nat | b < 256

  /** A key, most significant byte first. */
  type Word = s: seq<Byte> | |s| == 8 witness [0, 0, 0, 0, 0, 0, 0, 0]

  datatype Kind = K4 | K16 | K48 | K256
  {
    function Capacity(): nat {
      match this
      case K4 => 4
      case K16 => 16
      case K48 => 48
      case K256 => 256
    }

    function Next(): Kind {
      match this
      case K4 => K16
      case K16 => K48
      case K48 => K256
      case K256 => K256
    }
  }

  /** Children are listed in the order of their bytes. */
  datatype Radix =
    | Tip(ofs: nat, key: Word, val: Val)
    | Inner(kind: Kind, ofs: nat, pfx: seq<Byte>, keys: seq<Byte>, chs: seq<Radix>)

  // ---- bytes ----------------------------------------------------------------

  /** prefix_match, as far as a prefix reaches. */
  function MatchLen(p: seq<Byte>, w: Word, ofs: nat): (m: nat)
    requires ofs + |p| <= 8
    ensures m <= |p|
  {
    if p == [] || p[0] != w[ofs] then 0 else 1 + MatchLen(p[1..], w, ofs + 1)
  }

  lemma {:induction false} MatchIs(p: seq<Byte>, w: Word, ofs: nat)
    requires ofs + |p| <= 8
    ensures var m := MatchLen(p, w, ofs);
            w[ofs..ofs+m] == p[..m] && (m < |p| ==> w[ofs+m] != p[m])
  {
    if p != [] && p[0] == w[ofs] {
      MatchIs(p[1..], w, ofs + 1);
      var m := MatchLen(p[1..], w, ofs + 1);
      assert w[ofs..ofs+1+m] == [w[ofs]] + w[ofs+1..ofs+1+m];
      assert p[..1+m] == [p[0]] + p[1..][..m];
    }
  }

  /** The same, byte by byte. */
  lemma {:induction false} MatchByte(p: seq<Byte>, w: Word, ofs: nat, i: nat)
    requires ofs + |p| <= 8 && i < |p|
    ensures i < MatchLen(p, w, ofs) ==> p[i] == w[ofs+i]
    ensures i == MatchLen(p, w, ofs) ==> p[i] != w[ofs+i]
  {
    if i > 0 && p[0] == w[ofs] {
      MatchByte(p[1..], w, ofs + 1, i - 1);
    }
  }

  lemma {:induction false} MatchesAll(p: seq<Byte>, w: Word, ofs: nat)
    requires ofs + |p| <= 8 && w[ofs..ofs+|p|] == p
    ensures MatchLen(p, w, ofs) == |p|
  {
    if p != [] {
      assert w[ofs..ofs+|p|][0] == w[ofs] && w[ofs..ofs+|p|][1..] == w[ofs+1..ofs+|p|];
      MatchesAll(p[1..], w, ofs + 1);
    }
  }

  ghost predicate Ascends(keys: seq<Byte>) {
    forall i, j :: 0 <= i < j < |keys| ==> keys[i] < keys[j]
  }

  function IndexOf(keys: seq<Byte>, b: Byte, from: nat): (r: Option<nat>)
    requires from <= |keys|
    ensures r.Some? ==> from <= r.value < |keys| && keys[r.value] == b
    ensures r.None? ==> forall i :: from <= i < |keys| ==> keys[i] != b
    decreases |keys| - from
  {
    if from == |keys| then None else if keys[from] == b then Some(from) else IndexOf(keys, b, from + 1)
  }

  /** The first position whose byte is above b. */
  function FindGt(keys: seq<Byte>, b: Byte, from: nat): (r: nat)
    requires from <= |keys| && forall i :: 0 <= i < from ==> keys[i] <= b
    ensures r <= |keys| && (forall i :: 0 <= i < r ==> keys[i] <= b) && (r < |keys| ==> keys[r] > b)
    decreases |keys| - from
  {
    if from < |keys| && keys[from] <= b then FindGt(keys, b, from + 1) else from
  }

  function InsertAt<T>(s: seq<T>, i: nat, x: T): (r: seq<T>)
    requires i <= |s|
    ensures |r| == |s| + 1
  {
    s[..i] + [x] + s[i..]
  }

  lemma InsertedAt<T>(s: seq<T>, i: nat, x: T, j: nat)
    requires i <= |s| && j <= |s|
    ensures |InsertAt(s, i, x)| == |s| + 1
    ensures InsertAt(s, i, x)[j] == if j < i then s[j] else if j == i then x else s[j-1]
  {
  }

  // ---- well-formed trees ----------------------------------------------------

  /** The bytes a node stores of its keys. */
  function Prefix(t: Radix): (p: seq<Byte>)
    requires t.Tip? ==> t.ofs <= 8
    ensures t.Tip? ==> t.ofs + |p| == 8
  {
    if t.Tip? then t.key[t.ofs..] else t.pfx
  }

  /** Offsets chain along the path, branches have two children or more, and
      every key below has the path as its prefix. */
  ghost predicate Wf(t: Radix, path: seq<Byte>)
    decreases t
  {
    match t
    case Tip(ofs, key, _) => ofs == |path| <= 8 && key[..ofs] == path
    case Inner(kind, ofs, pfx, keys, chs) =>
      && ofs == |path| && |path| + |pfx| < 8
      && Ascends(keys) && 2 <= |keys| == |chs| <= kind.Capacity()
      && forall i :: 0 <= i < |chs| ==> Wf(chs[i], path + pfx + [keys[i]])
  }

  ghost predicate Under(w: Word, path: seq<Byte>) {
    |path| <= 8 && w[..|path|] == path
  }

  /** find. */
  function Find(t: Radix, w: Word): Option<Val>
    decreases t
  {
    match t
    case Tip(ofs, key, val) =>
      if ofs > 8 || MatchLen(key[ofs..], w, ofs) < 8 - ofs then None else Some(val)
    case Inner(_, ofs, pfx, keys, chs) =>
      if ofs + |pfx| >= 8 || MatchLen(pfx, w, ofs) < |pfx| then None
      else
        var i := IndexOf(keys, w[ofs+|pfx|], 0);
        if i.Some? && i.value < |chs| then Find(chs[i.value], w) else None
  }

  // ---- insertion ------------------------------------------------------------

  /** A node moved below a fork: its first m + 1 bytes are spelled above it. */
  function Lowered(t: Radix, m: nat): Radix
    requires (t.Tip? ==> t.ofs <= 8) && m < |Prefix(t)|
  {
    match t
    case Tip(ofs, key, val) => Tip(ofs + m + 1, key, val)
    case Inner(kind, ofs, pfx, keys, chs) => Inner(kind, ofs + m + 1, pfx[m+1..], keys, chs)
  }

  /** node_fork: a binary node where the prefix and the key part. */
  function Fork(t: Radix, ofs: nat, m: nat, w: Word, v: Val): Radix
    requires (t.Tip? ==> t.ofs <= 8) && m < |Prefix(t)| && ofs + m < 8
  {
    var b0, b1 := Prefix(t)[m], w[ofs+m];
    var low, tip := Lowered(t, m), Tip(ofs + m + 1, w, v);
    if b0 > b1 then Inner(K4, ofs, w[ofs..ofs+m], [b1, b0], [tip, low])
    else Inner(K4, ofs, w[ofs..ofs+m], [b0, b1], [low, tip])
  }

  /** A new child, in a larger node when this one is full. */
  function Widened(t: Radix, b: Byte, c: Radix): Radix
    requires t.Inner? && |t.keys| == |t.chs|
  {
    var i := FindGt(t.keys, b, 0);
    var kind := if |t.keys| >= t.kind.Capacity() then t.kind.Next() else t.kind;
    Inner(kind, t.ofs, t.pfx, InsertAt(t.keys, i, b), InsertAt(t.chs, i, c))
  }

  /** update_inplace. */
  function Insert(t: Radix, ofs: nat, w: Word, v: Val): Radix
    decreases t
  {
    if (t.Tip? && t.ofs > 8) || t.ofs != ofs || ofs + |Prefix(t)| > 8 then t else
    var m := MatchLen(Prefix(t), w, ofs);
    if m < |Prefix(t)| then Fork(t, ofs, m, w, v)
    else
      match t
      case Tip(_, _, _) => t.(val := v)
      case Inner(_, _, pfx, keys, chs) =>
        var o := ofs + |pfx|;
        if o >= 8 || |keys| != |chs| then t else
        var i := IndexOf(keys, w[o], 0);
        if i.Some? then t.(chs := chs[i.value := Insert(chs[i.value], o + 1, w, v)])
        else Widened(t, w[o], Tip(o + 1, w, v))
  }

  // ---- insertion refines a map ----------------------------------------------

  lemma {:induction false} OutsideNone(t: Radix, path: seq<Byte>, u: Word)
    requires Wf(t, path) && Under(u, path) && u[|path|..][..|Prefix(t)|] != Prefix(t)
    ensures |path| + |Prefix(t)| <= 8 && Find(t, u) == None
  {
    var p := Prefix(t);
    MatchIs(p, u, |path|);
    assert u[|path|..][..|p|] == u[|path|..|path|+|p|];
  }

  /** A lookup with the node's prefix goes to the child of the next byte. */
  lemma InnerFind(t: Radix, path: seq<Byte>, u: Word)
    requires t.Inner? && Wf(t, path) && Under(u, path + t.pfx)
    ensures var i := IndexOf(t.keys, u[t.ofs+|t.pfx|], 0);
            && Find(t, u) == (if i.Some? then Find(t.chs[i.value], u) else None)
            && (i.Some? ==> Under(u, path + t.pfx + [t.keys[i.value]]))
  {
    var d := |path + t.pfx|;
    assert u[|path|..|path|+|t.pfx|] == t.pfx by {
      assert u[..d][|path|..] == t.pfx;
    }
    MatchesAll(t.pfx, u, |path|);
    assert u[..d+1] == u[..d] + [u[d]];
  }

  lemma IndexIs(keys: seq<Byte>, i: nat)
    requires Ascends(keys) && i < |keys|
    ensures IndexOf(keys, keys[i], 0) == Some(i)
  {
  }

  /** Two children, in byte order. */
  lemma ForkFind(ofs: nat, pfx: seq<Byte>, a: Byte, b: Byte, l: Radix, r: Radix, path: seq<Byte>, u: Word)
    requires a < b && ofs == |path| && |path| + |pfx| < 8 && Under(u, path)
    requires Wf(l, path + pfx + [a]) && Wf(r, path + pfx + [b])
    ensures var t := Inner(K4, ofs, pfx, [a, b], [l, r]);
            && Wf(t, path)
            && Find(t, u) == if !Under(u, path + pfx) then None
                             else if u[ofs+|pfx|] == a then Find(l, u)
                             else if u[ofs+|pfx|] == b then Find(r, u) else None
  {
    var t := Inner(K4, ofs, pfx, [a, b], [l, r]);
    assert t.keys[0] == a && t.keys[1] == b;
    if Under(u, path + pfx) {
      InnerFind(t, path, u);
    } else {
      if u[|path|..][..|pfx|] == pfx {
        assert u[..|path|+|pfx|] == u[..|path|] + u[|path|..][..|pfx|];
      }
      OutsideNone(t, path, u);
    }
  }

  /** Below a fork a node holds the same keys. */
  lemma LoweredOk(t: Radix, path: seq<Byte>, m: nat, u: Word)
    requires Wf(t, path) && m < |Prefix(t)|
    ensures var q := path + Prefix(t)[..m] + [Prefix(t)[m]];
            && Wf(Lowered(t, m), q)
            && (Under(u, path) ==> Find(t, u) == if Under(u, q) then Find(Lowered(t, m), u) else None)
  {
    var p := Prefix(t);
    var q := path + p[..m] + [p[m]];
    assert q == path + p[..m+1];
    if t.Tip? {
      assert t.key[..|q|] == t.key[..t.ofs] + t.key[t.ofs..][..m+1];
      if Under(u, path) { TipFind(t, path, q, m, u); }
    } else {
      forall i | 0 <= i < |t.chs| ensures Wf(t.chs[i], q + p[m+1..] + [t.keys[i]]) {
        assert q + p[m+1..] == path + p;
      }
      if Under(u, path) { InnerLowered(t, path, q, m, u); }
    }
  }

  lemma TipFind(t: Radix, path: seq<Byte>, q: seq<Byte>, m: nat, u: Word)
    requires t.Tip? && Wf(t, path) && m < |Prefix(t)| && q == path + Prefix(t)[..m+1] && Under(u, path)
    ensures Find(t, u) == if Under(u, q) then Find(Lowered(t, m), u) else None
  {
    TipIs(t, path, u);
    assert t.key[..|q|] == t.key[..t.ofs] + t.key[t.ofs..][..m+1];
    if Under(u, q) {
      TipIs(Lowered(t, m), q, u);
    } else {
      assert u != t.key;
    }
  }

  lemma TipIs(t: Radix, path: seq<Byte>, u: Word)
    requires t.Tip? && Wf(t, path) && Under(u, path)
    ensures Find(t, u) == if u == t.key then Some(t.val) else None
  {
    var p := t.key[t.ofs..];
    assert t.key == t.key[..t.ofs] + p && u == u[..t.ofs] + u[t.ofs..];
    MatchIs(p, u, t.ofs);
    if u == t.key {
      MatchesAll(p, u, t.ofs);
    }
    assert u[t.ofs..8] == u[t.ofs..];
  }

  lemma InnerLowered(t: Radix, path: seq<Byte>, q: seq<Byte>, m: nat, u: Word)
    requires t.Inner? && Wf(t, path) && m < |t.pfx| && q == path + t.pfx[..m+1] && Under(u, path) && Wf(Lowered(t, m), q)
    ensures Find(t, u) == if Under(u, q) then Find(Lowered(t, m), u) else None
  {
    var low := Lowered(t, m);
    assert q + low.pfx == path + t.pfx;
    if Under(u, path + t.pfx) {
      assert u[..|q|] == u[..|path + t.pfx|][..|q|];
      InnerFind(t, path, u);
      InnerFind(low, q, u);
    } else {
      NotUnder(u, path, t.pfx);
      OutsideNone(t, path, u);
      if Under(u, q) {
        NotUnder(u, q, low.pfx);
        OutsideNone(low, q, u);
      }
    }
  }

  lemma NotUnder(u: Word, path: seq<Byte>, p: seq<Byte>)
    requires Under(u, path) && |path| + |p| <= 8 && !Under(u, path + p)
    ensures u[|path|..][..|p|] != p
  {
    assert u[..|path|+|p|] == u[..|path|] + u[|path|..][..|p|];
  }

  /** What an insertion promises. */
  ghost predicate Inserted(t': Radix, t: Radix, path: seq<Byte>, w: Word, v: Val, u: Word) {
    Wf(t', path) && (Under(u, path) ==> Find(t', u) == if u == w then Some(v) else Find(t, u))
  }

  lemma ForkOk(t: Radix, path: seq<Byte>, m: nat, w: Word, v: Val, u: Word)
    requires Wf(t, path) && Under(w, path) && |path| + |Prefix(t)| <= 8
    requires m == MatchLen(Prefix(t), w, |path|) && m < |Prefix(t)|
    ensures Inserted(Fork(t, |path|, m, w, v), t, path, w, v, u)
  {
    hide Find, Wf, Under, Prefix, Lowered;
    var ofs, p := |path|, Prefix(t);
    MatchIs(p, w, ofs);
    var b0, b1, pfx := p[m], w[ofs+m], w[ofs..ofs+m];
    var low, tip := Lowered(t, m), Tip(ofs + m + 1, w, v);
    LoweredOk(t, path, m, u);
    SelfUnder(w, path, m);
    TipAt(tip, path + pfx + [b1]);
    if Under(u, path) {
      ForkSides(t, path, m, w, v, u);
    }
    if b0 > b1 {
      ForkFind(ofs, pfx, b1, b0, tip, low, path, if Under(u, path) then u else w);
    } else {
      ForkFind(ofs, pfx, b0, b1, low, tip, path, if Under(u, path) then u else w);
    }
  }

  /** The byte at the fork tells the new key from the old ones. */
  lemma ForkSides(t: Radix, path: seq<Byte>, m: nat, w: Word, v: Val, u: Word)
    requires Wf(t, path) && Under(w, path) && Under(u, path) && |path| + |Prefix(t)| <= 8
    requires m < |Prefix(t)| && w[|path|..|path|+m] == Prefix(t)[..m] && w[|path|+m] != Prefix(t)[m]
    ensures var ofs, p := |path|, Prefix(t);
            var tip := Tip(ofs + m + 1, w, v);
            (if !Under(u, path + w[ofs..ofs+m]) then None
             else if u[ofs+m] == w[ofs+m] then Find(tip, u)
             else if u[ofs+m] == p[m] then Find(Lowered(t, m), u) else None)
            == if u == w then Some(v) else Find(t, u)
  {
    hide Find, Wf, Prefix, Under;
    var ofs, p := |path|, Prefix(t);
    var x := w[ofs..ofs+m];
    var tip := Tip(ofs + m + 1, w, v);
    LoweredOk(t, path, m, u);
    UnderByte(u, path + x, p[m]);
    UnderByte(u, path + x, w[ofs+m]);
    SelfUnder(w, path, m);
    if Under(u, path + x) && u[ofs+m] == w[ofs+m] {
      TipAt(tip, path + x + [w[ofs+m]]);
      TipIs(tip, path + x + [w[ofs+m]], u);
    }
  }

  lemma UnderByte(u: Word, path: seq<Byte>, b: Byte)
    requires |path| < 8
    ensures Under(u, path + [b]) <==> Under(u, path) && u[|path|] == b
  {
    var d := |path|;
    assert u[..d+1] == u[..d] + [u[d]];
    assert (path + [b])[..d] == path && (path + [b])[d] == b;
  }

  lemma SelfUnder(w: Word, path: seq<Byte>, m: nat)
    requires Under(w, path) && |path| + m < 8
    ensures Under(w, path + w[|path|..|path|+m]) && Under(w, path + w[|path|..|path|+m] + [w[|path|+m]])
  {
    assert w[..|path|+m] == w[..|path|] + w[|path|..|path|+m];
    assert w[..|path|+m+1] == w[..|path|+m] + [w[|path|+m]];
  }

  lemma TipAt(t: Radix, path: seq<Byte>)
    requires t.Tip? && t.ofs == |path| && Under(t.key, path)
    ensures Wf(t, path)
  {
  }

  /** A child replaced by one that holds one more key. */
  lemma ChildOk(t: Radix, path: seq<Byte>, i: nat, c: Radix, w: Word, v: Val, u: Word)
    requires t.Inner? && Wf(t, path) && i < |t.chs| && Under(w, path + t.pfx + [t.keys[i]])
    requires Inserted(c, t.chs[i], path + t.pfx + [t.keys[i]], w, v, u)
    ensures Inserted(t.(chs := t.chs[i := c]), t, path, w, v, u)
  {
    hide Find, Under;
    var t' := t.(chs := t.chs[i := c]);
    assert Wf(t', path);
    IndexIs(t.keys, i);
    InnerCases(t, c, path, i, w, u);
  }

  lemma InnerCases(t: Radix, c: Radix, path: seq<Byte>, i: nat, w: Word, u: Word)
    requires t.Inner? && i < |t.chs| == |t.keys| && Under(w, path + t.pfx + [t.keys[i]])
    requires Wf(t, path) && Wf(t.(chs := t.chs[i := c]), path)
    ensures Under(u, path) ==>
              Find(t.(chs := t.chs[i := c]), u) == if Under(u, path + t.pfx + [t.keys[i]]) then Find(c, u) else Find(t, u)
    ensures Under(u, path) && Under(u, path + t.pfx + [t.keys[i]]) ==> Find(t, u) == Find(t.chs[i], u)
    ensures u == w ==> Under(u, path + t.pfx + [t.keys[i]])
  {
    hide Find, Under, Wf;
    var t' := t.(chs := t.chs[i := c]);
    WfInner(t, path);
    UnderByte(u, path + t.pfx, t.keys[i]);
    IndexIs(t.keys, i);
    if Under(u, path + t.pfx) {
      InnerFind(t, path, u);
      InnerFind(t', path, u);
    } else if Under(u, path) {
      NotUnder(u, path, t.pfx);
      OutsideNone(t, path, u);
      OutsideNone(t', path, u);
    }
  }

  lemma WfInner(t: Radix, path: seq<Byte>)
    requires t.Inner? && Wf(t, path)
    ensures t.ofs == |path| && |path| + |t.pfx| < 8 && Ascends(t.keys) && 2 <= |t.keys| == |t.chs| <= t.kind.Capacity()
    ensures forall i :: 0 <= i < |t.chs| ==> Wf(t.chs[i], path + t.pfx + [t.keys[i]])
  {
  }

  /** Growing a node keeps its children in order and under its capacity. */
  lemma WidenedWf(t: Radix, path: seq<Byte>, b: Byte, c: Radix)
    requires t.Inner? && Wf(t, path) && b !in t.keys && Wf(c, path + t.pfx + [b])
    ensures Wf(Widened(t, b, c), path)
  {
    hide Wf, InsertAt;
    WfInner(t, path);
    var g := FindGt(t.keys, b, 0);
    var t' := Widened(t, b, c);
    Room(t.keys, t.kind);
    forall i, j | 0 <= i < j < |t'.keys| ensures t'.keys[i] < t'.keys[j] {
      InsertedAt(t.keys, g, b, i);
      InsertedAt(t.keys, g, b, j);
      assert g <= j - 1 < |t.keys| ==> t.keys[g] <= t.keys[j-1];
    }
    InsertedAt(t.keys, g, b, 0);
    InsertedAt(t.chs, g, c, 0);
    forall i | 0 <= i < |t'.chs| ensures Wf(t'.chs[i], path + t'.pfx + [t'.keys[i]]) {
      InsertedAt(t.keys, g, b, i);
      InsertedAt(t.chs, g, c, i);
    }
    InnerWf(t', path);
  }

  lemma InnerWf(t: Radix, path: seq<Byte>)
    requires t.Inner? && t.ofs == |path| && |path| + |t.pfx| < 8 && Ascends(t.keys) && 2 <= |t.keys| == |t.chs| <= t.kind.Capacity()
    requires forall i :: 0 <= i < |t.chs| ==> Wf(t.chs[i], path + t.pfx + [t.keys[i]])
    ensures Wf(t, path)
  {
  }

  /** There are no more children than bytes. */
  lemma Room(keys: seq<Byte>, kind: Kind)
    requires Ascends(keys) && |keys| <= kind.Capacity()
    ensures |keys| <= 256
    ensures forall b: Byte :: b !in keys ==> |keys| < 256
  {
    forall b: Byte ensures |keys| == 256 ==> b in keys {
      if |keys| == 256 {
        CountUp(keys, b);
        assert keys[b] == b;
      }
    }
  }

  lemma {:induction false} CountUp(keys: seq<Byte>, i: nat)
    requires Ascends(keys) && i < |keys| == 256
    ensures keys[i] == i
  {
    AtLeast(keys, i);
    AtMost(keys, i);
  }

  lemma {:induction false} AtLeast(keys: seq<Byte>, i: nat)
    requires Ascends(keys) && i < |keys|
    ensures keys[i] >= i
  {
    if i > 0 {
      AtLeast(keys, i - 1);
    }
  }

  lemma {:induction false} AtMost(keys: seq<Byte>, i: nat)
    requires Ascends(keys) && i < |keys| == 256
    ensures keys[i] <= i
    decreases 256 - i
  {
    if i < 255 {
      AtMost(keys, i + 1);
    }
  }

  lemma WidenedOk(t: Radix, path: seq<Byte>, b: Byte, w: Word, v: Val, u: Word)
    requires t.Inner? && Wf(t, path) && b !in t.keys && Under(w, path + t.pfx + [b])
    ensures Inserted(Widened(t, b, Tip(|path| + |t.pfx| + 1, w, v)), t, path, w, v, u)
  {
    hide Find, Under, Wf;
    WfInner(t, path);
    var q := path + t.pfx + [b];
    var tip := Tip(|path| + |t.pfx| + 1, w, v);
    TipAt(tip, q);
    WidenedWf(t, path, b, tip);
    if Under(u, path) {
      WidenedFind(t, path, b, tip, u);
      UnderByte(w, path + t.pfx, b);
      if Under(u, q) { TipIs(tip, q, u); }
    }
  }

  lemma WidenedFind(t: Radix, path: seq<Byte>, b: Byte, c: Radix, u: Word)
    requires t.Inner? && Wf(t, path) && b !in t.keys && Under(u, path) && Wf(Widened(t, b, c), path)
    ensures Find(Widened(t, b, c), u) == if Under(u, path + t.pfx + [b]) then Find(c, u) else Find(t, u)
    ensures Under(u, path + t.pfx + [b]) ==> Find(t, u) == None
  {
    hide Find, Under, Wf;
    WfInner(t, path);
    var t' := Widened(t, b, c);
    UnderByte(u, path + t.pfx, b);
    if Under(u, path + t.pfx) {
      InnerFind(t, path, u);
      InnerFind(t', path, u);
      WidenedIndex(t, path, b, c, u[|path|+|t.pfx|]);
    } else {
      NotUnder(u, path, t.pfx);
      OutsideNone(t, path, u);
      OutsideNone(t', path, u);
    }
  }

  lemma WidenedIndex(t: Radix, path: seq<Byte>, b: Byte, c: Radix, x: Byte)
    requires t.Inner? && Wf(t, path) && b !in t.keys && Wf(Widened(t, b, c), path)
    ensures var i, j := IndexOf(t.keys, x, 0), IndexOf(Widened(t, b, c).keys, x, 0);
            && (x == b ==> i.None? && j.Some? && Widened(t, b, c).chs[j.value] == c)
            && (x != b ==> (i.Some? <==> j.Some?) && (i.Some? ==> Widened(t, b, c).chs[j.value] == t.chs[i.value]))
  {
    hide Wf, InsertAt, IndexOf, FindGt;
    WfInner(t, path);
    var t' := Widened(t, b, c);
    WfInner(t', path);
    var g := FindGt(t.keys, b, 0);
    if x == b {
      InsertedAt(t.keys, g, b, g);
      InsertedAt(t.chs, g, c, g);
      IndexIs(t'.keys, g);
    } else if x in t.keys {
      var i :| 0 <= i < |t.keys| && t.keys[i] == x;
      var j := if i < g then i else i + 1;
      IndexIs(t.keys, i);
      InsertedAt(t.keys, g, b, j);
      InsertedAt(t.chs, g, c, j);
      IndexIs(t'.keys, j);
    } else {
      forall j | 0 <= j < |t'.keys| ensures t'.keys[j] != x { InsertedAt(t.keys, g, b, j); }
    }
  }

  /** Inserting a key changes the map at that key only, whatever prefixes fork
      and nodes grow on the way. */
  lemma {:induction false} InsertOk(t: Radix, path: seq<Byte>, w: Word, v: Val, u: Word)
    requires Wf(t, path) && Under(w, path)
    ensures Inserted(Insert(t, |path|, w, v), t, path, w, v, u)
    decreases t
  {
    hide Find, Under, Wf, Fork, Widened, Inserted;
    PrefixFits(t, path);
    var ofs, p := |path|, Prefix(t);
    var m := MatchLen(p, w, ofs);
    if m < |p| {
      ForkOk(t, path, m, w, v, u);
    } else if t.Tip? {
      TipWritten(t, path, w, v, u);
    } else {
      WfInner(t, path);
      MatchIs(p, w, ofs);
      Descends(w, path, p);
      var o := ofs + |p|;
      var i := IndexOf(t.keys, w[o], 0);
      UnderByte(w, path + p, w[o]);
      if i.Some? {
        InsertOk(t.chs[i.value], path + p + [w[o]], w, v, u);
        ChildOk(t, path, i.value, Insert(t.chs[i.value], o + 1, w, v), w, v, u);
      } else {
        WidenedOk(t, path, w[o], w, v, u);
      }
    }
  }

  lemma PrefixFits(t: Radix, path: seq<Byte>)
    requires Wf(t, path)
    ensures t.ofs == |path| && |path| + |Prefix(t)| <= 8
  {
  }

  lemma Descends(w: Word, path: seq<Byte>, p: seq<Byte>)
    requires Under(w, path) && |path| + |p| <= 8 && w[|path|..|path|+|p|] == p
    ensures Under(w, path + p)
  {
    assert w[..|path|+|p|] == w[..|path|] + w[|path|..|path|+|p|];
  }

  lemma TipWritten(t: Radix, path: seq<Byte>, w: Word, v: Val, u: Word)
    requires t.Tip? && Wf(t, path) && Under(w, path) && |path| + |Prefix(t)| <= 8 && MatchLen(Prefix(t), w, |path|) == |Prefix(t)|
    ensures Inserted(t.(val := v), t, path, w, v, u)
  {
    MatchIs(Prefix(t), w, |path|);
    assert t.key == t.key[..t.ofs] + t.key[t.ofs..] && w == w[..t.ofs] + w[t.ofs..] && w[t.ofs..8] == w[t.ofs..];
    if Under(u, path) {
      TipIs(t, path, u);
      TipIs(t.(val := v), path, u);
    }
  }

  // ---- whole trees ----------------------------------------------------------

  function FindRoot(t: Option<Radix>, w: Word): Option<Val> {
    if t.None? then None else Find(t.value, w)
  }

  function InsertRoot(t: Option<Radix>, w: Word, v: Val): Option<Radix> {
    Some(if t.None? then Tip(0, w, v) else Insert(t.value, 0, w, v))
  }

  ghost predicate WfRoot(t: Option<Radix>) {
    t.Some? ==> Wf(t.value, [])
  }

  /** build: the tree after a sequence of updates. */
  function Build(elems: seq<(Word, Val)>): Option<Radix> {
    if elems == [] then None else InsertRoot(Build(elems[..|elems|-1]), elems[|elems|-1].0, elems[|elems|-1].1)
  }

  /** The map a sequence of updates stands for. */
  function Latest(elems: seq<(Word, Val)>, u: Word): Option<Val> {
    if elems == [] then None
    else if elems[|elems|-1].0 == u then Some(elems[|elems|-1].1)
    else Latest(elems[..|elems|-1], u)
  }

  lemma RootOk(t: Option<Radix>, w: Word, v: Val, u: Word)
    requires WfRoot(t)
    ensures WfRoot(InsertRoot(t, w, v)) && FindRoot(InsertRoot(t, w, v), u) == if u == w then Some(v) else FindRoot(t, u)
  {
    assert w[..0] == [] && u[..0] == [];
    if t.Some? {
      InsertOk(t.value, [], w, v, u);
    } else {
      TipAt(Tip(0, w, v), []);
      TipIs(Tip(0, w, v), [], u);
    }
  }

  /** Any sequence of insertions and updates makes lookups agree with the map. */
  lemma {:induction false} BuildRefines(elems: seq<(Word, Val)>, u: Word)
    ensures WfRoot(Build(elems)) && FindRoot(Build(elems), u) == Latest(elems, u)
  {
    hide InsertRoot, FindRoot, WfRoot;
    if elems == [] {
      EmptyRoot(u);
    } else {
      var n := |elems| - 1;
      BuildRefines(elems[..n], u);
      RootOk(Build(elems[..n]), elems[n].0, elems[n].1, u);
    }
  }

  lemma EmptyRoot(u: Word)
    ensures WfRoot(None) && FindRoot(None, u) == None
  {
  }
}
