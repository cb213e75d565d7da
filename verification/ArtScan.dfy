/** Ordered scans of a radix tree. */
module ArtScan {
  import opened Options
  import opened Records
  import opened Art
  import L = LeafScan
  import BTreeScan

  // ---- key order ------------------------------------------------------------

  /** Byte by byte, most significant first. */
  predicate Less(a: Word, b: Word, i: nat)
    requires i <= 8
    decreases 8 - i
  {
    i < 8 && (a[i] < b[i] || (a[i] == b[i] && Less(a, b, i + 1)))
  }

  /** The number a key stands for, from byte i on. */
  function Value(w: Word, i: nat): nat
    requires i <= 8
    decreases 8 - i
  {
    if i == 8 then 0 else Place(w[i], 7 - i) + Value(w, i + 1)
  }

  function Place(b: Byte, n: nat): nat {
    b * Pow256(n)
  }

  function Pow256(n: nat): (r: nat)
    ensures r >= 1
  {
    if n == 0 then 1 else 256 * Pow256(n - 1)
  }

  lemma {:induction false} ValueBound(w: Word, i: nat)
    requires i <= 8
    ensures Value(w, i) < Pow256(8 - i)
    decreases 8 - i
  {
    if i < 8 {
      ValueBound(w, i + 1);
      PlaceBound(w[i], 7 - i);
    }
  }

  lemma PlaceBound(b: Byte, n: nat)
    ensures Place(b, n) + Pow256(n) <= Pow256(n + 1)
  {
    assert (b + 1) * Pow256(n) <= 256 * Pow256(n);
  }

  /** The byte order of keys is their numeric order. */
  lemma {:induction false} LessIsNumeric(a: Word, b: Word, i: nat)
    requires i <= 8
    ensures Less(a, b, i) <==> Value(a, i) < Value(b, i)
    decreases 8 - i
  {
    hide Place, Pow256;
    if i < 8 {
      LessIsNumeric(a, b, i + 1);
      ValueBound(a, i + 1);
      ValueBound(b, i + 1);
      PlaceOrder(a[i], b[i], 7 - i);
      PlaceOrder(b[i], a[i], 7 - i);
    }
  }

  lemma PlaceOrder(x: Byte, y: Byte, n: nat)
    ensures x < y ==> Place(x, n) + Pow256(n) <= Place(y, n)
  {
    if x < y {
      assert (x + 1) * Pow256(n) <= y * Pow256(n);
    }
  }

  // ---- entries --------------------------------------------------------------

  type Items = seq<(Word, Val)>

  function ItemsOf(t: Radix): Items
    decreases t, 0
  {
    match t
    case Tip(_, key, val) => [(key, val)]
    case Inner(_, _, _, _, chs) => ItemsFrom(chs, 0)
  }

  function ItemsFrom(chs: seq<Radix>, i: nat): Items
    decreases chs, |chs| - i
  {
    if i >= |chs| then [] else ItemsOf(chs[i]) + ItemsFrom(chs, i + 1)
  }

  ghost predicate Sorted(s: Items) {
    forall i, j :: 0 <= i < j < |s| ==> Less(s[i].0, s[j].0, 0)
  }

  ghost predicate AllUnder(s: Items, path: seq<Byte>) {
    forall i :: 0 <= i < |s| ==> Under(s[i].0, path)
  }

  /** Keys that part at a byte compare as that byte. */
  lemma {:induction false} PartAt(a: Word, b: Word, path: seq<Byte>, i: nat)
    requires |path| < 8 && i <= |path| && Under(a, path) && Under(b, path)
    ensures a[|path|] < b[|path|] ==> Less(a, b, i)
    ensures a[|path|] > b[|path|] ==> !Less(a, b, i)
    decreases |path| - i
  {
    if i < |path| {
      assert a[..|path|][i] == b[..|path|][i];
      PartAt(a, b, path, i + 1);
    }
  }

  lemma {:induction false} NotSelf(a: Word, i: nat)
    requires i <= 8
    ensures !Less(a, a, i)
    decreases 8 - i
  {
    if i < 8 { NotSelf(a, i + 1); }
  }

  /** The items of the children from i on are sorted and have bytes from there. */
  ghost predicate ChildItems(t: Radix, path: seq<Byte>, i: nat, s: Items)
    requires t.Inner? && |path + t.pfx| < 8 && i <= |t.keys|
  {
    && Sorted(s) && AllUnder(s, path + t.pfx)
    && forall j :: 0 <= j < |s| ==> i < |t.keys| && t.keys[i] <= s[j].0[|path + t.pfx|]
  }

  lemma {:induction false} ItemsSorted(t: Radix, path: seq<Byte>)
    requires Wf(t, path)
    ensures Sorted(ItemsOf(t)) && AllUnder(ItemsOf(t), path) && ItemsOf(t) != []
    decreases t, 1
  {
    match t {
      case Tip(_, _, _) =>
      case Inner(_, _, _, _, chs) =>
        ChildrenSorted(t, path, 0);
        ShorterUnder(ItemsFrom(chs, 0), path, t.pfx);
        ItemsSorted(chs[0], path + t.pfx + [t.keys[0]]);
    }
  }

  lemma ShorterUnder(s: Items, path: seq<Byte>, p: seq<Byte>)
    requires AllUnder(s, path + p)
    ensures AllUnder(s, path)
  {
    forall i | 0 <= i < |s| ensures Under(s[i].0, path) {
      var w := s[i].0;
      assert w[..|path + p|][..|path|] == w[..|path|] && (path + p)[..|path|] == path;
    }
  }

  lemma {:induction false} ChildrenSorted(t: Radix, path: seq<Byte>, i: nat)
    requires t.Inner? && |path + t.pfx| < 8 && i <= |t.keys| == |t.chs| && Wf(t, path)
    ensures ChildItems(t, path, i, ItemsFrom(t.chs, i))
    decreases t, 0, |t.chs| - i
  {
    hide Wf, Under;
    WfInner(t, path);
    if i < |t.chs| {
      ItemsSorted(t.chs[i], path + t.pfx + [t.keys[i]]);
      ChildrenSorted(t, path, i + 1);
      OneMore(t, path, i, ItemsOf(t.chs[i]), ItemsFrom(t.chs, i + 1));
    }
  }

  lemma OneMore(t: Radix, path: seq<Byte>, i: nat, a: Items, b: Items)
    requires t.Inner? && |path + t.pfx| < 8 && i < |t.keys| && Ascends(t.keys)
    requires Sorted(a) && AllUnder(a, path + t.pfx + [t.keys[i]]) && ChildItems(t, path, i + 1, b)
    ensures ChildItems(t, path, i, a + b)
  {
    hide Less;
    var q := path + t.pfx;
    forall j | 0 <= j < |a| ensures Under(a[j].0, q) && a[j].0[|q|] == t.keys[i] {
      UnderByte(a[j].0, q, t.keys[i]);
    }
    forall j, k | 0 <= j < |a| && 0 <= k < |b| ensures Less(a[j].0, b[k].0, 0) {
      PartAt(a[j].0, b[k].0, q, 0);
    }
    forall j | 0 <= j < |a + b| ensures Under((a + b)[j].0, q) && t.keys[i] <= (a + b)[j].0[|q|] {
      if j >= |a| { assert (a + b)[j] == b[j - |a|]; }
    }
  }

  /** The value listed for a key. */
  function Assoc(s: Items, u: Word): Option<Val> {
    if s == [] then None else if s[0].0 == u then Some(s[0].1) else Assoc(s[1..], u)
  }

  lemma {:induction false} AssocJoin(a: Items, b: Items, u: Word)
    ensures Assoc(a + b, u) == if Assoc(a, u).Some? then Assoc(a, u) else Assoc(b, u)
  {
    if a == [] {
      assert a + b == b;
    } else {
      assert (a + b)[1..] == a[1..] + b;
      AssocJoin(a[1..], b, u);
    }
  }

  lemma {:induction false} AssocNone(s: Items, u: Word)
    requires forall i :: 0 <= i < |s| ==> s[i].0 != u
    ensures Assoc(s, u) == None
  {
    if s != [] {
      AssocNone(s[1..], u);
    }
  }

  /** The items are exactly what lookups find. */
  lemma {:induction false} ItemsAreFound(t: Radix, path: seq<Byte>, u: Word)
    requires Wf(t, path) && Under(u, path)
    ensures Assoc(ItemsOf(t), u) == Find(t, u)
    decreases t, 1
  {
    hide Find, Wf, Under;
    match t {
      case Tip(_, _, _) => TipIs(t, path, u);
      case Inner(_, _, _, _, _) =>
        WfInner(t, path);
        if Under(u, path + t.pfx) {
          InnerFind(t, path, u);
          ChildrenFound(t, path, 0, u);
        } else {
          ChildrenSorted(t, path, 0);
          OutsideItems(ItemsFrom(t.chs, 0), path + t.pfx, u);
          NotUnder(u, path, t.pfx);
          OutsideNone(t, path, u);
        }
    }
  }

  lemma OutsideItems(s: Items, q: seq<Byte>, u: Word)
    requires AllUnder(s, q) && !Under(u, q)
    ensures Assoc(s, u) == None
  {
    hide Under;
    AssocNone(s, u);
  }

  lemma {:induction false} ChildrenFound(t: Radix, path: seq<Byte>, i: nat, u: Word)
    requires t.Inner? && |path + t.pfx| < 8 && i <= |t.keys| == |t.chs| && Wf(t, path) && Under(u, path + t.pfx)
    ensures var j := IndexOf(t.keys, u[|path + t.pfx|], 0);
            Assoc(ItemsFrom(t.chs, i), u) == if j.Some? && j.value >= i then Find(t.chs[j.value], u) else None
    decreases t, 0, |t.chs| - i
  {
    hide Wf, Find, Under;
    WfInner(t, path);
    if i < |t.chs| {
      var q := path + t.pfx;
      var a := ItemsOf(t.chs[i]);
      ChildrenFound(t, path, i + 1, u);
      AssocJoin(a, ItemsFrom(t.chs, i + 1), u);
      UnderByte(u, q, t.keys[i]);
      IndexIs(t.keys, i);
      if u[|q|] == t.keys[i] {
        ItemsAreFound(t.chs[i], q + [t.keys[i]], u);
        RestNone(t, path, i + 1, u);
      } else {
        ItemsSorted(t.chs[i], q + [t.keys[i]]);
        AssocNone(a, u);
      }
    }
  }

  /** Later children do not hold a key of an earlier byte. */
  lemma RestNone(t: Radix, path: seq<Byte>, i: nat, u: Word)
    requires t.Inner? && |path + t.pfx| < 8 && 0 < i <= |t.keys| == |t.chs| && Wf(t, path) && u[|path + t.pfx|] == t.keys[i-1]
    ensures Assoc(ItemsFrom(t.chs, i), u) == None
  {
    hide Wf, Under;
    WfInner(t, path);
    ChildrenSorted(t, path, i);
    AssocNone(ItemsFrom(t.chs, i), u);
  }

  // ---- scanning -------------------------------------------------------------

  /** The items from a key on. */
  function From(s: Items, key: Word): Items {
    if s == [] then [] else if Less(s[0].0, key, 0) then From(s[1..], key) else s
  }

  /** The first child a scan starts with, after a byte if one is given. */
  function StartOf(t: Radix, after: Option<Byte>): (i: nat)
    requires t.Inner?
    ensures i <= |t.keys|
  {
    if after.None? then 0 else FindGt(t.keys, after.value, 0)
  }

  function Rest(t: Radix, i: nat, n: nat, ret: Items): Items
    requires t.Inner?
  {
    ret + L.Take(ItemsFrom(t.chs, i), n - |ret|)
  }

  lemma RestStep(t: Radix, i: nat, n: nat, ret: Items)
    requires t.Inner? && i < |t.chs| && |ret| < n
    ensures var ret' := ret + L.Take(ItemsOf(t.chs[i]), n - |ret|);
            |ret'| <= n && Rest(t, i + 1, n, ret') == Rest(t, i, n, ret)
  {
    hide L.Take, ItemsOf;
    var a, b, k := ItemsOf(t.chs[i]), ItemsFrom(t.chs, i + 1), n - |ret|;
    BTreeScan.TakeMore(a, b, k);
    assert (ret + L.Take(a, k)) + L.Take(b, k - |L.Take(a, k)|) == ret + (L.Take(a, k) + L.Take(b, k - |L.Take(a, k)|));
  }

  lemma RestEnds(t: Radix, i: nat, n: nat, ret: Items)
    requires t.Inner? && (i >= |t.chs| || |ret| >= n)
    ensures Rest(t, i, n, ret) == ret
  {
  }

  /** scan_append: the items of a subtree, or of the children after a byte. A
      leaf is appended without looking at the bound. */
  method ScanAppend(t: Radix, after: Option<Byte>, n: nat, before: Items, ghost path: seq<Byte>) returns (ret: Items)
    requires Wf(t, path)
    ensures t.Tip? ==> ret == before + [(t.key, t.val)]
    ensures t.Inner? ==> ret == Rest(t, StartOf(t, after), n, before)
    decreases t
  {
    hide Wf, Rest, StartOf, IndexOf;
    match t {
      case Tip(_, key, val) => ret := before + [(key, val)];
      case Inner(kind, _, _, _, _) =>
        WfInner(t, path);
        ret := before;
        if kind == K4 || kind == K16 {
          var i := StartOf(t, after);
          while |ret| < n && i < |t.keys|
            invariant i <= |t.keys| && Rest(t, i, n, ret) == Rest(t, StartOf(t, after), n, before)
            decreases |t.keys| - i
          {
            RestStep(t, i, n, ret);
            ret := ScanChild(t, i, n, ret, path);
            i := i + 1;
          }
          RestEnds(t, i, n, ret);
        } else {
          ret := ScanBytes(t, after, n, before, path);
        }
    }
  }

  method ScanChild(t: Radix, i: nat, n: nat, before: Items, ghost path: seq<Byte>) returns (ret: Items)
    requires t.Inner? && Wf(t, path) && i < |t.chs| && |before| < n
    ensures ret == before + L.Take(ItemsOf(t.chs[i]), n - |before|)
    decreases t, 0
  {
    hide Wf, L.Take;
    WfInner(t, path);
    ret := ScanAppend(t.chs[i], None, n, before, path + t.pfx + [t.keys[i]]);
    WholeChild(t.chs[i], n, before);
  }

  lemma WholeChild(t: Radix, n: nat, before: Items)
    requires |before| < n
    ensures t.Tip? ==> L.Take(ItemsOf(t), n - |before|) == [(t.key, t.val)]
    ensures t.Inner? ==> Rest(t, StartOf(t, None), n, before) == before + L.Take(ItemsOf(t), n - |before|)
  {
  }

  lemma BytePosition(keys: seq<Byte>, b: Byte, i: nat)
    requires Ascends(keys) && i <= |keys| && (forall j :: 0 <= j < i ==> keys[j] < b) && (i < |keys| ==> keys[i] >= b)
    ensures IndexOf(keys, b, 0) == if i < |keys| && keys[i] == b then Some(i) else None
    ensures i + 1 < |keys| ==> keys[i] < keys[i+1]
  {
    if i < |keys| && keys[i] == b {
      IndexIs(keys, i);
    }
  }

  lemma GtAfter(keys: seq<Byte>, i: nat)
    requires Ascends(keys) && i < |keys|
    ensures FindGt(keys, keys[i], 0) == i + 1
  {
    assert i + 1 < |keys| ==> keys[i] < keys[i+1];
  }

  /** The byte loop of the two larger nodes: absent bytes are skipped. */
  method ScanBytes(t: Radix, after: Option<Byte>, n: nat, before: Items, ghost path: seq<Byte>) returns (ret: Items)
    requires t.Inner? && Wf(t, path)
    ensures ret == Rest(t, StartOf(t, after), n, before)
    decreases t, 1
  {
    hide Wf, Rest, ItemsFrom;
    WfInner(t, path);
    ret := before;
    ghost var i: nat := StartOf(t, after);
    var b := if after.None? then 0 else after.value + 1;
    while |ret| < n && b < 256
      invariant b <= 256 && i <= |t.keys| && Rest(t, i, n, ret) == Rest(t, StartOf(t, after), n, before)
      invariant (forall j :: 0 <= j < i ==> t.keys[j] < b) && (i < |t.keys| ==> t.keys[i] >= b)
      decreases 256 - b
    {
      var idx := IndexOf(t.keys, b, 0);
      BytePosition(t.keys, b, i);
      if idx.Some? {
        RestStep(t, i, n, ret);
        ret := ScanChild(t, idx.value, n, ret, path);
        i := i + 1;
      }
      b := b + 1;
    }
    RestEnds(t, i, n, ret);
  }

  // ---- searching ------------------------------------------------------------

  lemma {:induction false} FromJoin(a: Items, b: Items, key: Word)
    requires forall i :: 0 <= i < |b| ==> !Less(b[i].0, key, 0)
    ensures From(a + b, key) == From(a, key) + b
  {
    if a == [] {
      assert a + b == b;
      assert b != [] ==> !Less(b[0].0, key, 0);
    } else {
      assert (a + b)[1..] == a[1..] + b;
      FromJoin(a[1..], b, key);
    }
  }

  lemma {:induction false} FromSkips(a: Items, b: Items, key: Word)
    requires forall i :: 0 <= i < |a| ==> Less(a[i].0, key, 0)
    ensures From(a + b, key) == From(b, key)
  {
    if a == [] {
      assert a + b == b;
    } else {
      assert (a + b)[1..] == a[1..] + b;
      FromSkips(a[1..], b, key);
    }
  }

  lemma FromNone(s: Items, key: Word)
    requires forall i :: 0 <= i < |s| ==> Less(s[i].0, key, 0)
    ensures From(s, key) == []
  {
    FromSkips(s, [], key);
    assert s + [] == s;
  }

  lemma FromAll(s: Items, key: Word)
    requires forall i :: 0 <= i < |s| ==> !Less(s[i].0, key, 0)
    ensures From(s, key) == s
  {
    assert s != [] ==> !Less(s[0].0, key, 0);
  }

  /** A subtree whose prefix parts from the key lies on one side of it. */
  lemma OneSide(t: Radix, path: seq<Byte>, key: Word, m: nat)
    requires Wf(t, path) && Under(key, path) && |path| + |Prefix(t)| <= 8
    requires m == MatchLen(Prefix(t), key, |path|) && m < |Prefix(t)|
    ensures From(ItemsOf(t), key) == if Prefix(t)[m] < key[|path|+m] then [] else ItemsOf(t)
  {
    hide Wf, Under, Less;
    var d := |path| + m;
    MatchIs(Prefix(t), key, |path|);
    forall i | 0 <= i < |ItemsOf(t)|
      ensures Less(ItemsOf(t)[i].0, key, 0) <==> Prefix(t)[m] < key[d]
    {
      var u := ItemsOf(t)[i].0;
      ItemPrefix(t, path, i);
      UnderSame(u, key, path, Prefix(t), m);
      PartAt(u, key, path + Prefix(t)[..m], 0);
    }
    if Prefix(t)[m] < key[d] {
      FromNone(ItemsOf(t), key);
    } else {
      FromAll(ItemsOf(t), key);
    }
  }

  lemma ItemPrefix(t: Radix, path: seq<Byte>, i: nat)
    requires Wf(t, path) && i < |ItemsOf(t)|
    ensures Under(ItemsOf(t)[i].0, path + Prefix(t))
  {
    if t.Tip? {
      assert path + t.key[t.ofs..] == t.key == t.key[..8];
    } else {
      ChildrenSorted(t, path, 0);
    }
  }

  lemma UnderSame(u: Word, key: Word, path: seq<Byte>, p: seq<Byte>, m: nat)
    requires |path| + |p| <= 8 && m < |p| && Under(u, path + p) && Under(key, path) && key[|path|..|path|+m] == p[..m]
    ensures Under(u, path + p[..m]) && Under(key, path + p[..m]) && u[|path|+m] == p[m]
  {
    var d := |path| + m;
    assert key[..d] == key[..|path|] + key[|path|..d];
    assert u[..d] == u[..|path + p|][..d] && (path + p)[..d] == path + p[..m];
    assert u[..|path + p|][d] == (path + p)[d];
  }

  /** The leaf a search for the key ends at, or passes just before. */
  predicate EndsAtTip(t: Radix, key: Word)
    decreases t
  {
    match t
    case Tip(ofs, k, _) =>
      ofs <= 8 && (var m := MatchLen(k[ofs..], key, ofs); m == 8 - ofs || k[ofs+m] >= key[ofs+m])
    case Inner(_, ofs, pfx, keys, chs) =>
      ofs + |pfx| < 8 && MatchLen(pfx, key, ofs) == |pfx|
      && var i := IndexOf(keys, key[ofs+|pfx|], 0); i.Some? && i.value < |chs| && EndsAtTip(chs[i.value], key)
  }

  lemma Parted(t: Radix, path: seq<Byte>, key: Word, n: nat, m: nat)
    requires Wf(t, path) && Under(key, path) && |path| + |Prefix(t)| <= 8
    requires m == MatchLen(Prefix(t), key, |path|) && m < |Prefix(t)|
    ensures var low := Prefix(t)[m] < key[|path|+m];
            && (EndsAtTip(t, key) <==> t.Tip? && !low)
            && L.Take<(Word, Val)>([], n) == []
            && (t.Tip? && n >= 1 ==> L.Take(ItemsOf(t), n) == [(t.key, t.val)])
            && (t.Inner? ==> Rest(t, StartOf(t, None), n, []) == L.Take(ItemsOf(t), n) && (n == 0 ==> L.Take(ItemsOf(t), n) == []))
  {
    if t.Tip? {
      assert t.key[t.ofs..][m] == t.key[t.ofs+m];
    } else {
      assert [] + L.Take(ItemsOf(t), n) == L.Take(ItemsOf(t), n);
    }
  }

  lemma TipFrom(t: Radix, path: seq<Byte>, key: Word, n: nat)
    requires t.Tip? && Wf(t, path) && Under(key, path) && |path| + |Prefix(t)| <= 8 && MatchLen(Prefix(t), key, |path|) == |Prefix(t)|
    ensures EndsAtTip(t, key) && (n >= 1 ==> L.Take(From(ItemsOf(t), key), n) == [(t.key, t.val)])
  {
    hide Less, L.Take, From;
    SameTip(t, path, key);
    OneItem(key, t.val, n);
  }

  lemma SameTip(t: Radix, path: seq<Byte>, key: Word)
    requires t.Tip? && Wf(t, path) && Under(key, path) && |path| + |Prefix(t)| <= 8 && MatchLen(Prefix(t), key, |path|) == |Prefix(t)|
    ensures t.key == key
  {
    MatchIs(Prefix(t), key, |path|);
    assert t.key == t.key[..t.ofs] + t.key[t.ofs..] && key == key[..t.ofs] + key[t.ofs..] && key[t.ofs..8] == key[t.ofs..];
  }

  lemma OneItem(key: Word, val: Val, n: nat)
    ensures n >= 1 ==> L.Take(From([(key, val)], key), n) == [(key, val)]
  {
    NotSelf(key, 0);
  }

  /** Children of smaller bytes hold smaller keys. */
  lemma {:induction false} SkipChildren(t: Radix, path: seq<Byte>, key: Word, j: nat)
    requires t.Inner? && Wf(t, path) && |path + t.pfx| < 8 && Under(key, path + t.pfx) && j <= |t.keys| == |t.chs|
    requires forall i :: 0 <= i < j ==> t.keys[i] < key[|path + t.pfx|]
    ensures From(ItemsFrom(t.chs, 0), key) == From(ItemsFrom(t.chs, j), key)
  {
    hide Wf, Under, Less;
    if j > 0 {
      var q := path + t.pfx;
      WfInner(t, path);
      SkipChildren(t, path, key, j - 1);
      ItemsSorted(t.chs[j-1], q + [t.keys[j-1]]);
      var items := ItemsOf(t.chs[j-1]);
      forall i | 0 <= i < |items| ensures Less(items[i].0, key, 0) {
        var u := items[i].0;
        UnderByte(u, q, t.keys[j-1]);
        PartAt(u, key, q, 0);
      }
      FromSkips(items, ItemsFrom(t.chs, j), key);
    }
  }

  /** Children of larger bytes hold larger keys. */
  lemma LaterChildren(t: Radix, path: seq<Byte>, key: Word, j: nat)
    requires t.Inner? && Wf(t, path) && |path + t.pfx| < 8 && Under(key, path + t.pfx) && j <= |t.keys| == |t.chs|
    requires j < |t.keys| ==> key[|path + t.pfx|] < t.keys[j]
    ensures forall i :: 0 <= i < |ItemsFrom(t.chs, j)| ==> !Less(ItemsFrom(t.chs, j)[i].0, key, 0)
  {
    hide Wf, Under, Less;
    ChildrenSorted(t, path, j);
    forall i | 0 <= i < |ItemsFrom(t.chs, j)| ensures !Less(ItemsFrom(t.chs, j)[i].0, key, 0) {
      PartAt(ItemsFrom(t.chs, j)[i].0, key, path + t.pfx, 0);
    }
  }

  lemma InnerItems(t: Radix, path: seq<Byte>, key: Word)
    requires t.Inner? && Wf(t, path) && |path + t.pfx| < 8 && Under(key, path + t.pfx) && |t.keys| == |t.chs|
    ensures var b := key[|path + t.pfx|];
            var i, g := IndexOf(t.keys, b, 0), FindGt(t.keys, b, 0);
            From(ItemsOf(t), key) == (if i.Some? then From(ItemsOf(t.chs[i.value]), key) else []) + ItemsFrom(t.chs, g)
  {
    hide Wf, Under, Less;
    WfInner(t, path);
    var b := key[|path + t.pfx|];
    var i, g := IndexOf(t.keys, b, 0), FindGt(t.keys, b, 0);
    LaterChildren(t, path, key, g);
    if i.Some? {
      GtAfter(t.keys, i.value);
      SkipChildren(t, path, key, i.value);
      FromJoin(ItemsOf(t.chs[i.value]), ItemsFrom(t.chs, g), key);
    } else {
      SkipChildren(t, path, key, g);
      FromAll(ItemsFrom(t.chs, g), key);
      assert [] + ItemsFrom(t.chs, g) == ItemsFrom(t.chs, g);
    }
  }

  /** The child searched, then the children after its byte. */
  lemma SearchInner(t: Radix, path: seq<Byte>, key: Word, n: nat, prior: Items)
    requires t.Inner? && Wf(t, path) && |path + t.pfx| < 8 && t.ofs == |path| && Under(key, path) && Under(key, path + t.pfx)
    requires |t.keys| == |t.chs|
    requires var i := IndexOf(t.keys, key[|path + t.pfx|], 0);
             && (n >= 1 ==> prior == (if i.Some? then L.Take(From(ItemsOf(t.chs[i.value]), key), n) else []))
             && (n == 0 ==> |prior| == if i.Some? && EndsAtTip(t.chs[i.value], key) then 1 else 0)
    ensures var all := Rest(t, StartOf(t, Some(key[|path + t.pfx|])), n, prior);
            && (n >= 1 ==> all == L.Take(From(ItemsOf(t), key), n))
            && (n == 0 ==> |all| == if EndsAtTip(t, key) then 1 else 0)
  {
    hide Wf, Less, From, ItemsOf;
    var b := key[|path + t.pfx|];
    InnerItems(t, path, key);
    MatchesHere(t, path, key);
    var i, g := IndexOf(t.keys, b, 0), FindGt(t.keys, b, 0);
    if n >= 1 && i.Some? {
      BTreeScan.TakeMore(From(ItemsOf(t.chs[i.value]), key), ItemsFrom(t.chs, g), n);
    }
  }

  lemma MatchesHere(t: Radix, path: seq<Byte>, key: Word)
    requires t.Inner? && |path + t.pfx| < 8 && t.ofs == |path| && Under(key, path + t.pfx)
    ensures MatchLen(t.pfx, key, t.ofs) == |t.pfx|
  {
    assert key[..|path + t.pfx|][|path|..] == t.pfx;
    MatchesAll(t.pfx, key, t.ofs);
  }

  /** scan_search: with room for one pair it finds the first n from the key
      on; without, it returns the leaf the search ends at. */
  method ScanSearch(t: Radix, key: Word, n: nat, ghost path: seq<Byte>) returns (ret: Items)
    requires Wf(t, path) && Under(key, path)
    ensures n >= 1 ==> ret == L.Take(From(ItemsOf(t), key), n)
    ensures n == 0 ==> |ret| == if EndsAtTip(t, key) then 1 else 0
    decreases t
  {
    hide Wf, Under, L.Take, Less, Rest, ItemsOf, EndsAtTip;
    PrefixFits(t, path);
    var p := Prefix(t);
    var m := MatchLen(p, key, t.ofs);
    if m < |p| {
      OneSide(t, path, key, m);
      Parted(t, path, key, n, m);
      if p[m] < key[t.ofs+m] {
        return [];
      }
      ret := ScanAppend(t, None, n, [], path);
      return;
    }
    match t {
      case Tip(_, k, val) =>
        TipFrom(t, path, key, n);
        ret := [(k, val)];
      case Inner(_, ofs, pfx, keys, chs) =>
        WfInner(t, path);
        MatchIs(pfx, key, ofs);
        Descends(key, path, pfx);
        var b := key[ofs+|pfx|];
        UnderByte(key, path + pfx, b);
        var i := IndexOf(keys, b, 0);
        ret := [];
        if i.Some? {
          ret := ScanSearch(chs[i.value], key, n, path + pfx + [b]);
        }
        SearchInner(t, path, key, n, ret);
        ret := ScanAppend(t, Some(b), n, ret, path);
    }
  }

  /** scan: the first n pairs with keys from the key on, exactly unless n is
      zero and the search ends at a leaf. */
  method Scan(t: Option<Radix>, key: Word, n: nat) returns (ret: Items)
    requires WfRoot(t)
    ensures t.Some? ==> (ret == L.Take(From(ItemsOf(t.value), key), n) <==> n >= 1 || !EndsAtTip(t.value, key))
    ensures t.Some? && n == 0 ==> |ret| == if EndsAtTip(t.value, key) then 1 else 0
    ensures t.None? ==> ret == []
  {
    hide ItemsOf, EndsAtTip, From;
    ret := [];
    if t.Some? {
      assert key[..0] == [];
      ret := ScanSearch(t.value, key, n, []);
    }
  }

  lemma SingleEnds(w: Word, v: Val)
    ensures WfRoot(Some(Tip(0, w, v))) && EndsAtTip(Tip(0, w, v), w)
  {
    assert w[..0] == [] && w[0..] == w && w[0..8] == w;
    MatchesAll(w, w, 0);
  }

  /** Asked for no pairs, a scan can still return one: any tree of a single key,
      scanned from that key. */
  method ZeroMayReturnOne(w: Word, v: Val) returns (ret: Items)
    ensures |ret| == 1
  {
    SingleEnds(w, v);
    ret := Scan(Some(Tip(0, w, v)), w, 0);
  }
}
