/** Versioned records of one leaf: sorting them, keeping the newest of each key,
    and merging them into the sorted base. */
module LeafRecords {
  import opened Records

  datatype Rec = Rec(key: Key, value: Val, version: nat)

  /** Order by key, then by version. */
  predicate Before(a: Rec, b: Rec) {
    a.key < b.key || (a.key == b.key && a.version <= b.version)
  }

  ghost predicate Ordered(s: seq<Rec>) {
    forall i, j :: 0 <= i < j < |s| ==> Before(s[i], s[j])
  }

  /** The record is the newest of its key. */
  ghost predicate NewestIn(s: seq<Rec>, r: Rec) {
    r in s && forall i :: 0 <= i < |s| && s[i].key == r.key ==> s[i].version <= r.version
  }

  ghost predicate Rising(s: seq<Rec>) {
    forall i, j :: 0 <= i < j < |s| ==> s[i].key < s[j].key
  }

  ghost predicate HasKey(s: seq<Rec>, k: Key) {
    exists i :: 0 <= i < |s| && s[i].key == k
  }

  /** Exactly the newest record of each key, in key order. */
  ghost predicate NewestOf(s: seq<Rec>, d: seq<Rec>) {
    && Rising(d)
    && (forall i :: 0 <= i < |d| ==> NewestIn(s, d[i]))
    && (forall i :: 0 <= i < |s| ==> HasKey(d, s[i].key))
  }

  // ---- sorting --------------------------------------------------------------

  /** Sorting the first n records. */
  method Sort(a: array<Rec>, n: nat)
    requires n <= a.Length
    modifies a
    ensures Ordered(a[..n]) && multiset(a[..n]) == multiset(old(a[..n])) && a[n..] == old(a[n..])
  {
    var i := 0;
    while i < n
      invariant 0 <= i <= n
      invariant Ordered(a[..i]) && multiset(a[..n]) == multiset(old(a[..n])) && a[n..] == old(a[n..])
    {
      SiftDown(a, i, n);
      i := i + 1;
    }
  }

  /** Moves record i to its place among the ordered records before it. */
  method SiftDown(a: array<Rec>, i: nat, n: nat)
    requires i < n <= a.Length && Ordered(a[..i])
    modifies a
    ensures Ordered(a[..i+1]) && multiset(a[..n]) == multiset(old(a[..n])) && a[n..] == old(a[n..])
  {
    var j := i;
    while j > 0 && !Before(a[j-1], a[j])
      invariant 0 <= j <= i
      invariant forall x, y :: 0 <= x < y <= i && y != j ==> Before(a[x], a[y])
      invariant multiset(a[..n]) == multiset(old(a[..n])) && a[n..] == old(a[n..])
    {
      label L: 
      a[j-1], a[j] := a[j], a[j-1];
      Swapped(old@L(a[..n]), a[..n], j);
      j := j - 1;
    }
  }

  lemma Swapped(s: seq<Rec>, t: seq<Rec>, j: nat)
    requires 0 < j < |s| == |t| && t == s[j-1 := s[j]][j := s[j-1]]
    ensures multiset(t) == multiset(s)
  {
  }

  lemma SameRecords(s: seq<Rec>, t: seq<Rec>)
    requires multiset(s) == multiset(t)
    ensures |s| == |t| && forall r :: r in s <==> r in t
  {
    assert |multiset(s)| == |s| && |multiset(t)| == |t|;
    forall r ensures r in s <==> r in t {
      assert r in s <==> r in multiset(s);
      assert r in t <==> r in multiset(t);
    }
  }

  // ---- the newest of each key -----------------------------------------------

  /** Compacts ordered records in place, keeping the last of each key. */
  method Dedupe(a: array<Rec>, n: nat) returns (m: nat)
    requires n <= a.Length && Ordered(a[..n])
    modifies a
    ensures m <= n && NewestOf(old(a[..n]), a[..m]) && a[n..] == old(a[n..])
  {
    m := 0;
    var begin := 0;
    ghost var s := a[..n];
    while begin < n
      invariant 0 <= m <= begin <= n
      invariant a[begin..n] == s[begin..] && a[n..] == old(a[n..])
      invariant NewestOf(s[..begin], a[..m])
      invariant 0 < begin < n ==> s[begin-1].key < s[begin].key
    {
      var end := begin + 1;
      while end < n && a[end].key == a[begin].key
        invariant begin < end <= n
        invariant forall i :: begin <= i < end ==> s[i].key == s[begin].key
      {
        assert a[end] == a[begin..n][end - begin];
        end := end + 1;
      }
      assert a[end-1] == a[begin..n][end-1-begin] == s[end-1];
      assert end < n ==> a[end] == a[begin..n][end-begin] == s[end];
      GroupNewest(s, begin, end, a[..m]);
      assert s[begin..][end-begin..] == s[end..] && a[begin..n][end-begin..] == a[end..n];
      ghost var kept := a[..m];
      a[m] := a[end-1];
      assert a[..m+1] == kept + [s[end-1]];
      m := m + 1;
      begin := end;
    }
    assert s[..n] == s;
  }

  /** One more group of equal keys. */
  lemma GroupNewest(s: seq<Rec>, begin: nat, end: nat, d: seq<Rec>)
    requires Ordered(s) && begin < end <= |s| && NewestOf(s[..begin], d)
    requires forall i :: begin <= i < end ==> s[i].key == s[begin].key
    requires begin > 0 ==> s[begin-1].key < s[begin].key
    ensures NewestOf(s[..end], d + [s[end-1]])
    ensures end < |s| && s[end].key != s[begin].key ==> s[end-1].key < s[end].key
  {
    var last := s[end-1];
    KeysBelow(s, begin);
    forall i | 0 <= i < |d| ensures NewestIn(s[..end], d[i]) && d[i].key < last.key {
      StillNewest(s, begin, end, d[i]);
    }
    assert NewestIn(s[..end], last) by { assert s[..end][end-1] == last; }
    GroupKeys(s, begin, end, d);
    hide NewestIn, HasKey, Ordered;
  }

  lemma KeysBelow(s: seq<Rec>, begin: nat)
    requires Ordered(s) && begin < |s| && (begin > 0 ==> s[begin-1].key < s[begin].key)
    ensures forall i :: 0 <= i < begin ==> s[i].key < s[begin].key
  {
  }

  lemma GroupKeys(s: seq<Rec>, begin: nat, end: nat, d: seq<Rec>)
    requires begin < end <= |s| && NewestOf(s[..begin], d)
    requires forall i :: begin <= i < end ==> s[i].key == s[begin].key
    ensures forall i :: 0 <= i < end ==> HasKey(d + [s[end-1]], s[..end][i].key)
  {
    var last := s[end-1];
    forall i | 0 <= i < end ensures HasKey(d + [last], s[..end][i].key) {
      if i < begin {
        assert s[..begin][i] == s[i] && HasKey(d, s[i].key);
        Widen(d, last, s[i].key);
      } else {
        assert (d + [last])[|d|].key == s[i].key;
      }
    }
  }

  lemma StillNewest(s: seq<Rec>, begin: nat, end: nat, r: Rec)
    requires begin < end <= |s| && NewestIn(s[..begin], r)
    requires forall i :: 0 <= i < begin ==> s[i].key < s[begin].key
    requires forall i :: begin <= i < end ==> s[i].key == s[begin].key
    ensures NewestIn(s[..end], r) && r.key < s[begin].key
  {
    var j :| 0 <= j < begin && s[..begin][j] == r;
    assert s[..end][j] == r;
    forall x | 0 <= x < end && s[..end][x].key == r.key ensures s[..end][x].version <= r.version {
      assert s[..begin][x] == s[x];
    }
  }

  lemma Widen(out: seq<Rec>, r: Rec, k: Key)
    requires HasKey(out, k)
    ensures HasKey(out + [r], k)
  {
    var i :| 0 <= i < |out| && out[i].key == k;
    assert (out + [r])[i].key == k;
  }

  // ---- merging into the base ------------------------------------------------

  /** The records of a leaf's base, stamped with its version. */
  function BaseRecs(keys: seq<Key>, vals: seq<Val>, ver: nat): (r: seq<Rec>)
    requires |keys| == |vals|
    ensures |r| == |keys| && forall i :: 0 <= i < |r| ==> r[i] == Rec(keys[i], vals[i], ver)
  {
    seq(|keys|, i requires 0 <= i < |keys| => Rec(keys[i], vals[i], ver))
  }

  /** The record beats the other list's record of its key; on a tie the
      overlay wins. */
  ghost predicate Wins(base: seq<Rec>, over: seq<Rec>, r: Rec) {
    || (r in over && forall i :: 0 <= i < |base| && base[i].key == r.key ==> base[i].version <= r.version)
    || (r in base && forall i :: 0 <= i < |over| && over[i].key == r.key ==> over[i].version < r.version)
  }

  /** Two key-ordered lists merged, the newer record of a key winning. */
  ghost predicate Merged(base: seq<Rec>, over: seq<Rec>, out: seq<Rec>) {
    && Rising(out)
    && (forall i :: 0 <= i < |out| ==> Wins(base, over, out[i]))
    && (forall i :: 0 <= i < |base| ==> HasKey(out, base[i].key))
    && (forall i :: 0 <= i < |over| ==> HasKey(out, over[i].key))
  }

  /** What the merge loop has done after taking some of each list. */
  ghost predicate Merging(bs: seq<Rec>, base: nat, os: seq<Rec>, delta: nat, out: seq<Rec>)
    requires base <= |bs| && delta <= |os|
  {
    && Rising(bs) && Rising(os) && Merged(bs[..base], os[..delta], out)
    && (forall i :: 0 <= i < |out| && base < |bs| ==> out[i].key < bs[base].key)
    && (forall i :: 0 <= i < |out| && delta < |os| ==> out[i].key < os[delta].key)
  }

  /** The merge loop. */
  method MergeInto(keys: seq<Key>, vals: seq<Val>, ver: nat, a: array<Rec>, m: nat) returns (out: array<Rec>, c: nat)
    requires |keys| == |vals| && Sorted(keys) && m <= a.Length && Rising(a[..m])
    ensures fresh(out) && c <= out.Length == |keys| + m
    ensures Merged(BaseRecs(keys, vals, ver), a[..m], out[..c])
  {
    hide Merging, Merged, Rising, HasKey;
    out := new Rec[|keys| + m](_ => Rec(0, 0, 0));
    var base, delta := 0, 0;
    c := 0;
    ghost var bs, os, got := BaseRecs(keys, vals, ver), a[..m], [];
    NothingMerged(keys, vals, ver, os);
    while base < |keys| || delta < m
      invariant base <= |keys| && delta <= m && c <= base + delta && fresh(out)
      invariant got == out[..c] && Merging(bs, base, os, delta, got)
      invariant a[..m] == os
      decreases |keys| - base + m - delta
    {
      if delta == m || (base < |keys| && keys[base] < a[delta].key) {
        assert delta < m ==> a[delta] == os[delta];
        TakeBase(bs, base, os, delta, got);
        out[c] := Rec(keys[base], vals[base], ver);
        got := got + [bs[base]];
        base := base + 1;
      } else {
        var value := a[delta];
        assert value == os[delta];
        if base < |keys| && keys[base] == value.key {
          if ver > value.version { value := Rec(keys[base], vals[base], ver); }
          TakeBoth(bs, base, os, delta, got, value);
          base := base + 1;
        } else {
          TakeOver(bs, base, os, delta, got);
        }
        out[c] := value;
        got := got + [value];
        delta := delta + 1;
      }
      c := c + 1;
    }
    AllMerged(bs, os, got);
  }

  lemma NothingMerged(keys: seq<Key>, vals: seq<Val>, ver: nat, os: seq<Rec>)
    requires |keys| == |vals| && Sorted(keys) && Rising(os)
    ensures Merging(BaseRecs(keys, vals, ver), 0, os, 0, [])
  {
  }

  lemma AllMerged(bs: seq<Rec>, os: seq<Rec>, out: seq<Rec>)
    requires Merging(bs, |bs|, os, |os|, out)
    ensures Merged(bs, os, out)
  {
    assert bs[..|bs|] == bs && os[..|os|] == os;
  }

  lemma TakeBase(bs: seq<Rec>, base: nat, os: seq<Rec>, delta: nat, out: seq<Rec>)
    requires base < |bs| && delta <= |os| && Merging(bs, base, os, delta, out)
    requires delta < |os| ==> bs[base].key < os[delta].key
    ensures Merging(bs, base + 1, os, delta, out + [bs[base]])
  {
    var r := bs[base];
    assert bs[..base+1] == bs[..base] + [r];
    WinsBase(bs[..base], os[..delta], out, r);
    AllTaken(bs, base + 1, os, delta, out, r);
  }

  lemma TakeOver(bs: seq<Rec>, base: nat, os: seq<Rec>, delta: nat, out: seq<Rec>)
    requires base <= |bs| && delta < |os| && Merging(bs, base, os, delta, out)
    requires base < |bs| ==> os[delta].key < bs[base].key
    ensures Merging(bs, base, os, delta + 1, out + [os[delta]])
  {
    var r := os[delta];
    assert os[..delta+1] == os[..delta] + [r];
    WinsOver(bs[..base], os[..delta], out, r);
    AllTaken(bs, base, os, delta + 1, out, r);
  }

  lemma TakeBoth(bs: seq<Rec>, base: nat, os: seq<Rec>, delta: nat, out: seq<Rec>, r: Rec)
    requires base < |bs| && delta < |os| && Merging(bs, base, os, delta, out) && bs[base].key == os[delta].key
    requires r == if bs[base].version > os[delta].version then bs[base] else os[delta]
    ensures Merging(bs, base + 1, os, delta + 1, out + [r])
  {
    assert bs[..base+1] == bs[..base] + [bs[base]] && os[..delta+1] == os[..delta] + [os[delta]];
    WinsBoth(bs[..base], os[..delta], out, bs[base], os[delta], r);
    AllTaken(bs, base + 1, os, delta + 1, out, r);
  }

  lemma AllTaken(bs: seq<Rec>, base: nat, os: seq<Rec>, delta: nat, out: seq<Rec>, r: Rec)
    requires base <= |bs| && delta <= |os| && Rising(bs) && Rising(os) && Rising(out)
    requires forall i :: 0 <= i < |out| ==> out[i].key < r.key
    requires forall i :: 0 <= i < |out + [r]| ==> Wins(bs[..base], os[..delta], (out + [r])[i])
    requires forall i :: 0 <= i < base ==> bs[i].key == r.key || HasKey(out, bs[i].key)
    requires forall i :: 0 <= i < delta ==> os[i].key == r.key || HasKey(out, os[i].key)
    requires base < |bs| ==> r.key < bs[base].key
    requires delta < |os| ==> r.key < os[delta].key
    ensures Merging(bs, base, os, delta, out + [r])
  {
    assert (out + [r])[|out|] == r;
    forall k | HasKey(out, k) ensures HasKey(out + [r], k) { Widen(out, r, k); }
    assert HasKey(out + [r], r.key);
  }

  ghost predicate Above(s: seq<Rec>, out: seq<Rec>, k: Key) {
    && (forall i :: 0 <= i < |s| ==> HasKey(out, s[i].key))
    && (forall i :: 0 <= i < |out| ==> out[i].key < k)
  }

  lemma NoneEqual(s: seq<Rec>, out: seq<Rec>, k: Key)
    requires Above(s, out, k)
    ensures forall i :: 0 <= i < |s| ==> s[i].key < k
  {
    forall i | 0 <= i < |s| ensures s[i].key < k {
      assert HasKey(out, s[i].key);
    }
  }

  /** A record with a larger key does not change who wins below it. */
  lemma WinsStays(bs: seq<Rec>, os: seq<Rec>, bs': seq<Rec>, os': seq<Rec>, r: Rec)
    requires Wins(bs, os, r)
    requires bs <= bs' && forall i :: |bs| <= i < |bs'| ==> bs'[i].key > r.key
    requires os <= os' && forall i :: |os| <= i < |os'| ==> os'[i].key > r.key
    ensures Wins(bs', os', r)
  {
  }

  lemma WinsBase(bs: seq<Rec>, os: seq<Rec>, out: seq<Rec>, r: Rec)
    requires Merged(bs, os, out) && forall i :: 0 <= i < |out| ==> out[i].key < r.key
    ensures forall i :: 0 <= i < |out + [r]| ==> Wins(bs + [r], os, (out + [r])[i])
  {
    NoneEqual(os, out, r.key);
    forall i | 0 <= i < |out + [r]| ensures Wins(bs + [r], os, (out + [r])[i]) {
      if i < |out| { WinsStays(bs, os, bs + [r], os, out[i]); } else { assert (bs + [r])[|bs|] == r; }
    }
  }

  lemma WinsOver(bs: seq<Rec>, os: seq<Rec>, out: seq<Rec>, r: Rec)
    requires Merged(bs, os, out) && forall i :: 0 <= i < |out| ==> out[i].key < r.key
    ensures forall i :: 0 <= i < |out + [r]| ==> Wins(bs, os + [r], (out + [r])[i])
  {
    NoneEqual(bs, out, r.key);
    forall i | 0 <= i < |out + [r]| ensures Wins(bs, os + [r], (out + [r])[i]) {
      if i < |out| { WinsStays(bs, os, bs, os + [r], out[i]); } else { assert (os + [r])[|os|] == r; }
    }
  }

  lemma WinsBoth(bs: seq<Rec>, os: seq<Rec>, out: seq<Rec>, b: Rec, o: Rec, r: Rec)
    requires Merged(bs, os, out) && b.key == o.key && (forall i :: 0 <= i < |out| ==> out[i].key < o.key)
    requires r == if b.version > o.version then b else o
    ensures forall i :: 0 <= i < |out + [r]| ==> Wins(bs + [b], os + [o], (out + [r])[i])
  {
    NoneEqual(bs, out, b.key);
    NoneEqual(os, out, o.key);
    forall i | 0 <= i < |out + [r]| ensures Wins(bs + [b], os + [o], (out + [r])[i]) {
      if i < |out| {
        WinsStays(bs, os, bs + [b], os + [o], out[i]);
      } else {
        assert (bs + [b])[|bs|] == b && (os + [o])[|os|] == o;
      }
    }
  }
}
