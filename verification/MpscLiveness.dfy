/** Fair runs of the idle-worker list: a consumer that keeps popping receives
    every item pushed, failing pops and half-done pushes notwithstanding. */
module MpscLiveness {
  import opened Options
  import opened MpscList

  /** An unbounded run. */
  datatype Trace = Trace(at: nat -> State, does: nat -> Action)

  ghost predicate Behaves(pushers: nat, tr: Trace) {
    tr.at(0) == Init(pushers) && forall i: nat :: Steps(tr.at(i), tr.does(i), tr.at(i + 1))
  }

  predicate Steps(s: State, a: Action, s': State) {
    Enabled(s, a) && s' == Apply(s, a)
  }

  /** A pusher that has taken over the head closes its link in the end. */
  ghost predicate LinksClose(tr: Trace) {
    forall i: nat, p: nat :: Owes(tr.at(i), p) ==> TakenFrom(tr, Link(p), i)
  }

  predicate Owes(s: State, p: nat) {
    p < |s.pushers| && s.pushers[p].Exchanged?
  }

  ghost predicate TakenFrom(tr: Trace, a: Action, i: nat) {
    exists k: nat :: i <= k && tr.does(k) == a
  }

  /** The consumer pops again as long as it has fewer than n items. */
  ghost predicate Retries(tr: Trace, n: nat) {
    forall i: nat :: |tr.at(i).popped| < n ==> TakenFrom(tr, Consume, i)
  }

  lemma {:induction false} TraceInv(pushers: nat, tr: Trace, n: nat)
    requires Behaves(pushers, tr)
    ensures Inv(tr.at(n))
  {
    hide Inv, Apply, Enabled;
    if n == 0 {
      InitInv(pushers);
    } else {
      TraceInv(pushers, tr, n - 1);
      assert Steps(tr.at(n - 1), tr.does(n - 1), tr.at(n - 1 + 1));
      StepInv(tr.at(n - 1), tr.does(n - 1));
    }
  }

  lemma InitInv(pushers: nat)
    ensures Inv(Init(pushers))
  {
    assert [Stub][..0] == [];
  }

  // ---- how far the oldest item is from the consumer --------------------------

  /** Whether the stub is in front, how far the link behind the front is from
      closed, and the consumer's steps to come. */
  datatype Rank = Rank(stub: nat, link: nat, steps: nat)

  predicate Less(a: Rank, b: Rank) {
    a.stub < b.stub || (a.stub == b.stub && (a.link < b.link || (a.link == b.link && a.steps < b.steps)))
  }

  predicate Alone(s: State) {
    s.first + 1 >= |s.order|
  }

  predicate Broken(s: State) {
    s.first + 1 in s.open
  }

  function RankOf(s: State): Rank {
    Rank(if s.tail.Stub? then 1 else 0,
         if Alone(s) then 2 else if Broken(s) then 1 else 0,
         if Alone(s) then AloneSteps(s.consumer) else if Broken(s) then 0 else LinkedSteps(s.consumer))
  }

  /** Steps until the consumer has put the stub behind a last item. */
  function AloneSteps(c: ConsumerPc): nat {
    match c
    case GotLast(_) => 6
    case NeedLast => 7
    case Ready => 5
    case Skipped => 5
    case GotFirst(_) => 4
    case GotSecond(_) => 4
    case NeedHead => 3
    case ClearStub => 2
    case ExchangeStub => 1
    case LinkStub(_) => 0
  }

  /** Steps until the consumer moves on over a closed link. */
  function LinkedSteps(c: ConsumerPc): nat {
    match c
    case GotFirst(next) => if next.Some? then 1 else 4
    case GotSecond(next) => if next.Some? then 1 else 4
    case GotLast(next) => if next.Some? then 1 else 3
    case Ready => 2
    case Skipped => 2
    case NeedLast => 2
    case NeedHead => 3
    case LinkStub(_) => 3
    case ExchangeStub => 4
    case ClearStub => 5
  }

  /** The step the oldest item is waiting for. */
  function Awaited(s: State): Action {
    if !Alone(s) && Broken(s) && s.open[s.first + 1].Pusher? then Link(s.open[s.first + 1].p) else Consume
  }

  ghost predicate Waiting(s: State) {
    Inv(s) && Queue(s) != []
  }

  /** The stub in front has an item behind it. */
  lemma StubNotAlone(s: State)
    requires Waiting(s)
    ensures s.tail.Stub? ==> !Alone(s)
  {
    if s.tail.Stub? && Alone(s) {
      assert Live(s) == [Stub];
      StubOnly();
    }
  }

  /** The awaited step is one that fairness brings about. */
  lemma AwaitedOwes(s: State)
    requires Inv(s) && Awaited(s).Link?
    ensures Owes(s, Awaited(s).p)
  {
  }

  lemma LinkCloser(s: State)
    requires Waiting(s) && Awaited(s).Link?
    ensures Enabled(s, Awaited(s)) && Less(RankOf(Apply(s, Awaited(s))), RankOf(s))
  {
    hide Queue, Exclusive, ConsumerInv, Items;
  }

  /** The front item is the last one: the consumer puts the stub behind it. */
  lemma AloneCloser(s: State)
    requires Inv(s) && s.tail.Item? && Alone(s) && Enabled(s, Consume)
    ensures var s' := ConsumerStep(s); s'.popped != s.popped || Less(RankOf(s'), RankOf(s))
  {
    hide Queue, Exclusive, Items;
  }

  /** The link behind the front is closed: the consumer moves over it. */
  lemma LinkedCloser(s: State)
    requires Inv(s) && !Alone(s) && !Broken(s) && Enabled(s, Consume)
    ensures var s' := ConsumerStep(s); s'.popped != s.popped || Less(RankOf(s'), RankOf(s))
  {
    hide Queue, Exclusive, Items, Holders;
    assert s.order[s.first] in s.next && s.next[s.tail] == s.order[s.first + 1];
    assert s.order[s.first] != s.order[|s.order| - 1];
  }

  /** The consumer itself owes the link. */
  lemma OwnCloser(s: State)
    requires Inv(s) && !Alone(s) && Broken(s) && Awaited(s).Consume? && Enabled(s, Consume)
    ensures var s' := ConsumerStep(s); s'.popped == s.popped && Less(RankOf(s'), RankOf(s))
  {
    hide Queue, Exclusive, Items;
  }

  lemma AwaitedCloser(s: State)
    requires Waiting(s)
    ensures Enabled(s, Awaited(s))
    ensures var s' := Apply(s, Awaited(s)); s'.popped != s.popped || Less(RankOf(s'), RankOf(s))
  {
    hide Inv, Alone, Broken, Queue, Enabled;
    StubNotAlone(s);
    AwaitedKinds(s);
    if Awaited(s).Link? {
      LinkCloser(s);
    } else {
      KeepConsume(s);
      hide RankOf, ConsumerStep;
      if Alone(s) {
        AloneCloser(s);
      } else if Broken(s) {
        OwnCloser(s);
      } else {
        LinkedCloser(s);
      }
    }
  }

  lemma AwaitedKinds(s: State)
    ensures Awaited(s).Link? || Awaited(s).Consume?
  {
  }

  ghost predicate Harmless(s: State, s': State) {
    s'.popped != s.popped || Less(RankOf(s'), RankOf(s)) || (RankOf(s') == RankOf(s) && Awaited(s') == Awaited(s))
  }

  lemma LinkHarmless(s: State, p: nat)
    requires Waiting(s) && Enabled(s, Link(p))
    ensures Harmless(s, Apply(s, Link(p)))
  {
    hide Queue, Exclusive, ConsumerInv, Items;
    assert s.open[s.pushers[p].index] == Pusher(p);
  }

  lemma ConsumeHarmless(s: State)
    requires Waiting(s) && Enabled(s, Consume)
    ensures Harmless(s, Apply(s, Consume))
  {
    AwaitedCloser(s);
    if Awaited(s).Link? {
      AwaitedOwes(s);
      RetryHarmless(s);
    }
  }

  /** A pop that meets a half-done push changes nothing, or finds its item all
      the same. */
  lemma RetryHarmless(s: State)
    requires Waiting(s) && Enabled(s, Consume) && Awaited(s).Link?
    ensures Harmless(s, Apply(s, Consume))
  {
    hide Queue, Exclusive, Items, Holders;
    if s.consumer.LinkStub? { HolderKeeps(s); }
  }

  lemma HolderKeeps(s: State)
    requires Inv(s) && Awaited(s).Link? && s.consumer.LinkStub?
    ensures s.consumer.index != s.first + 1
  {
  }

  lemma OthersHarmless(s: State, a: Action)
    requires Waiting(s) && Enabled(s, a)
    ensures Harmless(s, Apply(s, a))
  {
    match a {
      case ClearLink(p, item) =>
      case Exchange(p) =>
      case Link(p) => LinkHarmless(s, p);
      case Consume => ConsumeHarmless(s);
    }
  }

  // ---- the oldest item is delivered ------------------------------------------

  ghost predicate At(tr: Trace, n: nat, k: nat, r: Rank) {
    Waiting(tr.at(k)) && |tr.at(k).popped| == n && RankOf(tr.at(k)) == r
  }

  predicate Popped(tr: Trace, n: nat, k: nat) {
    n < |tr.at(k).popped|
  }

  /** What a step leaves: an item waiting, or handed out. */
  lemma StillWaiting(s: State, a: Action)
    requires Inv(s) && Enabled(s, a)
    ensures var s' := Apply(s, a);
            && Inv(s') && s.popped <= s'.popped
            && (Waiting(s) ==> Waiting(s') || |s'.popped| > |s.popped|)
            && (s'.popped != s.popped ==> |s'.popped| > |s.popped|)
  {
    hide Inv, Enabled, Queue;
    StepInv(s, a);
    StepIsAtomic(s, a);
    hide Apply;
  }

  /** As long as the item gets no closer, it waits for one and the same step. */
  lemma {:induction false} Waits(pushers: nat, tr: Trace, i: nat, n: nat, r: Rank, k: nat)
    requires Behaves(pushers, tr) && At(tr, n, i, r) && i <= k
    requires forall j: nat :: i <= j ==> !Popped(tr, n, j)
    requires forall j: nat, q :: i <= j && At(tr, n, j, q) ==> !Less(q, r)
    ensures At(tr, n, k, r) && Awaited(tr.at(k)) == Awaited(tr.at(i))
    decreases k
  {
    hide Inv, Apply, Enabled, RankOf, Awaited, Queue;
    if k > i {
      Waits(pushers, tr, i, n, r, k - 1);
      var s, a := tr.at(k - 1), tr.does(k - 1);
      assert Steps(s, a, tr.at(k - 1 + 1));
      OthersHarmless(s, a);
      StillWaiting(s, a);
      assert !Popped(tr, n, k);
      assert At(tr, n, k, RankOf(tr.at(k)));
    }
  }

  lemma AwaitedIsTaken(pushers: nat, tr: Trace, i: nat, n: nat)
    requires Behaves(pushers, tr) && LinksClose(tr) && Retries(tr, n + 1)
    requires Waiting(tr.at(i)) && |tr.at(i).popped| == n
    ensures TakenFrom(tr, Awaited(tr.at(i)), i)
  {
    hide Behaves, Inv, Queue, Awaited, TakenFrom;
    var a := Awaited(tr.at(i));
    AwaitedKinds(tr.at(i));
    if a.Link? {
      AwaitedOwes(tr.at(i));
      assert TakenFrom(tr, Link(a.p), i);
    }
  }

  /** Taking the awaited step is progress. */
  lemma TakenCounts(pushers: nat, tr: Trace, j: nat, n: nat, r: Rank)
    requires Behaves(pushers, tr) && At(tr, n, j, r) && tr.does(j) == Awaited(tr.at(j))
    ensures Popped(tr, n, j + 1) || exists q :: At(tr, n, j + 1, q) && Less(q, r)
  {
    hide Inv, Apply, Enabled, RankOf, Awaited, Queue;
    assert Steps(tr.at(j), tr.does(j), tr.at(j + 1));
    AwaitedCloser(tr.at(j));
    StillWaiting(tr.at(j), tr.does(j));
    if !Popped(tr, n, j + 1) {
      assert At(tr, n, j + 1, RankOf(tr.at(j + 1)));
    }
  }

  lemma {:induction false} OldestDelivered(pushers: nat, tr: Trace, i: nat, n: nat, r: Rank) returns (k: nat)
    requires Behaves(pushers, tr) && LinksClose(tr) && Retries(tr, n + 1) && At(tr, n, i, r)
    ensures i <= k && Popped(tr, n, k)
    decreases r.stub, r.link, r.steps
  {
    hide Inv, Apply, Enabled, RankOf, Awaited, Queue, Behaves, LinksClose, Retries;
    if j: nat :| i <= j && Popped(tr, n, j) {
      k := j;
    } else if j: nat, q :| i <= j && At(tr, n, j, q) && Less(q, r) {
      k := OldestDelivered(pushers, tr, j, n, q);
    } else {
      AwaitedIsTaken(pushers, tr, i, n);
      var j: nat :| i <= j && tr.does(j) == Awaited(tr.at(i));
      Waits(pushers, tr, i, n, r, j);
      k := i;
      TakenCounts(pushers, tr, j, n, r);
      assert false;
    }
  }

  lemma {:induction false} OnlyGrows(pushers: nat, tr: Trace, i: nat, k: nat)
    requires Behaves(pushers, tr) && i <= k
    ensures tr.at(i).order <= tr.at(k).order
    decreases k
  {
    if i < k {
      OnlyGrows(pushers, tr, i, k - 1);
      assert Steps(tr.at(k - 1), tr.does(k - 1), tr.at(k - 1 + 1));
    }
  }

  lemma ItemsGrow(a: seq<Node>, b: seq<Node>)
    requires a <= b
    ensures Items(a) <= Items(b)
  {
    assert b == a + b[|a|..];
    ItemsAppend(a, b[|a|..]);
  }

  /** Every push is received: the n-th item in head exchange order is the n-th
      one handed out, if the consumer pops again until it has it and a pusher
      that has taken over the head closes its link in the end. Pushes may go on
      forever meanwhile. */
  lemma {:induction false} EveryPushIsPopped(pushers: nat, tr: Trace, i: nat, n: nat) returns (k: nat)
    requires Behaves(pushers, tr) && LinksClose(tr) && Retries(tr, n + 1) && n < |Items(tr.at(i).order)|
    ensures i <= k && n < |tr.at(k).popped| && tr.at(k).popped[n] == Items(tr.at(i).order)[n]
    decreases n - |tr.at(i).popped|
  {
    hide Inv, Behaves, LinksClose, Retries, Items, RankOf;
    TraceInv(pushers, tr, i);
    Delivered(tr.at(i));
    if n < |tr.at(i).popped| {
      k := i;
    } else {
      var m := |tr.at(i).popped|;
      FewerRetries(tr, m + 1, n + 1);
      var j := OldestDelivered(pushers, tr, i, m, RankOf(tr.at(i)));
      OnlyGrows(pushers, tr, i, j);
      ItemsGrow(tr.at(i).order, tr.at(j).order);
      k := EveryPushIsPopped(pushers, tr, j, n);
    }
  }

  lemma FewerRetries(tr: Trace, m: nat, n: nat)
    requires Retries(tr, n) && m <= n
    ensures Retries(tr, m)
  {
  }
}
