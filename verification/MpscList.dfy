/** The intrusive multi-producer, single-consumer list of idle workers, one
    step per atomic access. A null link is an absent key of `next`. */
module MpscList {
  import opened Options

  datatype Node = Stub | Item(id: nat)

  datatype PusherPc =
    | Away
    | Reset(item: nat)        // next cleared, not in the list yet
    | Exchanged(index: nat)   // head taken over, predecessor's link still open

  datatype ConsumerPc =
    | Ready
    | GotFirst(next: Option<Node>)
    | Skipped
    | GotSecond(next: Option<Node>)
    | NeedHead
    | ClearStub
    | ExchangeStub
    | LinkStub(index: nat)
    | NeedLast
    | GotLast(next: Option<Node>)

  datatype Holder = Pusher(p: nat) | Consumer

  /** History: `order` are the head exchanges, the stub's included, and
      `order[first..]` is the list proper; `open` says who still owes the link
      into a position; `popped` is what pop has handed out. */
  datatype State = State(
    next: map<Node, Node>,
    head: Node,
    tail: Node,
    pushers: seq<PusherPc>,
    consumer: ConsumerPc,
    order: seq<Node>,
    first: nat,
    open: map<nat, Holder>,
    popped: seq<nat>
  )

  datatype Action =
    | ClearLink(p: nat, item: nat)
    | Exchange(p: nat)
    | Link(p: nat)
    | Consume   // the single consumer has one successor step in every state

  function Init(pushers: nat): State {
    State(map[], Stub, Stub, seq(pushers, _ => Away), Ready, [Stub], 0, map[], [])
  }

  function Live(s: State): seq<Node> {
    if s.first <= |s.order| then s.order[s.first..] else []
  }

  /** The node is not in the list. */
  predicate Absent(order: seq<Node>, first: nat, n: Node) {
    forall i :: first <= i < |order| ==> order[i] != n
  }

  /** Callers hand over an item that nobody else is pushing and that is not
      in the list: it was never pushed, or it was popped since. */
  predicate Owned(s: State, item: nat) {
    && Absent(s.order, s.first, Item(item))
    && (forall p :: 0 <= p < |s.pushers| ==> s.pushers[p] != Reset(item))
  }

  predicate Enabled(s: State, a: Action) {
    match a
    case ClearLink(p, item) => p < |s.pushers| && s.pushers[p].Away? && Owned(s, item)
    case Exchange(p) => p < |s.pushers| && s.pushers[p].Reset?
    case Link(p) => p < |s.pushers| && s.pushers[p].Exchanged? && 0 < s.pushers[p].index < |s.order|
    case Consume => s.consumer.LinkStub? ==> 0 < s.consumer.index < |s.order|
  }

  function Load(s: State, n: Node): Option<Node> {
    if n in s.next then Some(s.next[n]) else None
  }

  function SetPusher(s: State, p: nat, pc: PusherPc): State
    requires p < |s.pushers|
  {
    s.(pushers := s.pushers[p := pc])
  }

  /** tail_ = next, handing out the old tail. */
  function Take(s: State, next: Node): State {
    s.(tail := next, first := s.first + 1, consumer := Ready,
       popped := if s.tail.Item? then s.popped + [s.tail.id] else s.popped)
  }

  function ConsumerStep(s: State): State
    requires s.consumer.LinkStub? ==> 0 < s.consumer.index < |s.order|
  {
    match s.consumer
    case Ready => s.(consumer := GotFirst(Load(s, s.tail)))
    case GotFirst(next) =>
      if s.tail.Stub? then
        if next.None? then s.(consumer := Ready)
        else s.(tail := next.value, first := s.first + 1, consumer := Skipped)
      else if next.Some? then Take(s, next.value)
      else s.(consumer := NeedHead)
    case Skipped => s.(consumer := GotSecond(Load(s, s.tail)))
    case GotSecond(next) => if next.Some? then Take(s, next.value) else s.(consumer := NeedHead)
    case NeedHead => s.(consumer := if s.head == s.tail then ClearStub else Ready)
    case ClearStub => s.(next := s.next - {Stub}, consumer := ExchangeStub)
    case ExchangeStub => s.(head := Stub, order := s.order + [Stub], open := s.open[|s.order| := Consumer], consumer := LinkStub(|s.order|))
    case LinkStub(k) => s.(next := s.next[s.order[k-1] := s.order[k]], open := s.open - {k}, consumer := NeedLast)
    case NeedLast => s.(consumer := GotLast(Load(s, s.tail)))
    case GotLast(next) => if next.Some? then Take(s, next.value) else s.(consumer := Ready)
  }

  function Apply(s: State, a: Action): State
    requires Enabled(s, a)
  {
    match a
    case ClearLink(p, item) => SetPusher(s, p, Reset(item)).(next := s.next - {Item(item)})
    case Exchange(p) =>
      SetPusher(s, p, Exchanged(|s.order|))
        .(head := Item(s.pushers[p].item), order := s.order + [Item(s.pushers[p].item)], open := s.open[|s.order| := Pusher(p)])
    case Link(p) =>
      var k := s.pushers[p].index;
      SetPusher(s, p, Away).(next := s.next[s.order[k-1] := s.order[k]], open := s.open - {k})
    case Consume => ConsumerStep(s)
  }

  ghost predicate Run(pushers: nat, states: seq<State>, actions: seq<Action>) {
    && |states| == |actions| + 1
    && states[0] == Init(pushers)
    && forall i :: 0 <= i < |actions| ==> Enabled(states[i], actions[i]) && states[i+1] == Apply(states[i], actions[i])
  }

  /** A sequence of nodes with the stub left out. */
  function Items(nodes: seq<Node>): seq<nat> {
    if nodes == [] then [] else
    Items(nodes[..|nodes|-1]) + (if nodes[|nodes|-1].Item? then [nodes[|nodes|-1].id] else [])
  }

  // ---- inductive invariant ------------------------------------------------

  predicate Shape(order: seq<Node>, first: nat, tail: Node, head: Node, next: map<Node, Node>) {
    && first < |order|
    && tail == order[first]
    && head == order[|order|-1]
    && head !in next
    && (forall i, j :: first <= i < j < |order| ==> order[i] != order[j])
  }

  /** Every list position is linked from the one before, unless its holder
      still owes the link. */
  predicate Links(order: seq<Node>, first: nat, next: map<Node, Node>, open: map<nat, Holder>) {
    && (forall k {:trigger k in open} :: first < k < |order| && k !in open ==> order[k-1] in next && next[order[k-1]] == order[k])
    && (forall k {:trigger k in open} :: k in open ==> first < k < |order| && order[k-1] !in next)
  }

  predicate Holders(pushers: seq<PusherPc>, consumer: ConsumerPc, open: map<nat, Holder>) {
    && (forall p :: 0 <= p < |pushers| && pushers[p].Exchanged? ==>
          pushers[p].index in open && open[pushers[p].index] == Pusher(p))
    && (consumer.LinkStub? ==> consumer.index in open && open[consumer.index] == Consumer)
    && (forall k :: k in open ==>
          match open[k]
          case Pusher(p) => p < |pushers| && pushers[p] == Exchanged(k)
          case Consumer => consumer == LinkStub(k))
  }

  /** Pending pushes are for distinct items outside the list. */
  predicate Exclusive(pushers: seq<PusherPc>, order: seq<Node>, first: nat, next: map<Node, Node>) {
    && (forall p, q :: 0 <= p < q < |pushers| && pushers[p].Reset? ==> pushers[p] != pushers[q])
    && (forall p :: 0 <= p < |pushers| && pushers[p].Reset? ==>
          Absent(order, first, Item(pushers[p].item)) && Item(pushers[p].item) !in next)
  }

  /** A loaded next pointer is the second list position, already linked. */
  predicate Follows(order: seq<Node>, first: nat, open: map<nat, Holder>, next: Option<Node>) {
    next.Some? ==> first + 1 < |order| && next.value == order[first + 1] && first + 1 !in open
  }

  predicate ConsumerInv(s: State) {
    match s.consumer
    case Ready => true
    case GotFirst(next) => Follows(s.order, s.first, s.open, next)
    case GotSecond(next) => s.tail.Item? && Follows(s.order, s.first, s.open, next)
    case GotLast(next) => s.tail.Item? && Follows(s.order, s.first, s.open, next)
    case ClearStub => s.tail.Item? && Absent(s.order, s.first, Stub)
    case ExchangeStub => s.tail.Item? && Absent(s.order, s.first, Stub) && Stub !in s.next
    case _ => s.tail.Item?
  }

  predicate ListInv(s: State) {
    && Shape(s.order, s.first, s.tail, s.head, s.next)
    && Links(s.order, s.first, s.next, s.open)
    && Holders(s.pushers, s.consumer, s.open)
    && Exclusive(s.pushers, s.order, s.first, s.next)
  }

  ghost predicate Inv(s: State) {
    && ListInv(s)
    && ConsumerInv(s)
    && s.popped == Items(s.order[..s.first])
  }

  // ---- the five ways the list changes -------------------------------------

  /** push clears the link of an item outside the list. */
  lemma KeepClear(s: State, p: nat, item: nat)
    requires Inv(s) && Enabled(s, ClearLink(p, item))
    ensures ListInv(Apply(s, ClearLink(p, item))) && ConsumerInv(Apply(s, ClearLink(p, item)))
  {
  }

  /** A node from outside becomes the head; the link to it is left open. */
  lemma Extend(order: seq<Node>, first: nat, tail: Node, head: Node, next: map<Node, Node>, open: map<nat, Holder>,
               n: Node, holder: Holder)
    requires Shape(order, first, tail, head, next) && Links(order, first, next, open)
    requires Absent(order, first, n) && n !in next
    ensures Shape(order + [n], first, tail, n, next)
    ensures Links(order + [n], first, next, open[|order| := holder])
  {
    var order', open' := order + [n], open[|order| := holder];
    forall k | k in open'
      ensures first < k < |order'| && order'[k-1] !in next
    {
      assert k == |order| || k in open;
      assert order'[k-1] == order[k-1];
    }
    forall k | first < k < |order'| && k !in open'
      ensures order'[k-1] in next && next[order'[k-1]] == order'[k]
    {
      assert k < |order| && k !in open;
      assert order'[k-1] == order[k-1] && order'[k] == order[k];
    }
  }

  /** push takes over the head. */
  lemma KeepExchange(s: State, p: nat)
    requires Inv(s) && Enabled(s, Exchange(p))
    ensures ListInv(Apply(s, Exchange(p))) && ConsumerInv(Apply(s, Exchange(p)))
  {
    var item := Item(s.pushers[p].item);
    Extend(s.order, s.first, s.tail, s.head, s.next, s.open, item, Pusher(p));
    ExchangeHolders(s.pushers, s.consumer, s.open, s.order, s.first, s.next, p);
    var t := Apply(s, Exchange(p));
    assert t.order == s.order + [item];
    assert t.tail == s.tail && t.consumer == s.consumer;
  }

  lemma ExchangeHolders(pushers: seq<PusherPc>, consumer: ConsumerPc, open: map<nat, Holder>,
                        order: seq<Node>, first: nat, next: map<Node, Node>, p: nat)
    requires Holders(pushers, consumer, open) && Exclusive(pushers, order, first, next)
    requires p < |pushers| && pushers[p].Reset? && |order| !in open
    ensures Holders(pushers[p := Exchanged(|order|)], consumer, open[|order| := Pusher(p)])
    ensures Exclusive(pushers[p := Exchanged(|order|)], order + [Item(pushers[p].item)], first, next)
  {
    var pushers', item := pushers[p := Exchanged(|order|)], Item(pushers[p].item);
    forall q | 0 <= q < |pushers'| && pushers'[q].Reset?
      ensures Absent(order + [item], first, Item(pushers'[q].item)) && Item(pushers'[q].item) !in next
    {
      assert pushers[q] == pushers'[q] && pushers[q] != pushers[p];
    }
    forall k | k in open && open[k].Pusher?
      ensures open[k].p != p
    {
      assert pushers[open[k].p] == Exchanged(k);
    }
  }

  /** An open position's predecessor is neither the head nor another
      position's predecessor, so the link into it disturbs nothing else. */
  lemma CloseLink(order: seq<Node>, first: nat, tail: Node, head: Node, next: map<Node, Node>, open: map<nat, Holder>, k: nat)
    requires Shape(order, first, tail, head, next) && Links(order, first, next, open) && k in open
    ensures first < k < |order|
    ensures Shape(order, first, tail, head, next[order[k-1] := order[k]])
    ensures Links(order, first, next[order[k-1] := order[k]], open - {k})
  {
    var last := |order| - 1;
    assert order[k-1] != order[last];
    forall j | first < j < |order| && j !in open - {k}
      ensures order[j-1] in next[order[k-1] := order[k]] && next[order[k-1] := order[k]][order[j-1]] == order[j]
    {
      if j != k { ClosePosition(order, first, tail, head, next, open, k, j); }
    }
    forall j | j in open - {k}
      ensures first < j < |order| && order[j-1] !in next[order[k-1] := order[k]]
    {
      ClosePosition(order, first, tail, head, next, open, k, j);
    }
  }

  lemma ClosePosition(order: seq<Node>, first: nat, tail: Node, head: Node, next: map<Node, Node>, open: map<nat, Holder>,
                      k: nat, j: nat)
    requires Shape(order, first, tail, head, next) && Links(order, first, next, open)
    requires k in open && first < j < |order| && j != k
    ensures first < k < |order| && order[j-1] != order[k-1]
    ensures j in open ==> order[j-1] !in next
    ensures j !in open ==> order[j-1] in next && next[order[j-1]] == order[j]
  {
    var i, h := j - 1, k - 1;
    assert order[i] != order[h];
  }

  lemma CloseExclusive(pushers: seq<PusherPc>, order: seq<Node>, first: nat, next: map<Node, Node>, k: nat)
    requires Exclusive(pushers, order, first, next) && first < k < |order|
    ensures Exclusive(pushers, order, first, next[order[k-1] := order[k]])
  {
    forall p | 0 <= p < |pushers| && pushers[p].Reset?
      ensures Item(pushers[p].item) !in next[order[k-1] := order[k]]
    {
      assert Absent(order, first, Item(pushers[p].item));
    }
  }

  lemma KeepLink(s: State, p: nat)
    requires ListInv(s) && ConsumerInv(s) && Enabled(s, Link(p))
    ensures ListInv(Apply(s, Link(p))) && ConsumerInv(Apply(s, Link(p)))
  {
    var k := s.pushers[p].index;
    CloseLink(s.order, s.first, s.tail, s.head, s.next, s.open, k);
    CloseExclusive(s.pushers, s.order, s.first, s.next, k);
    LinkHolders(s.pushers, s.consumer, s.open, p);
    LinkExclusive(s.pushers, s.order, s.first, s.next[s.order[k-1] := s.order[k]], p);
    assert Absent(s.order, s.first, Stub) ==> s.order[k-1] != Stub;
    var t := Apply(s, Link(p));
    assert t == s.(pushers := s.pushers[p := Away], next := s.next[s.order[k-1] := s.order[k]], open := s.open - {k});
  }

  lemma LinkExclusive(pushers: seq<PusherPc>, order: seq<Node>, first: nat, next: map<Node, Node>, p: nat)
    requires Exclusive(pushers, order, first, next) && p < |pushers|
    ensures Exclusive(pushers[p := Away], order, first, next)
  {
  }

  lemma LinkHolders(pushers: seq<PusherPc>, consumer: ConsumerPc, open: map<nat, Holder>, p: nat)
    requires Holders(pushers, consumer, open) && p < |pushers| && pushers[p].Exchanged?
    ensures Holders(pushers[p := Away], consumer, open - {pushers[p].index})
  {
  }

  /** Moving the tail past a closed position. */
  lemma Advance(s: State, next: Option<Node>)
    requires ListInv(s) && next.Some? && Follows(s.order, s.first, s.open, next) && !s.consumer.LinkStub?
    ensures Shape(s.order, s.first + 1, next.value, s.head, s.next)
    ensures Links(s.order, s.first + 1, s.next, s.open)
    ensures Exclusive(s.pushers, s.order, s.first + 1, s.next)
    ensures s.tail.Stub? ==> next.value.Item?
  {
  }

  lemma LoadFollows(s: State)
    requires ListInv(s)
    ensures Follows(s.order, s.first, s.open, Load(s, s.tail))
    ensures s.head == s.tail && s.tail.Item? ==> Absent(s.order, s.first, Stub)
  {
    if s.first + 1 == |s.order| {
      assert s.tail == s.head;
    } else if s.tail in s.next {
      assert s.first + 1 !in s.open;
    }
  }

  lemma KeepConsume(s: State)
    requires Inv(s)
    ensures Enabled(s, Consume) && ListInv(ConsumerStep(s)) && ConsumerInv(ConsumerStep(s))
  {
    if s.consumer.ExchangeStub? {
      KeepExchangeStub(s);
    } else if s.consumer.LinkStub? {
      KeepLinkStub(s);
    } else if s.consumer.ClearStub? {
      OtherConsumer(s.pushers, s.consumer, ExchangeStub, s.open);
    } else if s.consumer.GotFirst? || s.consumer.GotSecond? || s.consumer.GotLast? {
      KeepConsumeNext(s);
    } else {
      LoadFollows(s);
    }
  }

  lemma KeepConsumeNext(s: State)
    requires Inv(s) && (s.consumer.GotFirst? || s.consumer.GotSecond? || s.consumer.GotLast?)
    ensures ListInv(ConsumerStep(s)) && ConsumerInv(ConsumerStep(s))
  {
    if s.consumer.next.Some? {
      Advance(s, s.consumer.next);
    }
    OtherConsumer(s.pushers, s.consumer, ConsumerStep(s).consumer, s.open);
  }

  lemma OtherConsumer(pushers: seq<PusherPc>, c: ConsumerPc, d: ConsumerPc, open: map<nat, Holder>)
    requires Holders(pushers, c, open) && !c.LinkStub? && !d.LinkStub?
    ensures Holders(pushers, d, open)
  {
  }

  lemma KeepExchangeStub(s: State)
    requires ListInv(s) && ConsumerInv(s) && s.consumer.ExchangeStub?
    ensures ListInv(ConsumerStep(s)) && ConsumerInv(ConsumerStep(s))
  {
    Extend(s.order, s.first, s.tail, s.head, s.next, s.open, Stub, Consumer);
    StubHolders(s.pushers, s.open, s.order, s.first, s.next);
  }

  lemma KeepLinkStub(s: State)
    requires ListInv(s) && ConsumerInv(s) && s.consumer.LinkStub?
    ensures Enabled(s, Consume) && ListInv(ConsumerStep(s)) && ConsumerInv(ConsumerStep(s))
  {
    var k := s.consumer.index;
    CloseLink(s.order, s.first, s.tail, s.head, s.next, s.open, k);
    CloseExclusive(s.pushers, s.order, s.first, s.next, k);
    LinkStubHolders(s.pushers, s.open, k);
    var t := ConsumerStep(s);
    assert t == s.(next := s.next[s.order[k-1] := s.order[k]], open := s.open - {k}, consumer := NeedLast);
  }

  lemma LinkStubHolders(pushers: seq<PusherPc>, open: map<nat, Holder>, k: nat)
    requires Holders(pushers, LinkStub(k), open)
    ensures Holders(pushers, NeedLast, open - {k})
  {
  }

  lemma StubHolders(pushers: seq<PusherPc>, open: map<nat, Holder>, order: seq<Node>, first: nat, next: map<Node, Node>)
    requires Holders(pushers, ExchangeStub, open) && Exclusive(pushers, order, first, next) && |order| !in open
    ensures Holders(pushers, LinkStub(|order|), open[|order| := Consumer])
    ensures Exclusive(pushers, order + [Stub], first, next)
  {
  }

  lemma KeepPopped(s: State, a: Action)
    requires ListInv(s) && ConsumerInv(s) && s.popped == Items(s.order[..s.first]) && Enabled(s, a)
    ensures var t := Apply(s, a); t.first <= |t.order| && t.popped == Items(t.order[..t.first])
  {
    var t := Apply(s, a);
    if t.first == s.first {
      assert t.order[..t.first] == s.order[..s.first];
    } else {
      assert t.order[..t.first][..s.first] == s.order[..s.first];
    }
  }

  lemma StepInv(s: State, a: Action)
    requires Inv(s) && Enabled(s, a)
    ensures Inv(Apply(s, a))
  {
    match a {
      case ClearLink(p, item) => KeepClear(s, p, item);
      case Exchange(p) => KeepExchange(s, p);
      case Link(p) => KeepLink(s, p);
      case Consume => KeepConsume(s);
    }
    KeepPopped(s, a);
  }

  lemma {:induction false} Invariant(pushers: nat, states: seq<State>, actions: seq<Action>, i: nat)
    requires Run(pushers, states, actions) && i < |states|
    ensures Inv(states[i])
  {
    if i > 0 {
      Invariant(pushers, states, actions, i - 1);
      StepInv(states[i-1], actions[i-1]);
    }
  }

  // ---- main results -------------------------------------------------------

  lemma {:induction false} ItemsAppend(a: seq<Node>, b: seq<Node>)
    ensures Items(a + b) == Items(a) + Items(b)
  {
    if b == [] {
      assert a + b == a;
    } else {
      assert (a + b)[..|a + b| - 1] == a + b[..|b|-1];
      ItemsAppend(a, b[..|b|-1]);
    }
  }

  lemma Delivered(s: State)
    requires Inv(s)
    ensures s.first < |s.order| && s.popped + Items(Live(s)) == Items(s.order)
  {
    ItemsAppend(s.order[..s.first], Live(s));
    assert s.order[..s.first] + Live(s) == s.order;
  }

  /** What pop has delivered, followed by what the list holds, is the head
      exchange order without the stub: items come out once each, in that
      order, and none is lost. */
  lemma DeliveredInExchangeOrder(pushers: nat, states: seq<State>, actions: seq<Action>, i: nat)
    requires Run(pushers, states, actions) && i < |states|
    ensures var s := states[i]; s.first < |s.order| && s.popped + Items(Live(s)) == Items(s.order)
  {
    Invariant(pushers, states, actions, i);
    Delivered(states[i]);
  }

  /** The queue the list stands for: the items in it, oldest first. */
  function Queue(s: State): seq<nat> {
    Items(Live(s))
  }

  /** A step of an atomic queue, or none. */
  predicate Atomic(s: State, a: Action, s': State) {
    match a
    case Exchange(p) => p < |s.pushers| && s.pushers[p].Reset? && s'.popped == s.popped && Queue(s') == Queue(s) + [s.pushers[p].item]
    case Consume =>
      || (s'.popped == s.popped && Queue(s') == Queue(s))
      || (Queue(s) != [] && s'.popped == s.popped + [Queue(s)[0]] && Queue(s') == Queue(s)[1..])
    case _ => s'.popped == s.popped && Queue(s') == Queue(s)
  }

  lemma StepIsAtomic(s: State, a: Action)
    requires Inv(s) && Enabled(s, a)
    ensures Atomic(s, a, Apply(s, a))
  {
    hide Items, Live;
    StepInv(s, a);
    Delivered(s);
    var s' := Apply(s, a);
    Delivered(s');
    match a {
      case Exchange(p) =>
        ItemsOne(s.order, Item(s.pushers[p].item));
        SameRest(s.popped, Queue(s'), Queue(s) + [s.pushers[p].item]);
      case Consume =>
        ItemsOne(s.order, Stub);
        if s'.popped == s.popped {
          SameRest(s.popped, Queue(s'), Queue(s));
        } else {
          var x := s.tail.id;
          assert s'.popped + Queue(s') == s.popped + ([x] + Queue(s'));
          SameRest(s.popped, [x] + Queue(s'), Queue(s));
        }
      case _ => SameRest(s.popped, Queue(s'), Queue(s));
    }
  }

  /** One step of the list is at most one step of an atomic queue: a head
      exchange appends its item, the end of a successful pop takes the oldest
      one, and everything else, a pop that fails because a push is half done
      included, leaves the queue alone. */
  lemma StepsAreAtomic(pushers: nat, states: seq<State>, actions: seq<Action>, i: nat)
    requires Run(pushers, states, actions) && i < |actions|
    ensures Atomic(states[i], actions[i], states[i+1])
  {
    hide Inv, Atomic;
    Invariant(pushers, states, actions, i);
    StepIsAtomic(states[i], actions[i]);
  }

  lemma ItemsOne(nodes: seq<Node>, n: Node)
    ensures Items(nodes + [n]) == Items(nodes) + (if n.Item? then [n.id] else [])
  {
    assert (nodes + [n])[..|nodes|] == nodes;
  }

  lemma SameRest(a: seq<nat>, b: seq<nat>, c: seq<nat>)
    requires a + b == a + c
    ensures b == c
  {
    assert b == (a + b)[|a|..] && c == (a + c)[|a|..];
  }

  /** With no push in progress, an undisturbed pop on a non-empty list
      returns its first item. */
  lemma QuietPopDelivers(pushers: nat, states: seq<State>, actions: seq<Action>, i: nat)
    requires Run(pushers, states, actions) && i < |states|
    requires states[i].consumer.Ready? && Items(Live(states[i])) != []
    requires forall p :: 0 <= p < |states[i].pushers| ==> !states[i].pushers[p].Exchanged?
    ensures exists n: nat :: n > 0 && ConsumerRuns(states[i], n).consumer.Ready?
                      && ConsumerRuns(states[i], n).popped == states[i].popped + [Items(Live(states[i]))[0]]
  {
    Invariant(pushers, states, actions, i);
    QuietPop(states[i]);
  }

  /** n consumer steps in a row. */
  function ConsumerRuns(s: State, n: nat): State {
    if n == 0 then s else
    var t := ConsumerRuns(s, n - 1);
    if Enabled(t, Consume) then Apply(t, Consume) else t
  }

  lemma {:induction false} HeadItem(nodes: seq<Node>)
    requires nodes != [] && nodes[0].Item?
    ensures Items(nodes) != [] && Items(nodes)[0] == nodes[0].id
  {
    assert nodes == [nodes[0]] + nodes[1..];
    ItemsAppend([nodes[0]], nodes[1..]);
    assert [nodes[0]][..0] == [];
  }

  lemma QuietPop(s: State)
    requires Inv(s) && s.consumer.Ready? && Items(Live(s)) != []
    requires forall p :: 0 <= p < |s.pushers| ==> !s.pushers[p].Exchanged?
    ensures exists n: nat :: n > 0 && ConsumerRuns(s, n).consumer.Ready?
                      && ConsumerRuns(s, n).popped == s.popped + [Items(Live(s))[0]]
  {
    assert s.open == map[];
    if s.tail.Item? {
      HeadItem(Live(s));
      QuietTake(s);
    } else {
      BehindStub(Live(s));
      QuietSkipped(s);
    }
  }

  lemma StubOnly()
    ensures Items([Stub]) == [] && Items([]) == []
  {
    assert [Stub][..0] == [];
  }

  lemma BehindStub(nodes: seq<Node>)
    requires nodes != [] && nodes[0].Stub? && Items(nodes) != []
    ensures |nodes| > 1 && (nodes[1].Item? ==> Items(nodes)[0] == nodes[1].id)
  {
    hide Items;
    ItemsAppend([Stub], nodes[1..]);
    assert nodes == [Stub] + nodes[1..];
    StubOnly();
    if nodes[1].Item? {
      HeadItem(nodes[1..]);
    }
  }

  lemma QuietTake(s: State)
    requires ListInv(s) && s.open == map[] && s.consumer.Ready? && s.tail.Item?
    ensures exists n: nat :: n > 0 && ConsumerRuns(s, n).consumer.Ready?
                      && ConsumerRuns(s, n).popped == s.popped + [s.tail.id]
  {
    var next := Load(s, s.tail);
    var t1 := s.(consumer := GotFirst(next));
    assert ConsumerRuns(s, 0) == s;
    assert ConsumerRuns(s, 1) == t1;
    if next.Some? {
      assert ConsumerRuns(s, 2) == Take(t1, next.value);
    } else {
      var t2 := s.(consumer := NeedHead);
      assert ConsumerRuns(s, 2) == t2;
      NothingBehind(s);
      QuietLast(s, t2, 2);
    }
  }

  lemma NothingBehind(s: State)
    requires ListInv(s) && s.open == map[] && Load(s, s.tail).None?
    ensures s.first + 1 == |s.order| && s.head == s.tail
  {
    FirstLinked(s.order, s.first, s.next, s.open);
  }

  lemma FirstLinked(order: seq<Node>, first: nat, next: map<Node, Node>, open: map<nat, Holder>)
    requires Links(order, first, next, open) && open == map[]
    ensures first + 1 < |order| ==> order[first] in next
  {
    if first + 1 < |order| {
      assert first + 1 !in open;
    }
  }

  /** The list is down to one item: the consumer pushes the stub behind it. */
  lemma QuietLast(s: State, t: State, n: nat)
    requires t == ConsumerRuns(s, n) && t.consumer.NeedHead? && t.tail.Item?
    requires t.first + 1 == |t.order| && t.tail == t.order[t.first] == t.head
    ensures ConsumerRuns(s, n + 6).consumer.Ready?
    ensures ConsumerRuns(s, n + 6).popped == t.popped + [t.tail.id]
  {
    hide ConsumerRuns;
    var t1 := t.(consumer := ClearStub);
    RunsNext(s, n, t, t1);
    var t2 := t.(next := t.next - {Stub}, consumer := ExchangeStub);
    RunsNext(s, n + 1, t1, t2);
    var t3 := t2.(head := Stub, order := t.order + [Stub], open := t.open[|t.order| := Consumer], consumer := LinkStub(|t.order|));
    RunsNext(s, n + 2, t2, t3);
    var t4 := t3.(next := t2.next[t.tail := Stub], open := t3.open - {|t.order|}, consumer := NeedLast);
    RunsNext(s, n + 3, t3, t4);
    var t5 := t4.(consumer := GotLast(Some(Stub)));
    RunsNext(s, n + 4, t4, t5);
    RunsNext(s, n + 5, t5, Take(t5, Stub));
  }

  lemma RunsNext(s: State, n: nat, t: State, t': State)
    requires ConsumerRuns(s, n) == t && Enabled(t, Consume) && t' == ConsumerStep(t)
    ensures ConsumerRuns(s, n + 1) == t'
  {
  }

  lemma QuietSkipped(s: State)
    requires ListInv(s) && s.open == map[] && s.consumer.Ready? && s.tail.Stub? && s.first + 1 < |s.order|
    ensures s.order[s.first+1].Item?
    ensures exists n: nat :: n > 0 && ConsumerRuns(s, n).consumer.Ready?
                      && ConsumerRuns(s, n).popped == s.popped + [s.order[s.first+1].id]
  {
    hide ConsumerRuns, ListInv;
    StubSkipped(s);
    var next := s.order[s.first+1];
    var t := s.(tail := next, first := s.first + 1, consumer := Skipped);
    RunsNone(s);
    RunsNext(s, 0, s, s.(consumer := GotFirst(Some(next))));
    RunsNext(s, 1, s.(consumer := GotFirst(Some(next))), t);
    var second := Load(t, next);
    var t3 := t.(consumer := GotSecond(second));
    RunsNext(s, 2, t, t3);
    if second.Some? {
      RunsNext(s, 3, t3, Take(t3, second.value));
      assert ConsumerRuns(s, 4).consumer.Ready?;
    } else {
      RunsNext(s, 3, t3, t.(consumer := NeedHead));
      NothingBehind(t);
      QuietLast(s, t.(consumer := NeedHead), 4);
      assert ConsumerRuns(s, 10).consumer.Ready?;
    }
  }

  lemma RunsNone(s: State)
    ensures ConsumerRuns(s, 0) == s
  {
  }

  /** Past the stub, the list is as well formed as before. */
  lemma StubSkipped(s: State)
    requires ListInv(s) && s.open == map[] && s.consumer.Ready? && s.tail.Stub? && s.first + 1 < |s.order|
    ensures var next := s.order[s.first+1];
            next.Item? && Load(s, s.tail) == Some(next) && ListInv(s.(tail := next, first := s.first + 1, consumer := Skipped))
  {
    assert s.first + 1 !in s.open;
    var next := s.order[s.first+1];
    assert Load(s, s.tail) == Some(next);
    assert next != s.tail;
    Advance(s, Some(next));
  }
}
