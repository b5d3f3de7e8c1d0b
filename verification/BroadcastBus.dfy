/**
 The in-process publish/subscribe bus over bounded queues, and the loop that drains them to a
 WebSocket.

 The bus lock is never held across a suspension, so publish, subscribe, unsubscribe and taking an
 item are atomic, and a run is any sequence of them. Payloads are identified by the index of their
 publication; `taken` and `waiting` are what a subscriber has consumed and has queued.
 */
module BroadcastBus {
  import opened Wrappers

  type Payload = string

  /** `asyncio.Queue`: a maxsize of zero or less means unbounded. */
  predicate Full<T>(items: seq<T>, maxsize: int) {
    maxsize > 0 && |items| >= maxsize
  }

  /** `put_nowait` with the overflow dropped. */
  function Offer<T>(items: seq<T>, maxsize: int, x: T): seq<T> {
    if Full(items, maxsize) then items else items + [x]
  }

  // ----- runs

  datatype Pub = Pub(channel: string, payload: Payload)

  datatype Sub = Sub(channel: string, maxsize: int, active: bool, since: nat, taken: seq<nat>, waiting: seq<nat>)

  datatype Sys = Sys(pubs: seq<Pub>, subs: seq<Sub>)

  datatype Event =
    | Publish(channel: string, payload: Payload)
    | Subscribe(channel: string, maxsize: int)
    | Unsubscribe(sub: nat)
    | Take(sub: nat)

  predicate Receives(q: Sub, channel: string) {
    q.active && q.channel == channel
  }

  function Deliver(q: Sub, channel: string, i: nat): Sub {
    if Receives(q, channel) then q.(waiting := Offer(q.waiting, q.maxsize, i)) else q
  }

  function DeliverAll(subs: seq<Sub>, channel: string, i: nat): (r: seq<Sub>)
    ensures |r| == |subs|
    ensures forall k :: 0 <= k < |r| ==> r[k] == Deliver(subs[k], channel, i)
  {
    seq(|subs|, k requires 0 <= k < |subs| => Deliver(subs[k], channel, i))
  }

  function Step(s: Sys, e: Event): Sys {
    match e
    case Publish(channel, payload) =>
      Sys(s.pubs + [Pub(channel, payload)],
          DeliverAll(s.subs, channel, |s.pubs|))
    case Subscribe(channel, maxsize) =>
      s.(subs := s.subs + [Sub(channel, maxsize, true, |s.pubs|, [], [])])
    case Unsubscribe(k) =>
      if k < |s.subs| then s.(subs := s.subs[k := s.subs[k].(active := false)]) else s
    case Take(k) =>
      if k < |s.subs| && s.subs[k].waiting != [] then
        var q := s.subs[k];
        s.(subs := s.subs[k := q.(taken := q.taken + [q.waiting[0]], waiting := q.waiting[1..])])
      else s
  }

  const EMPTY := Sys([], [])

  function RunFrom(s: Sys, es: seq<Event>): Sys {
    if es == [] then s else Step(RunFrom(s, es[..|es| - 1]), es[|es| - 1])
  }

  function Run(es: seq<Event>): Sys {
    RunFrom(EMPTY, es)
  }

  /** Everything that ever reached the subscriber. */
  function Delivered(q: Sub): seq<nat> {
    q.taken + q.waiting
  }

  ghost predicate Increasing(xs: seq<nat>) {
    forall i, j :: 0 <= i < j < |xs| ==> xs[i] < xs[j]
  }

  ghost predicate SubOk(s: Sys, q: Sub) {
    && q.since <= |s.pubs|
    && Increasing(Delivered(q))
    && (forall i :: i in Delivered(q) ==> q.since <= i < |s.pubs| && s.pubs[i].channel == q.channel)
    && (q.maxsize > 0 ==> |q.waiting| <= q.maxsize)
  }

  lemma IncreasingSnoc(xs: seq<nat>, x: nat)
    requires Increasing(xs) && forall i :: i in xs ==> i < x
    ensures Increasing(xs + [x])
  {
    assert forall k :: 0 <= k < |xs| ==> xs[k] in xs;
  }

  ghost predicate AllOk(s: Sys) {
    forall k :: 0 <= k < |s.subs| ==> SubOk(s, s.subs[k])
  }

  lemma StepKeeps(s: Sys, e: Event, k: nat)
    requires AllOk(s) && k < |Step(s, e).subs|
    ensures SubOk(Step(s, e), Step(s, e).subs[k])
  {
    if k < |s.subs| {
      var q, q' := s.subs[k], Step(s, e).subs[k];
      match e
      case Publish(channel, _) =>
        if Receives(q, channel) && !Full(q.waiting, q.maxsize) {
          IncreasingSnoc(Delivered(q), |s.pubs|);
          assert Delivered(q') == Delivered(q) + [|s.pubs|];
        }
      case Take(j) =>
        if j == k && q.waiting != [] {
          assert q.taken + [q.waiting[0]] + q.waiting[1..] == q.taken + q.waiting;
        }
      case _ =>
    }
  }

  /**
   What a subscriber has consumed, followed by its queue, is an ordered subsequence of its
   channel's publications since it subscribed, and the queue never outgrows its bound.
   */
  lemma {:induction false} OrderedSubsequence(es: seq<Event>)
    ensures AllOk(Run(es))
  {
    if es != [] {
      var before, e := es[..|es| - 1], es[|es| - 1];
      OrderedSubsequence(before);
      forall k | 0 <= k < |Run(es).subs|
        ensures SubOk(Run(es), Run(es).subs[k])
      {
        StepKeeps(Run(before), e, k);
      }
    }
  }

  /** How one subscription looks later: same channel, and everything delivered stays delivered. */
  ghost predicate Grown(s: Sys, t: Sys, k: nat)
    requires k < |s.subs|
  {
    && |s.subs| <= |t.subs| && s.pubs <= t.pubs
    && t.subs[k].channel == s.subs[k].channel && t.subs[k].maxsize == s.subs[k].maxsize
    && (t.subs[k].active ==> s.subs[k].active)
    && Delivered(s.subs[k]) <= Delivered(t.subs[k])
    && (forall i :: i in Delivered(t.subs[k]) && i < |s.pubs| ==> i in Delivered(s.subs[k]))
  }

  lemma GrownStep(s: Sys, t: Sys, k: nat, e: Event)
    requires k < |s.subs| && Grown(s, t, k)
    ensures Grown(s, Step(t, e), k)
  {
    var q, q' := t.subs[k], Step(t, e).subs[k];
    if e.Publish? && Receives(q, e.channel) && !Full(q.waiting, q.maxsize) {
      assert Delivered(q') == Delivered(q) + [|t.pubs|];
    } else if e == Take(k) && q.waiting != [] {
      assert Delivered(q') == Delivered(q);
    }
  }

  lemma {:induction false} GrownRun(s: Sys, es: seq<Event>, k: nat)
    requires k < |s.subs|
    ensures Grown(s, RunFrom(s, es), k)
  {
    if es != [] {
      GrownRun(s, es[..|es| - 1], k);
      GrownStep(s, RunFrom(s, es[..|es| - 1]), k, es[|es| - 1]);
    }
  }

  /** Publication e, the next after those of s, is among what subscription k of t got iff it had room. */
  ghost predicate ReachedIffRoom(s: Sys, e: Event, t: Sys, k: nat)
    requires e.Publish? && k < |s.subs|
  {
    && k < |t.subs|
    && (|s.pubs| in Delivered(t.subs[k])
        <==> && s.subs[k].active && s.subs[k].channel == e.channel
             && (s.subs[k].maxsize <= 0 || |s.subs[k].waiting| < s.subs[k].maxsize))
  }

  /** The fate of publication |s.pubs| for subscription k, from any later state. */
  lemma Fate(s: Sys, e: Event, next: Sys, t: Sys, k: nat)
    requires e.Publish? && k < |s.subs| && SubOk(s, s.subs[k])
    requires next == Step(s, e) && Grown(next, t, k)
    ensures ReachedIffRoom(s, e, t, k)
  {
    var i, q, q' := |s.pubs|, s.subs[k], next.subs[k];
    if q' != q {
      assert Delivered(q') == Delivered(q) + [i];
      assert Delivered(q')[|Delivered(q)|] == i;
    }
  }

  /**
   A payload reaches a subscriber, then or at any time later, exactly if the subscription was
   active on its channel and its queue was not full at that moment.
   */
  lemma DroppedOnlyWhenFull(es: seq<Event>, e: Event, later: seq<Event>, k: nat)
    requires e.Publish? && k < |Run(es).subs|
    ensures ReachedIffRoom(Run(es), e, RunFrom(Step(Run(es), e), later), k)
  {
    OrderedSubsequence(es);
    GrownRun(Step(Run(es), e), later, k);
    Fate(Run(es), e, Step(Run(es), e), RunFrom(Step(Run(es), e), later), k);
  }

  /** Any two subscribers see the payloads they have in common in the same order. */
  lemma CommonOrder(es: seq<Event>, p: nat, q: nat, a: nat, b: nat, c: nat, d: nat)
    requires p < |Run(es).subs| && q < |Run(es).subs|
    requires var dp, dq := Delivered(Run(es).subs[p]), Delivered(Run(es).subs[q]);
             a < |dp| && b < |dp| && c < |dq| && d < |dq| && dp[a] == dq[c] && dp[b] == dq[d]
    ensures a < b <==> c < d
  {
    OrderedSubsequence(es);
    assert SubOk(Run(es), Run(es).subs[p]) && SubOk(Run(es), Run(es).subs[q]);
  }

  // ----- what a run is made of, read off its events

  /** The publications among some events, in order. */
  function Published(es: seq<Event>): seq<Pub> {
    if es == [] then []
    else
      var e := es[|es| - 1];
      Published(es[..|es| - 1]) + if e.Publish? then [Pub(e.channel, e.payload)] else []
  }

  /** The positions of the subscriptions among some events: the k-th makes subscriber k. */
  function Subscribed(es: seq<Event>): (r: seq<nat>)
    ensures forall k :: 0 <= k < |r| ==> r[k] < |es| && es[r[k]].Subscribe?
    ensures forall j, k :: 0 <= j < k < |r| ==> r[j] < r[k]
  {
    if es == [] then []
    else
      var front := es[..|es| - 1];
      Subscribed(front) + if es[|es| - 1].Subscribe? then [|es| - 1] else []
  }

  lemma {:induction false} PublishedMeaning(es: seq<Event>)
    ensures Run(es).pubs == Published(es) && |Run(es).subs| == |Subscribed(es)|
  {
    if es != [] {
      PublishedMeaning(es[..|es| - 1]);
    }
  }

  /**
   Subscriber k has the channel and the size it asked for, counts publications from then on, and is
   active until it is unsubscribed.
   */
  lemma {:induction false} SubscriberMeaning(es: seq<Event>, k: nat)
    requires k < |Subscribed(es)|
    ensures k < |Run(es).subs|
    ensures var p, q := Subscribed(es)[k], Run(es).subs[k];
            && q.channel == es[p].channel && q.maxsize == es[p].maxsize
            && q.since == |Published(es[..p])|
            && (q.active <==> Unsubscribe(k) !in es[p..])
  {
    PublishedMeaning(es);
    var front, e := es[..|es| - 1], es[|es| - 1];
    PublishedMeaning(front);
    var p := Subscribed(es)[k];
    assert es == front + [e];
    if k < |Subscribed(front)| {
      SubscriberMeaning(front, k);
      SubscriberNext(Run(front), e, k);
      LaterEvents(front, e, p, k);
    } else {
      assert p == |front| && es[p..] == [e] && es[..p] == front;
    }
  }

  lemma LaterEvents(front: seq<Event>, e: Event, p: nat, k: nat)
    requires p < |front|
    ensures (front + [e])[..p] == front[..p] && (front + [e])[p] == front[p]
    ensures Unsubscribe(k) in (front + [e])[p..] <==> Unsubscribe(k) in front[p..] || e == Unsubscribe(k)
  {
    assert (front + [e])[p..] == front[p..] + [e];
  }

  /** A subscriber keeps what it asked for, and stays active unless this unsubscribes it. */
  lemma SubscriberNext(s: Sys, e: Event, k: nat)
    requires k < |s.subs|
    ensures k < |Step(s, e).subs|
    ensures var q, r := s.subs[k], Step(s, e).subs[k];
            && r.channel == q.channel && r.maxsize == q.maxsize && r.since == q.since
            && (r.active <==> q.active && e != Unsubscribe(k))
  {
  }

  /** Taking gives the subscriber its oldest waiting publication, and changes nothing else. */
  lemma TakeGivesOldest(s: Sys, k: nat)
    requires k < |s.subs| && s.subs[k].waiting != []
    ensures var q, r := s.subs[k], Step(s, Take(k)).subs[k];
            && r.taken == q.taken + [q.waiting[0]] && [q.waiting[0]] + r.waiting == q.waiting
            && Step(s, Take(k)).pubs == s.pubs
            && forall j :: 0 <= j < |s.subs| && j != k ==> Step(s, Take(k)).subs[j] == s.subs[j]
  {
  }

  // ----- the objects

  class AsyncQueue {
    const maxsize: int
    var items: seq<Payload>

    constructor (maxsize: int)
      ensures this.maxsize == maxsize && items == []
    {
      this.maxsize := maxsize;
      items := [];
    }

    method PutNowait(x: Payload) returns (ok: bool)
      modifies this
      ensures ok <==> maxsize <= 0 || |old(items)| < maxsize
      ensures items == if ok then old(items) + [x] else old(items)
    {
      ok := !Full(items, maxsize);
      if ok {
        items := items + [x];
      }
    }

    method GetNowait() returns (x: Option<Payload>)
      modifies this
      ensures old(items) == [] ==> x == None && items == []
      ensures old(items) != [] ==> x == Some(old(items)[0]) && items == old(items)[1..]
    {
      if items == [] {
        return None;
      }
      x := Some(items[0]);
      items := items[1..];
    }
  }

  /** No queue is listed twice. */
  ghost predicate NoDuplicates(qs: seq<AsyncQueue>) {
    forall i, j :: 0 <= i < j < |qs| ==> qs[i] != qs[j]
  }

  function Without<T(==)>(xs: seq<T>, x: T): seq<T> {
    if xs == [] then [] else if xs[0] == x then xs[1..] else [xs[0]] + Without(xs[1..], x)
  }

  /** `list.remove` on a list without duplicates takes out that element and no other. */
  lemma {:induction false} WithoutMeaning<T>(xs: seq<T>, x: T)
    requires forall i, j :: 0 <= i < j < |xs| ==> xs[i] != xs[j]
    ensures forall y :: y in Without(xs, x) <==> y in xs && y != x
    ensures forall i, j :: 0 <= i < j < |Without(xs, x)| ==> Without(xs, x)[i] != Without(xs, x)[j]
  {
    if xs != [] {
      WithoutMeaning(xs[1..], x);
      assert forall y :: y in xs <==> y == xs[0] || y in xs[1..];
      assert xs[0] !in xs[1..];
    }
  }

  class Bus {
    var subs: map<string, seq<AsyncQueue>>

    function Listed(channel: string): seq<AsyncQueue>
      reads this
    {
      if channel in subs then subs[channel] else []
    }

    ghost predicate Valid()
      reads this
    {
      forall c :: c in subs ==> NoDuplicates(subs[c])
    }

    constructor ()
      ensures Valid() && subs == map[]
    {
      subs := map[];
    }

    method Publish(channel: string, payload: Payload)
      requires Valid()
      modifies Listed(channel)
      ensures forall q :: q in Listed(channel) ==> q.items == Offer(old(q.items), q.maxsize, payload)
    {
      var queues := Listed(channel);
      assert NoDuplicates(queues);
      for n := 0 to |queues|
        invariant forall i :: 0 <= i < n ==> queues[i].items == Offer(old(queues[i].items), queues[i].maxsize, payload)
        invariant forall i :: n <= i < |queues| ==> queues[i].items == old(queues[i].items)
      {
        var _ := queues[n].PutNowait(payload);
      }
    }

    method Subscribe(channel: string, maxsize: int := 64) returns (q: AsyncQueue)
      requires Valid()
      modifies this
      ensures Valid() && fresh(q) && q.maxsize == maxsize && q.items == []
      ensures subs == old(subs)[channel := old(Listed(channel)) + [q]]
    {
      q := new AsyncQueue(maxsize);
      subs := subs[channel := Listed(channel) + [q]];
    }

    method Unsubscribe(channel: string, q: AsyncQueue)
      requires Valid()
      modifies this
      ensures Valid()
      ensures subs == old(subs)[channel := Without(old(Listed(channel)), q)]
      ensures q !in Listed(channel)
    {
      WithoutMeaning(Listed(channel), q);
      subs := subs[channel := Without(Listed(channel), q)];
    }
  }

  // ----- a round of the event loop, with publications arriving while it sends

  /** A payload published to the queue at some position of the loop's list. */
  datatype Arrival = Arrival(queue: nat, payload: Payload)

  function Arrive(items: seq<seq<Payload>>, sizes: seq<int>, arrivals: seq<Arrival>): (r: seq<seq<Payload>>)
    requires |items| == |sizes|
    ensures |r| == |items|
  {
    if arrivals == [] then items
    else
      var before, a := Arrive(items, sizes, arrivals[..|arrivals| - 1]), arrivals[|arrivals| - 1];
      if a.queue < |items| then before[a.queue := Offer(before[a.queue], sizes[a.queue], a.payload)] else before
  }

  /** What the first n queues give, and the queues then; `during(i)` arrives while queue i's head is sent. */
  function Round(channels: seq<string>, sizes: seq<int>, items: seq<seq<Payload>>, during: nat -> seq<Arrival>, n: nat)
    : (r: (seq<(string, Payload)>, seq<seq<Payload>>))
    requires n <= |items| == |sizes| == |channels|
    ensures |r.1| == |items|
  {
    if n == 0 then ([], items)
    else
      var (sent, now) := Round(channels, sizes, items, during, n - 1);
      if now[n - 1] == [] then (sent, now)
      else (sent + [(channels[n - 1], now[n - 1][0])], Arrive(now[n - 1 := now[n - 1][1..]], sizes, during(n - 1)))
  }

  lemma {:induction false} ArriveAppends(items: seq<seq<Payload>>, sizes: seq<int>, arrivals: seq<Arrival>, k: nat)
    requires k < |items| == |sizes|
    ensures items[k] <= Arrive(items, sizes, arrivals)[k]
  {
    if arrivals != [] {
      ArriveAppends(items, sizes, arrivals[..|arrivals| - 1], k);
    }
  }

  /** The payloads that arrive for queue k, in order. */
  function For(arrivals: seq<Arrival>, k: nat): seq<Payload> {
    if arrivals == [] then []
    else
      var a := arrivals[|arrivals| - 1];
      For(arrivals[..|arrivals| - 1], k) + if a.queue == k then [a.payload] else []
  }

  /** A queue with room for them gets all that arrives for it, and nothing else. */
  lemma {:induction false} ArriveFits(items: seq<seq<Payload>>, sizes: seq<int>, arrivals: seq<Arrival>, k: nat)
    requires k < |items| == |sizes|
    requires sizes[k] <= 0 || |items[k]| + |For(arrivals, k)| <= sizes[k]
    ensures Arrive(items, sizes, arrivals)[k] == items[k] + For(arrivals, k)
  {
    if arrivals != [] {
      ArriveFits(items, sizes, arrivals[..|arrivals| - 1], k);
    }
  }

  /** What queue k holds when its turn comes. */
  function AtTurn(channels: seq<string>, sizes: seq<int>, items: seq<seq<Payload>>, during: nat -> seq<Arrival>, k: nat)
    : seq<Payload>
    requires k < |items| == |sizes| == |channels|
  {
    Round(channels, sizes, items, during, k).1[k]
  }

  lemma {:induction false} RoundPrefix(
      channels: seq<string>, sizes: seq<int>, items: seq<seq<Payload>>, during: nat -> seq<Arrival>, n: nat, k: nat)
    requires n <= k < |items| == |sizes| == |channels|
    ensures items[k] <= Round(channels, sizes, items, during, n).1[k]
  {
    if n > 0 {
      RoundPrefix(channels, sizes, items, during, n - 1, k);
      var now := Round(channels, sizes, items, during, n - 1).1;
      if now[n - 1] != [] {
        ArriveAppends(now[n - 1 := now[n - 1][1..]], sizes, during(n - 1), k);
      }
    }
  }

  /**
   The messages of a round, queue by queue in the order of the list: one that is empty at its turn
   sends none, and any other sends one, its oldest payload under its channel.
   */
  lemma {:induction false} RoundSends(
      channels: seq<string>, sizes: seq<int>, items: seq<seq<Payload>>, during: nat -> seq<Arrival>, k: nat, n: nat)
    requires k < n <= |items| == |sizes| == |channels|
    ensures var turn := AtTurn(channels, sizes, items, during, k);
            var before := Round(channels, sizes, items, during, k).0;
            var after := Round(channels, sizes, items, during, k + 1).0;
            && after == (if turn == [] then before else before + [(channels[k], turn[0])])
            && after <= Round(channels, sizes, items, during, n).0
  {
    if k < n - 1 {
      RoundSends(channels, sizes, items, during, k, n - 1);
      RoundNext(channels, sizes, items, during, n - 1);
    } else {
      RoundNext(channels, sizes, items, during, k);
    }
  }

  /** A queue with something in it before the round has that first at its turn, so that is what it sends. */
  lemma OldestComesFirst(
      channels: seq<string>, sizes: seq<int>, items: seq<seq<Payload>>, during: nat -> seq<Arrival>, k: nat)
    requires k < |items| == |sizes| == |channels| && items[k] != []
    ensures AtTurn(channels, sizes, items, during, k) != []
    ensures AtTurn(channels, sizes, items, during, k)[0] == items[k][0]
  {
    RoundPrefix(channels, sizes, items, during, k, k);
  }

  /** What queue k gives to the round: the payload of its message, if it sends one. */
  function Given(channels: seq<string>, sizes: seq<int>, items: seq<seq<Payload>>, during: nat -> seq<Arrival>, k: nat)
    : seq<Payload>
    requires k < |items| == |sizes| == |channels|
  {
    var before, after := Round(channels, sizes, items, during, k).0, Round(channels, sizes, items, during, k + 1).0;
    if |before| < |after| then [after[|before|].1] else []
  }

  /** Whatever is published meanwhile, what a queue held before the round is sent or still there, in order. */
  lemma {:induction false} RoundLosesNothing(
      channels: seq<string>, sizes: seq<int>, items: seq<seq<Payload>>, during: nat -> seq<Arrival>, n: nat, k: nat)
    requires k < |items| == |sizes| == |channels| && n <= |items|
    ensures var given := if k < n then Given(channels, sizes, items, during, k) else [];
            items[k] <= given + Round(channels, sizes, items, during, n).1[k]
  {
    if n > 0 {
      RoundLosesNothing(channels, sizes, items, during, n - 1, k);
      var now := Round(channels, sizes, items, during, n - 1).1;
      if now[n - 1] != [] {
        ArriveAppends(now[n - 1 := now[n - 1][1..]], sizes, during(n - 1), k);
        assert k == n - 1 ==> [now[k][0]] + now[k][1..] == now[k];
      }
    }
  }

  ghost function Contents(queues: seq<(string, AsyncQueue)>): (items: seq<seq<Payload>>)
    reads set i | 0 <= i < |queues| :: queues[i].1
    ensures |items| == |queues| && forall i :: 0 <= i < |queues| ==> items[i] == queues[i].1.items
  {
    if queues == [] then []
    else
      assert forall i :: 0 <= i < |queues| - 1 ==> queues[..|queues| - 1][i] == queues[i];
      Contents(queues[..|queues| - 1]) + [queues[|queues| - 1].1.items]
  }

  function Channels(queues: seq<(string, AsyncQueue)>): (channels: seq<string>)
    ensures |channels| == |queues|
  {
    seq(|queues|, i requires 0 <= i < |queues| => queues[i].0)
  }

  function Sizes(queues: seq<(string, AsyncQueue)>): (sizes: seq<int>)
    ensures |sizes| == |queues|
  {
    seq(|queues|, i requires 0 <= i < |queues| => queues[i].1.maxsize)
  }

  ghost predicate AllDifferent(queues: seq<(string, AsyncQueue)>) {
    forall i, j :: 0 <= i < j < |queues| ==> queues[i].1 != queues[j].1
  }

  /** One publication reaches one of the loop's queues. */
  method DeliverOne(queues: seq<(string, AsyncQueue)>, a: Arrival)
    requires AllDifferent(queues) && a.queue < |queues|
    modifies queues[a.queue].1
    ensures var items := old(Contents(queues));
            Contents(queues) == items[a.queue := Offer(items[a.queue], Sizes(queues)[a.queue], a.payload)]
  {
    assert forall i :: 0 <= i < |queues| && i != a.queue ==> queues[i].1 != queues[a.queue].1;
    var _ := queues[a.queue].1.PutNowait(a.payload);
  }

  lemma ArriveNext(items: seq<seq<Payload>>, sizes: seq<int>, arrivals: seq<Arrival>, n: nat)
    requires |items| == |sizes| && n < |arrivals|
    ensures var before, a := Arrive(items, sizes, arrivals[..n]), arrivals[n];
            Arrive(items, sizes, arrivals[..n + 1]) ==
            if a.queue < |items| then before[a.queue := Offer(before[a.queue], sizes[a.queue], a.payload)] else before
  {
    assert arrivals[..n + 1][..n] == arrivals[..n];
  }

  /** While a send is awaited, publishers run. */
  method AwaitSend(queues: seq<(string, AsyncQueue)>, arrivals: seq<Arrival>)
    requires AllDifferent(queues)
    modifies set i | 0 <= i < |queues| :: queues[i].1
    ensures Contents(queues) == Arrive(old(Contents(queues)), Sizes(queues), arrivals)
  {
    ghost var before := Contents(queues);
    for n := 0 to |arrivals|
      invariant Contents(queues) == Arrive(before, Sizes(queues), arrivals[..n])
    {
      ArriveNext(before, Sizes(queues), arrivals, n);
      if arrivals[n].queue < |queues| {
        DeliverOne(queues, arrivals[n]);
      }
    }
    assert arrivals[..|arrivals|] == arrivals;
  }

  lemma RoundNext(channels: seq<string>, sizes: seq<int>, items: seq<seq<Payload>>, during: nat -> seq<Arrival>, n: nat)
    requires n < |items| == |sizes| == |channels|
    ensures var (sent, now) := Round(channels, sizes, items, during, n);
            Round(channels, sizes, items, during, n + 1) ==
            if now[n] == [] then (sent, now)
            else (sent + [(channels[n], now[n][0])], Arrive(now[n := now[n][1..]], sizes, during(n)))
  {
  }

  /** Taking the head of one of the loop's queues leaves the others alone. */
  method TakeHead(queues: seq<(string, AsyncQueue)>, n: nat) returns (data: Option<Payload>)
    requires AllDifferent(queues) && n < |queues|
    modifies queues[n].1
    ensures var items := old(Contents(queues));
            if items[n] == [] then data == None && Contents(queues) == items
            else data == Some(items[n][0]) && Contents(queues) == items[n := items[n][1..]]
  {
    assert forall i :: 0 <= i < |queues| && i != n ==> queues[i].1 != queues[n].1;
    data := queues[n].1.GetNowait();
  }

  /** Queue n gives up its head, if it has one, and publications arrive while that is sent. */
  method TakeTurn(queues: seq<(string, AsyncQueue)>, n: nat, arrivals: seq<Arrival>) returns (data: Option<Payload>)
    requires AllDifferent(queues) && n < |queues|
    modifies set i | 0 <= i < |queues| :: queues[i].1
    ensures var now := old(Contents(queues));
            if now[n] == [] then data == None && Contents(queues) == now
            else data == Some(now[n][0]) && Contents(queues) == Arrive(now[n := now[n][1..]], Sizes(queues), arrivals)
  {
    data := TakeHead(queues, n);
    if data.Some? {
      AwaitSend(queues, arrivals);
    }
  }

  /** One round of the event loop: each queue gives up its head, in the order of the list. */
  method PollRound(queues: seq<(string, AsyncQueue)>, during: nat -> seq<Arrival>)
    returns (sent: seq<(string, Payload)>)
    requires AllDifferent(queues)
    modifies set i | 0 <= i < |queues| :: queues[i].1
    ensures (sent, Contents(queues)) ==
            Round(Channels(queues), Sizes(queues), old(Contents(queues)), during, |queues|)
  {
    ghost var before := Contents(queues);
    sent := [];
    for n := 0 to |queues|
      invariant (sent, Contents(queues)) == Round(Channels(queues), Sizes(queues), before, during, n)
    {
      RoundNext(Channels(queues), Sizes(queues), before, during, n);
      var data := TakeTurn(queues, n, during(n));
      if data.Some? {
        sent := sent + [(queues[n].0, data.value)];
      }
    }
  }
}
