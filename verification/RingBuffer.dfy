/** The drop-oldest queue, step by step: any number of producers inside Put or PutWithBackpressure and any
    consumers, interleaved in every way.  A Put on a full channel takes five steps, not one.  A channel of capacity 0
    has no queue: a packet goes straight from a producer that sends to a consumer, or to a producer that drops. */
module RingBuffer {
  import opened Bytes

  /** Packets are numbered in the order in which the calls that put them begin. */
  type Packet = nat

  /** Where a producer is: outside, past the failed send, past the receive that drops the oldest packet, past the
      read of the drop counter, or waiting for room. */
  datatype Producer =
    | Idle
    | Full(pkt: Packet)
    | Popped(pkt: Packet)
    | Counting(pkt: Packet, seen: nat)
    | Sending(pkt: Packet)

  /** `put`, `received` and `dropped` are history. */
  datatype Ring = Ring(
    cap: nat, queue: seq<Packet>, counter: nat, producers: seq<Producer>,
    put: nat, received: seq<Packet>, dropped: seq<Packet>)

  /** The last four are the hand-overs of a channel of capacity 0.  Producer `p`, which waits for room, hands its packet
      to a Put that drops it (Meet) or to a consumer (GetFrom); and so does a `p` that only now calls Put and finds
      one of them waiting (PutTo, PutGet). */
  datatype Step =
    | Put(p: nat)
    | PutBlocking(p: nat)
    | Go(p: nat)
    | Get
    | Meet(p: nat, q: nat)
    | GetFrom(p: nat)
    | PutTo(p: nat, q: nat)
    | PutGet(p: nat)

  function NewRing(cap: nat, producers: nat): Ring {
    Ring(cap, [], 0, seq(producers, _ => Idle), 0, [], [])
  }

  /** One step of a producer inside a call; a step whose channel operation would block changes nothing. */
  function Advance(r: Ring, p: nat): Ring
    requires p < |r.producers|
  {
    match r.producers[p]
    case Idle => r
    case Full(pkt) =>
      if r.queue == [] then r
      else r.(queue := r.queue[1..], dropped := r.dropped + [r.queue[0]], producers := r.producers[p := Popped(pkt)])
    case Popped(pkt) => r.(producers := r.producers[p := Counting(pkt, r.counter)])
    case Counting(pkt, seen) => r.(counter := seen + 1, producers := r.producers[p := Sending(pkt)])
    case Sending(pkt) =>
      if |r.queue| >= r.cap then r
      else r.(queue := r.queue + [pkt], producers := r.producers[p := Idle])
  }

  function Apply(r: Ring, s: Step): Ring {
    match s
    case Put(p) =>
      if p >= |r.producers| || r.producers[p] != Idle then r
      else if |r.queue| < r.cap then r.(queue := r.queue + [r.put], put := r.put + 1)
      else r.(producers := r.producers[p := Full(r.put)], put := r.put + 1)
    case PutBlocking(p) =>
      if p >= |r.producers| || r.producers[p] != Idle then r
      else r.(producers := r.producers[p := Sending(r.put)], put := r.put + 1)
    case Go(p) => if p >= |r.producers| then r else Advance(r, p)
    case Get => if r.queue == [] then r else r.(queue := r.queue[1..], received := r.received + [r.queue[0]])
    case Meet(p, q) =>
      if CanMeet(r, p, q) then
        r.(dropped := r.dropped + [r.producers[p].pkt],
           producers := r.producers[p := Idle][q := Popped(r.producers[q].pkt)])
      else r
    case GetFrom(p) =>
      if r.cap == 0 && p < |r.producers| && r.producers[p].Sending? then
        r.(received := r.received + [r.producers[p].pkt], producers := r.producers[p := Idle])
      else r
    case PutTo(p, q) =>
      if CanPutTo(r, p, q) then
        r.(dropped := r.dropped + [r.put], put := r.put + 1,
           producers := r.producers[q := Popped(r.producers[q].pkt)])
      else r
    case PutGet(p) =>
      if r.cap == 0 && p < |r.producers| && r.producers[p].Idle? then
        r.(received := r.received + [r.put], put := r.put + 1)
      else r
  }

  /** A sender and a Put that waits for a packet to drop. */
  predicate CanMeet(r: Ring, p: nat, q: nat) {
    r.cap == 0 && p < |r.producers| && q < |r.producers| && r.producers[p].Sending? && r.producers[q].Full?
  }

  /** A call that begins while a Put waits for a packet to drop. */
  predicate CanPutTo(r: Ring, p: nat, q: nat) {
    r.cap == 0 && p < |r.producers| && q < |r.producers| && r.producers[p].Idle? && r.producers[q].Full?
  }

  function Run(r: Ring, steps: seq<Step>): Ring
    decreases |steps|
  {
    if steps == [] then r else Run(Apply(r, steps[0]), steps[1..])
  }

  // ---------------------------------------------------------------- conservation

  /** How often `x` occurs in a queue or a log. */
  ghost function Count(s: seq<Packet>, x: Packet): nat {
    multiset(s)[x]
  }

  function HeldBy(p: Producer, x: Packet): nat {
    if !p.Idle? && p.pkt == x then 1 else 0
  }

  /** How many unfinished calls hold `x`. */
  function Held(ps: seq<Producer>, x: Packet): nat {
    if ps == [] then 0 else HeldBy(ps[0], x) + Held(ps[1..], x)
  }

  lemma {:induction false} HeldUpdate(ps: seq<Producer>, p: nat, q: Producer, x: Packet)
    requires p < |ps|
    ensures Held(ps[p := q], x) + HeldBy(ps[p], x) == Held(ps, x) + HeldBy(q, x)
    decreases |ps|
  {
    if p == 0 {
      assert ps[p := q][1..] == ps[1..];
    } else {
      HeldUpdate(ps[1..], p - 1, q, x);
      assert ps[p := q][1..] == ps[1..][p - 1 := q];
    }
  }

  lemma {:induction false} HeldIdle(n: nat, x: Packet)
    ensures Held(seq(n, _ => Idle), x) == 0
  {
    if n > 0 {
      HeldIdle(n - 1, x);
      assert seq(n, _ => Idle)[1..] == seq(n - 1, _ => Idle);
    }
  }

  /** In how many places `x` is: queued, received, dropped, or held by an unfinished call. */
  ghost function Places(r: Ring, x: Packet): nat {
    Count(r.queue, x) + Count(r.received, x) + Count(r.dropped, x) + Held(r.producers, x)
  }

  /** A packet that was put is in one place, one that was not is nowhere. */
  ghost predicate Conserved(r: Ring, x: Packet) {
    Places(r, x) == (if x < r.put then 1 else 0) && |r.queue| <= r.cap
  }

  lemma CountHead(q: seq<Packet>, log: seq<Packet>, x: Packet)
    requires q != []
    ensures Count(q[1..], x) + Count(log + [q[0]], x) == Count(q, x) + Count(log, x)
  {
    assert q == [q[0]] + q[1..];
  }

  lemma CountLast(q: seq<Packet>, y: Packet, x: Packet)
    ensures Count(q + [y], x) == Count(q, x) + if x == y then 1 else 0
  {
  }

  lemma AdvanceConserves(r: Ring, p: nat, x: Packet)
    requires Conserved(r, x) && p < |r.producers|
    ensures Conserved(Advance(r, p), x)
  {
    match r.producers[p]
    case Full(pkt) => PopConserves(r, p, pkt, x);
    case Sending(pkt) =>
      HeldUpdate(r.producers, p, Idle, x);
      CountLast(r.queue, pkt, x);
    case Popped(pkt) => HeldUpdate(r.producers, p, Counting(pkt, r.counter), x);
    case Counting(pkt, _) => HeldUpdate(r.producers, p, Sending(pkt), x);
    case Idle =>
  }

  lemma PopConserves(r: Ring, p: nat, pkt: Packet, x: Packet)
    requires Conserved(r, x) && p < |r.producers| && r.producers[p] == Full(pkt)
    ensures Conserved(Advance(r, p), x)
  {
    HeldUpdate(r.producers, p, Popped(pkt), x);
    if r.queue != [] {
      CountHead(r.queue, r.dropped, x);
    }
  }

  lemma PutConserves(r: Ring, p: nat, q: Producer, x: Packet)
    requires Conserved(r, x) && p < |r.producers| && r.producers[p] == Idle && !q.Idle? && q.pkt == r.put
    ensures Conserved(r.(producers := r.producers[p := q], put := r.put + 1), x)
    ensures |r.queue| < r.cap ==> Conserved(r.(queue := r.queue + [r.put], put := r.put + 1), x)
  {
    HeldUpdate(r.producers, p, q, x);
    CountLast(r.queue, r.put, x);
  }

  lemma MeetConserves(r: Ring, p: nat, q: nat, x: Packet)
    requires Conserved(r, x) && CanMeet(r, p, q)
    ensures Conserved(Apply(r, Meet(p, q)), x)
  {
    var pkt, ps := r.producers[p].pkt, r.producers[p := Idle];
    HeldUpdate(r.producers, p, Idle, x);
    HeldUpdate(ps, q, Popped(ps[q].pkt), x);
    CountLast(r.dropped, pkt, x);
  }

  lemma GetFromConserves(r: Ring, p: nat, x: Packet)
    requires Conserved(r, x) && p < |r.producers| && r.producers[p].Sending?
    ensures Conserved(r.(received := r.received + [r.producers[p].pkt], producers := r.producers[p := Idle]), x)
  {
    HeldUpdate(r.producers, p, Idle, x);
    CountLast(r.received, r.producers[p].pkt, x);
  }

  lemma PutToConserves(r: Ring, p: nat, q: nat, x: Packet)
    requires Conserved(r, x) && CanPutTo(r, p, q)
    ensures Conserved(Apply(r, PutTo(p, q)), x)
  {
    HeldUpdate(r.producers, q, Popped(r.producers[q].pkt), x);
    CountLast(r.dropped, r.put, x);
  }

  lemma GetConserves(r: Ring, x: Packet)
    requires Conserved(r, x)
    ensures Conserved(Apply(r, Get), x)
  {
    if r.queue != [] {
      CountHead(r.queue, r.received, x);
    }
  }

  lemma StepConserves(r: Ring, s: Step, x: Packet)
    requires Conserved(r, x)
    ensures Conserved(Apply(r, s), x)
  {
    match s
    case Put(p) =>
      if p < |r.producers| && r.producers[p] == Idle {
        PutConserves(r, p, Full(r.put), x);
      }
    case PutBlocking(p) =>
      if p < |r.producers| && r.producers[p] == Idle {
        PutConserves(r, p, Sending(r.put), x);
      }
    case Go(p) =>
      if p < |r.producers| {
        AdvanceConserves(r, p, x);
      }
    case Get => GetConserves(r, x);
    case Meet(p, q) =>
      if CanMeet(r, p, q) {
        MeetConserves(r, p, q, x);
      }
    case GetFrom(p) =>
      if r.cap == 0 && p < |r.producers| && r.producers[p].Sending? {
        GetFromConserves(r, p, x);
      }
    case PutTo(p, q) =>
      if CanPutTo(r, p, q) {
        PutToConserves(r, p, q, x);
      }
    case PutGet(_) => CountLast(r.received, r.put, x);
  }

  lemma {:induction false} RunConserves(r: Ring, steps: seq<Step>, x: Packet)
    requires Conserved(r, x)
    ensures Conserved(Run(r, steps), x) && Run(r, steps).cap == r.cap
    decreases |steps|
  {
    if steps != [] {
      StepConserves(r, steps[0], x);
      RunConserves(Apply(r, steps[0]), steps[1..], x);
    }
  }

  /** At every state of every run each packet put is in exactly one place, and the queue is within its capacity. */
  lemma ExactlyOnePlace(cap: nat, producers: nat, steps: seq<Step>, x: Packet)
    ensures
      var r := Run(NewRing(cap, producers), steps);
      && |r.queue| <= cap
      && Count(r.queue, x) + Count(r.received, x) + Count(r.dropped, x) + Held(r.producers, x)
        == if x < r.put then 1 else 0
  {
    HeldIdle(producers, x);
    RunConserves(NewRing(cap, producers), steps, x);
  }

  // ---------------------------------------------------------------- one producer

  /** The packets lo..hi-1 in order. */
  function Range(lo: nat, hi: nat): (s: seq<Packet>)
    requires lo <= hi
    ensures |s| == hi - lo && forall i :: 0 <= i < |s| ==> s[i] == lo + i
  {
    seq(hi - lo, i => lo + i)
  }

  ghost predicate Increasing(s: seq<Packet>) {
    forall i, j :: 0 <= i < j < |s| ==> s[i] < s[j]
  }

  /** The first packet after the queue's. */
  function Next(r: Ring): int
    requires |r.producers| == 1
  {
    if r.producers[0].Idle? then r.put else r.put - 1
  }

  /** The queue is a run of consecutive packets, and everything that left it is older and in order. */
  ghost predicate InOrder(queue: seq<Packet>, next: int, received: seq<Packet>, dropped: seq<Packet>) {
    && |queue| <= next && queue == Range(next - |queue|, next)
    && Increasing(received) && Increasing(dropped)
    && (forall i :: 0 <= i < |received| ==> received[i] < next - |queue|)
    && (forall i :: 0 <= i < |dropped| ==> dropped[i] < next - |queue|)
  }

  ghost predicate Orderly(r: Ring) {
    && |r.producers| == 1 && |r.queue| <= r.cap
    && InOrder(r.queue, Next(r), r.received, r.dropped)
    && var p := r.producers[0];
    && (!p.Idle? ==> p.pkt == Next(r))
  }

  lemma TakeInOrder(queue: seq<Packet>, next: int, received: seq<Packet>, dropped: seq<Packet>)
    requires InOrder(queue, next, received, dropped) && queue != []
    ensures InOrder(queue[1..], next, received + [queue[0]], dropped)
    ensures InOrder(queue[1..], next, received, dropped + [queue[0]])
  {
    assert queue[1..] == Range(next - |queue| + 1, next);
  }

  lemma AppendInOrder(queue: seq<Packet>, next: int, received: seq<Packet>, dropped: seq<Packet>)
    requires InOrder(queue, next, received, dropped)
    ensures InOrder(queue + [next], next + 1, received, dropped)
  {
    assert queue + [next] == Range(next - |queue|, next + 1);
  }

  lemma AdvanceOrderly(r: Ring)
    requires Orderly(r)
    ensures Orderly(Advance(r, 0))
  {
    match r.producers[0]
    case Full(_) =>
      if r.queue != [] {
        TakeInOrder(r.queue, Next(r), r.received, r.dropped);
      }
    case Sending(_) => AppendInOrder(r.queue, Next(r), r.received, r.dropped);
    case _ =>
  }

  lemma StepOrderly(r: Ring, s: Step)
    requires Orderly(r)
    ensures Orderly(Apply(r, s))
  {
    match s
    case Put(_) => AppendInOrder(r.queue, Next(r), r.received, r.dropped);
    case Get =>
      if r.queue != [] {
        TakeInOrder(r.queue, Next(r), r.received, r.dropped);
      }
    case Go(p) =>
      if p == 0 {
        AdvanceOrderly(r);
      }
    case _ =>
  }

  lemma {:induction false} RunOrderly(r: Ring, steps: seq<Step>)
    requires Orderly(r)
    ensures Orderly(Run(r, steps))
    decreases |steps|
  {
    if steps != [] {
      StepOrderly(r, steps[0]);
      RunOrderly(Apply(r, steps[0]), steps[1..]);
    }
  }

  /** With one producer what is received is a subsequence of what was put, in its order. */
  lemma OneProducerInOrder(cap: nat, steps: seq<Step>)
    ensures
      var r := Run(NewRing(cap, 1), steps);
      Increasing(r.received) && forall i :: 0 <= i < |r.received| ==> r.received[i] < r.put
  {
    RunOrderly(NewRing(cap, 1), steps);
  }

  // ---------------------------------------------------------------- the drop counter

  function UncountedBy(p: Producer): nat {
    if p.Popped? || p.Counting? then 1 else 0
  }

  /** How many calls have dropped a packet and not yet written the counter. */
  function Uncounted(ps: seq<Producer>): nat {
    if ps == [] then 0 else UncountedBy(ps[0]) + Uncounted(ps[1..])
  }

  lemma {:induction false} UncountedUpdate(ps: seq<Producer>, p: nat, q: Producer)
    requires p < |ps|
    ensures Uncounted(ps[p := q]) + UncountedBy(ps[p]) == Uncounted(ps) + UncountedBy(q)
    decreases |ps|
  {
    if p == 0 {
      assert ps[p := q][1..] == ps[1..];
    } else {
      UncountedUpdate(ps[1..], p - 1, q);
      assert ps[p := q][1..] == ps[1..][p - 1 := q];
    }
  }

  lemma {:induction false} UncountedIdle(n: nat)
    ensures Uncounted(seq(n, _ => Idle)) == 0
  {
    if n > 0 {
      UncountedIdle(n - 1);
      assert seq(n, _ => Idle)[1..] == seq(n - 1, _ => Idle);
    }
  }

  /** No producer is inside a call. */
  predicate Quiet(r: Ring) {
    forall i :: 0 <= i < |r.producers| ==> r.producers[i].Idle?
  }

  /** Neither the counter nor a value read from it is ahead of the drops whose counting is over. */
  ghost predicate Behind(r: Ring) {
    var over := |r.dropped| - Uncounted(r.producers);
    r.counter <= over && forall i :: 0 <= i < |r.producers| && r.producers[i].Counting? ==> r.producers[i].seen <= over
  }

  /** A step that changes one producer, drops `drops` packets and leaves the counter alone. */
  lemma BehindKept(r: Ring, p: nat, q: Producer, drops: seq<Packet>)
    requires Behind(r) && p < |r.producers|
    requires UncountedBy(q) == UncountedBy(r.producers[p]) + |drops|
    requires q.Counting? ==> q.seen <= r.counter
    ensures Behind(r.(producers := r.producers[p := q], dropped := r.dropped + drops))
  {
    UncountedUpdate(r.producers, p, q);
  }

  lemma AdvanceBehind(r: Ring, p: nat)
    requires Behind(r) && p < |r.producers|
    ensures Behind(Advance(r, p))
  {
    match r.producers[p]
    case Idle =>
    case Full(pkt) => BehindKept(r, p, Popped(pkt), if r.queue == [] then [0] else [r.queue[0]]);
    case Popped(pkt) => BehindKept(r, p, Counting(pkt, r.counter), []);
    case Counting(pkt, seen) => UncountedUpdate(r.producers, p, Sending(pkt));
    case Sending(pkt) => BehindKept(r, p, Idle, []);
  }

  lemma StepBehind(r: Ring, s: Step)
    requires Behind(r)
    ensures Behind(Apply(r, s))
  {
    match s
    case Put(p) =>
      if p < |r.producers| && r.producers[p] == Idle {
        BehindKept(r, p, Full(r.put), []);
      }
    case PutBlocking(p) =>
      if p < |r.producers| && r.producers[p] == Idle {
        BehindKept(r, p, Sending(r.put), []);
      }
    case Go(p) =>
      if p < |r.producers| {
        AdvanceBehind(r, p);
      }
    case Get =>
    case Meet(p, q) =>
      if CanMeet(r, p, q) {
        BehindKept(r, p, Idle, []);
        var r' := r.(producers := r.producers[p := Idle]);
        assert r.dropped + [] == r.dropped;
        BehindKept(r', q, Popped(r.producers[q].pkt), [r.producers[p].pkt]);
      }
    case GetFrom(p) =>
      if p < |r.producers| && r.producers[p].Sending? {
        BehindKept(r, p, Idle, []);
      }
    case PutTo(p, q) =>
      if CanPutTo(r, p, q) {
        BehindKept(r, q, Popped(r.producers[q].pkt), [r.put]);
      }
    case PutGet(_) =>
  }

  lemma {:induction false} RunBehind(r: Ring, steps: seq<Step>)
    requires Behind(r)
    ensures Behind(Run(r, steps))
    decreases |steps|
  {
    if steps != [] {
      StepBehind(r, steps[0]);
      RunBehind(Apply(r, steps[0]), steps[1..]);
    }
  }

  /** With any number of producers Dropped() never exceeds the number of packets dropped. */
  lemma CounterNeverAhead(cap: nat, producers: nat, steps: seq<Step>)
    ensures
      var r := Run(NewRing(cap, producers), steps);
      r.counter <= |r.dropped|
  {
    UncountedIdle(producers);
    RunBehind(NewRing(cap, producers), steps);
  }

  /** No two calls can be counting at once. */
  predicate Alone(cap: nat, producers: nat) {
    producers <= 1 || (cap == 0 && producers == 2)
  }

  /** The counter lags behind the drops only while one drop is being counted. */
  ghost predicate Tallied(r: Ring) {
    && Alone(r.cap, |r.producers|) && |r.queue| <= r.cap
    && Uncounted(r.producers) <= 1
    && r.counter + Uncounted(r.producers) == |r.dropped|
    && forall i :: 0 <= i < |r.producers| && r.producers[i].Counting? ==> r.producers[i].seen == r.counter
  }

  lemma UncountedFew(ps: seq<Producer>)
    requires |ps| <= 2
    ensures |ps| == 1 ==> Uncounted(ps) == UncountedBy(ps[0])
    ensures |ps| == 2 ==> Uncounted(ps) == UncountedBy(ps[0]) + UncountedBy(ps[1])
  {
    if |ps| == 2 {
      assert ps[1..] == [ps[1]];
    }
  }

  lemma AdvanceTallied(r: Ring, p: nat)
    requires Tallied(r) && p < |r.producers|
    ensures Tallied(Advance(r, p))
  {
    UncountedFew(r.producers);
    UncountedUpdate(r.producers, p, Advance(r, p).producers[p]);
  }

  lemma MeetTallied(r: Ring, p: nat, q: nat)
    requires Tallied(r) && CanMeet(r, p, q)
    ensures Tallied(Apply(r, Meet(p, q)))
  {
    UncountedFew(r.producers);
    UncountedUpdate(r.producers, p, Idle);
    UncountedUpdate(r.producers[p := Idle], q, Popped(r.producers[q].pkt));
  }

  lemma StepTallied(r: Ring, s: Step)
    requires Tallied(r)
    ensures Tallied(Apply(r, s))
  {
    UncountedFew(r.producers);
    match s
    case Put(p) =>
      if p < |r.producers| {
        UncountedUpdate(r.producers, p, Full(r.put));
      }
    case PutBlocking(p) =>
      if p < |r.producers| {
        UncountedUpdate(r.producers, p, Sending(r.put));
      }
    case Go(p) =>
      if p < |r.producers| {
        AdvanceTallied(r, p);
      }
    case Get =>
    case Meet(p, q) =>
      if CanMeet(r, p, q) {
        MeetTallied(r, p, q);
      }
    case GetFrom(p) =>
      if p < |r.producers| {
        UncountedUpdate(r.producers, p, Idle);
      }
    case PutTo(p, q) =>
      if CanPutTo(r, p, q) {
        UncountedUpdate(r.producers, q, Popped(r.producers[q].pkt));
      }
    case PutGet(_) =>
  }

  lemma {:induction false} RunTallied(r: Ring, steps: seq<Step>)
    requires Tallied(r)
    ensures Tallied(Run(r, steps))
    decreases |steps|
  {
    if steps != [] {
      StepTallied(r, steps[0]);
      RunTallied(Apply(r, steps[0]), steps[1..]);
    }
  }

  lemma QuietUncounted(ps: seq<Producer>)
    requires |ps| <= 2 && forall i :: 0 <= i < |ps| ==> ps[i].Idle?
    ensures Uncounted(ps) == 0
  {
    UncountedFew(ps);
  }

  lemma TalliedExact(cap: nat, producers: nat, steps: seq<Step>)
    requires Alone(cap, producers)
    ensures
      var r := Run(NewRing(cap, producers), steps);
      Quiet(r) ==> r.counter == |r.dropped|
  {
    UncountedIdle(producers);
    RunTallied(NewRing(cap, producers), steps);
    var r := Run(NewRing(cap, producers), steps);
    if Quiet(r) {
      QuietUncounted(r.producers);
    }
  }

  // ---------------------------------------------------------------- losing a count

  /** `n` producers of which the first two are `a` and `b` and the others outside. */
  function Two(n: nat, a: Producer, b: Producer): (ps: seq<Producer>)
    requires n >= 2
    ensures |ps| == n && ps[0] == a && ps[1] == b && forall i :: 2 <= i < n ==> ps[i] == Idle
  {
    [a, b] + seq(n - 2, _ => Idle)
  }

  /** Two calls that have both dropped a packet and not counted it. */
  predicate BothPopped(r: Ring, n: nat, x: Packet, y: Packet) {
    && n >= 2 && r.producers == Two(n, Popped(x), Popped(y))
    && r.counter == 0 && |r.dropped| == 2
  }

  const RACE := [Go(0), Go(1)] + [Go(0), Go(1)]

  /** Both read the counter before either writes it. */
  lemma RaceLoses(r: Ring, n: nat, x: Packet, y: Packet)
    requires BothPopped(r, n, x, y)
    ensures Run(r, RACE) == r.(counter := 1, producers := Two(n, Sending(x), Sending(y)))
  {
    RunTwo(r, Go(0), Go(1));
    var a := Run(r, [Go(0), Go(1)]);
    assert a.producers == Two(n, Counting(x, 0), Counting(y, 0));
    RunTwo(a, Go(0), Go(1));
    assert Run(a, [Go(0), Go(1)]).producers == Two(n, Sending(x), Sending(y));
    RunAppend(r, [Go(0), Go(1)], [Go(0), Go(1)]);
  }

  lemma {:induction false} Filling(cap: nat, n: nat, k: nat)
    requires n >= 2 && k <= cap
    ensures Run(NewRing(cap, n), seq(k, _ => Put(0)))
         == Ring(cap, Range(0, k), 0, Two(n, Idle, Idle), k, [], [])
  {
    assert seq(n, _ => Idle) == Two(n, Idle, Idle);
    if k > 0 {
      Filling(cap, n, k - 1);
      var puts := seq(k - 1, _ => Put(0));
      assert seq(k, _ => Put(0)) == puts + [Put(0)];
      RunAppend(NewRing(cap, n), puts, [Put(0)]);
      assert Range(0, k) == Range(0, k - 1) + [k - 1];
    }
  }

  /** A full channel: the first producer drops a packet, the second fills the gap and drops one too. */
  lemma FullBothPop(cap: nat, n: nat)
    requires cap >= 1 && n >= 2
    ensures
      var r := Run(NewRing(cap, n), seq(cap, _ => Put(0)) + [Put(0), Go(0)] + [Put(1), Put(1)] + [Go(1)]);
      BothPopped(r, n, cap, cap + 2) && |r.queue| == cap - 1 && r.cap == cap
  {
    var fill, r0 := seq(cap, _ => Put(0)), NewRing(cap, n);
    Filling(cap, n, cap);
    var a := Run(r0, fill);
    RunTwo(a, Put(0), Go(0));
    var b := Run(a, [Put(0), Go(0)]);
    assert b == Ring(cap, Range(0, cap)[1..], 0, Two(n, Popped(cap), Idle), cap + 1, [], [0]);
    RunTwo(b, Put(1), Put(1));
    var c := Run(b, [Put(1), Put(1)]);
    assert c.producers == Two(n, Popped(cap), Full(cap + 2));
    var d := Run(c, [Go(1)]);
    assert d == Apply(c, Go(1));
    assert d.producers == Two(n, Popped(cap), Popped(cap + 2));
    RunAppend(r0, fill, [Put(0), Go(0)]);
    RunAppend(r0, fill + [Put(0), Go(0)], [Put(1), Put(1)]);
    RunAppend(r0, fill + [Put(0), Go(0)] + [Put(1), Put(1)], [Go(1)]);
  }

  /** A consumer makes room and both calls end. */
  lemma FullEnds(r: Ring, n: nat, x: Packet, y: Packet)
    requires n >= 2 && r.producers == Two(n, Sending(x), Sending(y)) && r.cap >= 1 && |r.queue| == r.cap - 1
    ensures
      var r' := Run(r, [Go(0), Get] + [Go(1)]);
      Quiet(r') && r'.counter == r.counter && r'.dropped == r.dropped
  {
    RunTwo(r, Go(0), Get);
    var a := Run(r, [Go(0), Get]);
    assert a.producers == Two(n, Idle, Sending(y));
    assert Run(a, [Go(1)]) == Apply(a, Go(1));
    assert Run(a, [Go(1)]).producers == Two(n, Idle, Idle);
    RunAppend(r, [Go(0), Get], [Go(1)]);
  }

  /** Without a queue it takes a third producer: it sends what the second drops. */
  lemma UnbufferedBothPop(n: nat)
    requires n >= 3
    ensures
      var r := Run(NewRing(0, n), [Put(0), PutBlocking(1)] + [Meet(1, 0), Put(1)] + [PutBlocking(2), Meet(2, 1)]);
      BothPopped(r, n, 0, 2) && r.cap == 0
  {
    var r0 := NewRing(0, n);
    RunTwo(r0, Put(0), PutBlocking(1));
    var a := Run(r0, [Put(0), PutBlocking(1)]);
    assert a.producers == Two(n, Full(0), Sending(1));
    RunTwo(a, Meet(1, 0), Put(1));
    var b := Run(a, [Meet(1, 0), Put(1)]);
    assert b.producers == Two(n, Popped(0), Full(2)) && b.dropped == [1];
    RunTwo(b, PutBlocking(2), Meet(2, 1));
    var c := Run(b, [PutBlocking(2), Meet(2, 1)]);
    assert c.producers == Two(n, Popped(0), Popped(2)) && c.dropped == [1, 3];
    RunAppend(r0, [Put(0), PutBlocking(1)], [Meet(1, 0), Put(1)]);
    RunAppend(r0, [Put(0), PutBlocking(1)] + [Meet(1, 0), Put(1)], [PutBlocking(2), Meet(2, 1)]);
  }

  lemma UnbufferedEnds(r: Ring, n: nat, x: Packet, y: Packet)
    requires n >= 2 && r.producers == Two(n, Sending(x), Sending(y)) && r.cap == 0
    ensures
      var r' := Run(r, [GetFrom(0), GetFrom(1)]);
      Quiet(r') && r'.counter == r.counter && r'.dropped == r.dropped
  {
    RunTwo(r, GetFrom(0), GetFrom(1));
    assert Run(r, [GetFrom(0), GetFrom(1)]).producers == Two(n, Idle, Idle);
  }

  /** A run that ends quietly with two drops and a count of one, wherever two calls can be counting at once. */
  lemma CountLost(cap: nat, n: nat) returns (steps: seq<Step>)
    requires !Alone(cap, n)
    ensures
      var r := Run(NewRing(cap, n), steps);
      Quiet(r) && |r.dropped| == 2 && r.counter == 1
  {
    var r0 := NewRing(cap, n);
    var start: seq<Step>, end: seq<Step>;
    if cap >= 1 {
      start, end := seq(cap, _ => Put(0)) + [Put(0), Go(0)] + [Put(1), Put(1)] + [Go(1)], [Go(0), Get] + [Go(1)];
      FullBothPop(cap, n);
      RaceLoses(Run(r0, start), n, cap, cap + 2);
      FullEnds(Run(Run(r0, start), RACE), n, cap, cap + 2);
    } else {
      start := [Put(0), PutBlocking(1)] + [Meet(1, 0), Put(1)] + [PutBlocking(2), Meet(2, 1)];
      end := [GetFrom(0), GetFrom(1)];
      UnbufferedBothPop(n);
      RaceLoses(Run(r0, start), n, 0, 2);
      UnbufferedEnds(Run(Run(r0, start), RACE), n, 0, 2);
    }
    RunAppend(r0, start, RACE);
    RunAppend(r0, start + RACE, end);
    steps := start + RACE + end;
  }

  /** Dropped() is the number of packets dropped, whenever no producer is inside a call, in every run if and only if
      there is one producer at most, or two and no queue. */
  lemma CountExactIff(cap: nat, n: nat)
    ensures (forall steps :: Quiet(Run(NewRing(cap, n), steps)) ==>
               Run(NewRing(cap, n), steps).counter == |Run(NewRing(cap, n), steps).dropped|)
       <==> Alone(cap, n)
  {
    if Alone(cap, n) {
      forall steps
        ensures Quiet(Run(NewRing(cap, n), steps)) ==>
                  Run(NewRing(cap, n), steps).counter == |Run(NewRing(cap, n), steps).dropped|
      {
        TalliedExact(cap, n, steps);
      }
    } else {
      var steps := CountLost(cap, n);
    }
  }

  lemma {:induction false} RunAppend(r: Ring, a: seq<Step>, b: seq<Step>)
    ensures Run(r, a + b) == Run(Run(r, a), b)
    decreases |a|
  {
    if a == [] {
      assert a + b == b;
    } else {
      assert (a + b)[1..] == a[1..] + b;
      RunAppend(Apply(r, a[0]), a[1..], b);
    }
  }

  lemma RunTwo(r: Ring, s: Step, t: Step)
    ensures Run(r, [s, t]) == Apply(Apply(r, s), t)
  {
    assert [s, t][1..] == [t] && [t][1..] == [];
    assert Run(r, [s, t]) == Run(Apply(r, s), [t]) == Run(Apply(Apply(r, s), t), []);
  }

  // ---------------------------------------------------------------- calls that nobody interrupts

  /** The channel as one goroutine sees it. */
  class Channel {
    const cap: nat
    var ch: seq<Packet>
    var dropped: nat

    ghost predicate Valid()
      reads this
    {
      |ch| <= cap
    }

    constructor (capacity: nat)
      ensures Valid() && cap == capacity && ch == [] && dropped == 0
    {
      cap, ch, dropped := capacity, [], 0;
    }

    /** The newest `cap` packets are kept.  Without a queue a packet goes to a consumer that waits, if there is one, and
        otherwise the call waits for a packet to drop. */
    method Put(pkt: Packet, waiting: bool) returns (blocked: bool, handed: bool)
      requires Valid() && (waiting ==> ch == [])
      modifies this
      ensures Valid() && (blocked <==> cap == 0 && !waiting) && (handed <==> waiting)
      ensures blocked || handed ==> ch == old(ch) && dropped == old(dropped)
      ensures !blocked && !handed ==> var all := old(ch) + [pkt]; ch == if |all| <= cap then all else all[1..]
      ensures !blocked && !handed ==> dropped == old(dropped) + |old(ch)| + 1 - |ch|
    {
      blocked, handed := false, waiting;
      if waiting {
        return;
      }
      if |ch| < cap {
        ch := ch + [pkt];
      } else if ch == [] {
        blocked := true;
      } else {
        ch := ch[1..];
        dropped := dropped + 1;
        ch := ch + [pkt];
      }
    }

    /** The oldest packet; None is a call that waits. */
    method Get() returns (pkt: Option<Packet>)
      requires Valid()
      modifies this`ch
      ensures Valid() && (pkt.None? <==> old(ch) == [])
      ensures old(ch) == if pkt.Some? then [pkt.value] + ch else ch
    {
      if ch == [] {
        return None;
      }
      pkt := Some(ch[0]);
      ch := ch[1..];
    }
  }

  const SOLO := [Put(0), Go(0)] + [Go(0), Go(0)] + [Go(0)]

  lemma RunSolo(r: Ring)
    ensures Run(r, SOLO) == Apply(Apply(Apply(Apply(Apply(r, Put(0)), Go(0)), Go(0)), Go(0)), Go(0))
  {
    var a := Apply(Apply(r, Put(0)), Go(0));
    var b := Apply(Apply(a, Go(0)), Go(0));
    RunTwo(r, Put(0), Go(0));
    RunTwo(a, Go(0), Go(0));
    assert [Go(0)][1..] == [];
    assert Run(b, [Go(0)]) == Apply(b, Go(0));
    RunAppend(r, [Put(0), Go(0)], [Go(0), Go(0)]);
    RunAppend(r, [Put(0), Go(0)] + [Go(0), Go(0)], [Go(0)]);
  }

  /** Five uninterrupted steps of the one producer have the effect of the call. */
  lemma SoloPut(r: Ring)
    requires |r.producers| == 1 && r.producers[0] == Idle && r.cap >= 1 && |r.queue| <= r.cap
    ensures
      var r' := Run(r, SOLO);
      var all := r.queue + [r.put];
      && r'.producers == [Idle]
      && r'.queue == (if |all| <= r.cap then all else all[1..])
      && r'.counter == r.counter + |r.queue| + 1 - |r'.queue|
  {
    RunSolo(r);
    if |r.queue| == r.cap {
      var a := Apply(Apply(r, Put(0)), Go(0));
      assert a.producers == [Popped(r.put)] && a.queue == r.queue[1..];
      var b := Apply(Apply(a, Go(0)), Go(0));
      assert b.producers == [Sending(r.put)] && b.queue == r.queue[1..] && b.counter == r.counter + 1;
    }
  }
}
