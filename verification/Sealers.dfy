/** Goroutines that seal with one handshake.  MakeMessage takes no lock: it loads the counter, stores it one higher,
    and loads it again for the nonce.  The lower and the upper send routine interleave these steps in every way. */
module Sealers {
  import opened Bytes
  import opened Crypto
  import opened Handshake

  /** Where a goroutine is: outside MakeMessage, past the load of the increment, or past its store. */
  datatype Sealer = Idle | Loaded(payload: Term, seen: nat) | Stored(payload: Term)

  /** `counters` and `payloads` are what went into the messages, in the order in which they are sealed. */
  datatype Sealing = Sealing(hs: Hs, sealers: seq<Sealer>, counters: seq<nat>, payloads: seq<Term>) {
    /** The messages: the header's eight bytes and the box. */
    function Sent(): (ms: seq<(seq<byte>, Term)>)
      requires hs.send.Some? && |payloads| == |counters|
      ensures |ms| == |counters|
    {
      seq(|counters|, k requires 0 <= k < |counters| => Message(hs, counters[k], payloads[k]))
    }
  }

  /** Goroutine `g` begins a call, or makes the next step of the one it is in. */
  datatype Step = Begin(g: nat, payload: Term) | Go(g: nat)

  function Start(hs: Hs, n: nat): Sealing {
    Sealing(hs, seq(n, _ => Idle), [], [])
  }

  /** A message of the session with that counter. */
  function Message(hs: Hs, counter: nat, payload: Term): (seq<byte>, Term)
    requires hs.send.Some?
  {
    (BigEndian(counter, 8), Box(hs.send.value, MessageNonce(counter), payload, NOTHING))
  }

  function Apply(s: Sealing, step: Step): Sealing {
    if s.hs.send.None? || step.g >= |s.sealers| then s else
    match (step, s.sealers[step.g])
    case (Begin(g, payload), Idle) => s.(sealers := s.sealers[g := Loaded(payload, s.hs.sendNonce)])
    case (Go(g), Loaded(payload, seen)) =>
      s.(hs := s.hs.(sendNonce := NextCounter(seen)), sealers := s.sealers[g := Stored(payload)])
    case (Go(g), Stored(payload)) =>
      s.(sealers := s.sealers[g := Idle], counters := s.counters + [s.hs.sendNonce],
         payloads := s.payloads + [payload])
    case _ => s
  }

  function Run(s: Sealing, steps: seq<Step>): Sealing
    decreases |steps|
  {
    if steps == [] then s else Run(Apply(s, steps[0]), steps[1..])
  }

  /** No step changes the key, and each message has its counter and its payload. */
  lemma {:induction false} RunKeeps(s: Sealing, steps: seq<Step>)
    requires |s.payloads| == |s.counters|
    ensures
      var s' := Run(s, steps);
      |s'.payloads| == |s'.counters| && s'.hs == s.hs.(sendNonce := s'.hs.sendNonce)
    decreases |steps|
  {
    if steps != [] {
      RunKeeps(Apply(s, steps[0]), steps[1..]);
    }
  }

  /** All messages of a run. */
  function SentBy(hs: Hs, n: nat, steps: seq<Step>): seq<(seq<byte>, Term)>
    requires hs.send.Some?
  {
    RunKeeps(Start(hs, n), steps);
    Run(Start(hs, n), steps).Sent()
  }

  /** No two messages have the same nonce. */
  ghost predicate Distinct(sent: seq<(seq<byte>, Term)>) {
    forall j, k :: 0 <= j < k < |sent| ==> sent[j].0 != sent[k].0
  }

  // ---------------------------------------------------------------- one goroutine

  /** The counter after `k` messages. */
  function CountOf(n: nat, k: nat): nat {
    if k == 0 then n else CounterAfter(n, k - 1)
  }

  lemma {:induction false} CountNext(n: nat, k: nat)
    ensures NextCounter(CountOf(n, k)) == CounterAfter(n, k)
    decreases k
  {
    if k > 1 {
      CountNext(NextCounter(n), k - 1);
    }
  }

  /** Where the counter is after `k` messages, with one goroutine or none. */
  predicate CounterOk(n: nat, k: nat, counter: nat, sealers: seq<Sealer>) {
    if sealers == [] || sealers[0].Idle? then counter == CountOf(n, k)
    else if sealers[0].Loaded? then counter == sealers[0].seen == CountOf(n, k)
    else counter == CounterAfter(n, k)
  }

  /** With one goroutine at most, the counters so far are those of as many calls one after the other. */
  ghost predicate InTurn(n: nat, s: Sealing) {
    && |s.sealers| <= 1
    && (forall k :: 0 <= k < |s.counters| ==> s.counters[k] == CounterAfter(n, k))
    && CounterOk(n, |s.counters|, s.hs.sendNonce, s.sealers)
  }

  lemma StepInTurn(n: nat, s: Sealing, step: Step)
    requires InTurn(n, s)
    ensures InTurn(n, Apply(s, step))
  {
    CountNext(n, |s.counters|);
  }

  lemma {:induction false} RunInTurn(n: nat, s: Sealing, steps: seq<Step>)
    requires InTurn(n, s)
    ensures InTurn(n, Run(s, steps))
    decreases |steps|
  {
    if steps != [] {
      StepInTurn(n, s, steps[0]);
      RunInTurn(n, Apply(s, steps[0]), steps[1..]);
    }
  }

  /** One goroutine's steps amount to whole calls: the messages are those that MakeMessage gives for the payloads. */
  lemma OneSealerIsSequential(hs: Hs, n: nat, steps: seq<Step>)
    requires hs.send.Some? && n <= 1
    ensures SentBy(hs, n, steps) == Messages(hs, Run(Start(hs, n), steps).payloads)
  {
    RunInTurn(hs.sendNonce, Start(hs, n), steps);
    RunKeeps(Start(hs, n), steps);
    var s := Run(Start(hs, n), steps);
    forall k | 0 <= k < |s.counters|
      ensures s.Sent()[k] == Messages(hs, s.payloads)[k]
    {
      MessageAt(hs, s.payloads, k);
    }
  }

  lemma OneSealerDistinct(hs: Hs, n: nat, steps: seq<Step>)
    requires hs.send.Some? && n <= 1
    ensures Distinct(SentBy(hs, n, steps)) <==> |SentBy(hs, n, steps)| <= TWO_64
  {
    OneSealerIsSequential(hs, n, steps);
    NoncesDistinctIff(hs, Run(Start(hs, n), steps).payloads);
  }

  // ---------------------------------------------------------------- two goroutines

  lemma {:induction false} RunAppend(s: Sealing, a: seq<Step>, b: seq<Step>)
    ensures Run(s, a + b) == Run(Run(s, a), b)
    decreases |a|
  {
    if a == [] {
      assert a + b == b;
    } else {
      assert (a + b)[1..] == a[1..] + b;
      RunAppend(Apply(s, a[0]), a[1..], b);
    }
  }

  lemma RunTwo(s: Sealing, a: Step, b: Step)
    ensures Run(s, [a, b]) == Apply(Apply(s, a), b)
  {
    assert [a, b][1..] == [b] && [b][1..] == [];
    assert Run(s, [a, b]) == Run(Apply(s, a), [b]) == Run(Apply(Apply(s, a), b), []);
  }

  /** Load, load, store, store, and a nonce each. */
  function Race(p: Term, q: Term): seq<Step> {
    [Begin(0, p), Begin(1, q)] + [Go(0), Go(1)] + [Go(0), Go(1)]
  }

  lemma RaceRuns(hs: Hs, n: nat, p: Term, q: Term)
    requires hs.send.Some? && n >= 2
    ensures
      var s, c := Run(Start(hs, n), Race(p, q)), NextCounter(hs.sendNonce);
      s.counters == [c, c] && s.payloads == [p, q]
  {
    var s, c := Start(hs, n), NextCounter(hs.sendNonce);
    RunTwo(s, Begin(0, p), Begin(1, q));
    var a := Run(s, [Begin(0, p), Begin(1, q)]);
    assert a.sealers[0] == Loaded(p, hs.sendNonce) && a.sealers[1] == Loaded(q, hs.sendNonce) && a.hs == hs;
    RunTwo(a, Go(0), Go(1));
    var b := Run(a, [Go(0), Go(1)]);
    assert b.sealers[0] == Stored(p) && b.sealers[1] == Stored(q) && b.hs == hs.(sendNonce := c);
    RunTwo(b, Go(0), Go(1));
    RunAppend(s, [Begin(0, p), Begin(1, q)], [Go(0), Go(1)]);
    RunAppend(s, [Begin(0, p), Begin(1, q)] + [Go(0), Go(1)], [Go(0), Go(1)]);
  }

  /** With two goroutines the first two messages can have the same nonce under the same key, whatever is in them. */
  lemma TwoSealersRepeat(hs: Hs, n: nat, p: Term, q: Term)
    requires hs.send.Some? && n >= 2
    ensures
      var c := NextCounter(hs.sendNonce);
      SentBy(hs, n, Race(p, q)) == [Message(hs, c, p), Message(hs, c, q)]
  {
    RaceRuns(hs, n, p, q);
    RunKeeps(Start(hs, n), Race(p, q));
  }

  /** Nonces are pairwise distinct in every run of at most 2^64 messages if and only if at most one goroutine seals
      with the handshake. */
  lemma DistinctIffOneSealer(hs: Hs, n: nat)
    requires hs.send.Some?
    ensures (forall steps :: |SentBy(hs, n, steps)| <= TWO_64 ==> Distinct(SentBy(hs, n, steps))) <==> n <= 1
  {
    if n <= 1 {
      forall steps
        ensures |SentBy(hs, n, steps)| <= TWO_64 ==> Distinct(SentBy(hs, n, steps))
      {
        OneSealerDistinct(hs, n, steps);
      }
    } else {
      TwoSealersRepeat(hs, n, NOTHING, NOTHING);
      var sent := SentBy(hs, n, Race(NOTHING, NOTHING));
      assert sent[0].0 == sent[1].0;
    }
  }
}
