/** The IKpsk2 handshake and the messages sealed after it. */
module Handshake {
  import opened Bytes
  import opened Crypto
  import opened Kdf

  const NOISE_CONSTRUCTION := Name("Noise_IKpsk2_25519_ChaChaPoly_BLAKE2s")
  const ROVY_IDENTIFIER := Name("rovy.net/session v0")
  const NOTHING := Text([])

  const INITIAL_CHAIN_KEY := Hash(NOTHING, NOISE_CONSTRUCTION)
  const INITIAL_HASH := Hash(INITIAL_CHAIN_KEY, ROVY_IDENTIFIER)

  const ZERO_NONCE: seq<byte> := [0, 0, 0, 0, 0, 0, 0, 0, 0, 0, 0, 0]
  const PAYLOAD_NONCE: seq<byte> := [0, 0, 0, 0, 0x42, 0, 0, 0, 0, 0, 0, 0]

  const TWO_64: nat := 0x1_0000_0000_0000_0000

  datatype HelloHeader = HelloHeader(ephemeral: PublicKey, sealedStatic: Term, timestamp: Term)
  datatype ResponseHeader = ResponseHeader(ephemeral: PublicKey, empty: Term)

  datatype HsError = WrongRole | ZeroECDH | OpenFailed | NotFinished
  datatype Result<+T> = Ok(value: T) | Err(error: HsError)

  /** The fields of a Handshake. */
  datatype Hs = Hs(
    hash: Term,
    chainKey: Term,
    psk: Term,
    localStatic: nat,
    localEphemeral: nat,
    remoteStatic: PublicKey,
    remoteEphemeral: PublicKey,
    staticStatic: Term,
    send: Option<Term>,
    receive: Option<Term>,
    sendNonce: nat,
    initiator: bool)

  function Fresh(localStatic: nat, localEphemeral: nat, remote: PublicKey, ss: Term, initiator: bool): Hs {
    Hs(INITIAL_HASH, INITIAL_CHAIN_KEY, Blank, localStatic, localEphemeral, remote, ZERO_KEY, ss,
       None, None, 0, initiator)
  }

  function NewInitiator(localStatic: nat, remote: PublicKey, ephemeral: nat): Result<Hs> {
    var ss := SharedSecret(localStatic, remote);
    if ss == Blank then Err(ZeroECDH) else Ok(Fresh(localStatic, ephemeral, remote, ss, true))
  }

  function NewResponder(localStatic: nat, ephemeral: nat): Hs {
    Fresh(localStatic, ephemeral, ZERO_KEY, Blank, false)
  }

  datatype Seals = Seals(hash: Term, chainKey: Term, sealedStatic: Term, stamp: Term, sealed: Term)

  /** The three boxes of a hello, from the transcript and the chain key before them and the two shared secrets. */
  function HelloSeals(h: Term, c: Term, es: Term, ss: Term, me: nat, timestamp: Term, payload: Term): Seals {
    var c2 := Hkdf(c, es, 1);
    var sealedStatic := Box(Hkdf(c, es, 2), ZERO_NONCE, Key(Point(me)), h);
    var h2 := Hash(h, sealedStatic);
    var key := Hkdf(c2, ss, 2);
    var stamp := Box(key, ZERO_NONCE, timestamp, h2);
    var h3 := Hash(h2, stamp);
    var sealed := Box(key, PAYLOAD_NONCE, payload, h3);
    Seals(Hash(h3, sealed), Hkdf(c2, ss, 1), sealedStatic, stamp, sealed)
  }

  /** The new fields, and the header with the sealed payload.  A zero secret is noticed after the transcript and
      the chain key have been written. */
  function MakeHello(hs: Hs, timestamp: Term, payload: Term): (Hs, Result<(HelloHeader, Term)>) {
    if !hs.initiator then (hs, Err(WrongRole)) else
    var eph := Point(hs.localEphemeral);
    var h1 := Hash(Hash(hs.hash, Key(hs.remoteStatic)), Key(eph));
    var c1 := Hkdf(hs.chainKey, Key(eph), 1);
    var es := SharedSecret(hs.localEphemeral, hs.remoteStatic);
    if es == Blank then (hs.(hash := h1, chainKey := c1), Err(ZeroECDH)) else
    var s := HelloSeals(h1, c1, es, hs.staticStatic, hs.localStatic, timestamp, payload);
    (hs.(hash := s.hash, chainKey := s.chainKey), Ok((HelloHeader(eph, s.sealedStatic, s.stamp), s.sealed)))
  }

  /** What an accepted hello yields. */
  datatype Opening = Opening(hash: Term, chainKey: Term, remote: PublicKey, ss: Term, payload: Term)

  /** The checks on a hello, on copies of the transcript and the chain key. */
  function OpenHello(me: nat, hdr: HelloHeader, sealed: Term): Result<Opening> {
    var h1 := Hash(Hash(INITIAL_HASH, Key(Point(me))), Key(hdr.ephemeral));
    var c1 := Hkdf(INITIAL_CHAIN_KEY, Key(hdr.ephemeral), 1);
    var es := SharedSecret(me, hdr.ephemeral);
    if es == Blank then Err(ZeroECDH) else
    var remoteKey := Open(Hkdf(c1, es, 2), ZERO_NONCE, hdr.sealedStatic, h1);
    if remoteKey.None? || !remoteKey.value.Key? then Err(OpenFailed) else
    var h2 := Hash(h1, hdr.sealedStatic);
    var ss := SharedSecret(me, remoteKey.value.pub);
    if ss == Blank then Err(ZeroECDH) else
    var c2 := Hkdf(c1, es, 1);
    var key := Hkdf(c2, ss, 2);
    if Open(key, ZERO_NONCE, hdr.timestamp, h2).None? then Err(OpenFailed) else
    var h3 := Hash(h2, hdr.timestamp);
    var payload := Open(key, PAYLOAD_NONCE, sealed, h3);
    if payload.None? then Err(OpenFailed) else
    Ok(Opening(Hash(h3, sealed), Hkdf(c2, ss, 1), remoteKey.value.pub, ss, payload.value))
  }

  /** Nothing is written unless all three boxes open. */
  function ConsumeHello(hs: Hs, hdr: HelloHeader, sealed: Term): (Hs, Result<Term>) {
    if hs.initiator then (hs, Err(WrongRole)) else
    match OpenHello(hs.localStatic, hdr, sealed)
    case Err(e) => (hs, Err(e))
    case Ok(o) =>
      (hs.(hash := o.hash, chainKey := o.chainKey, remoteStatic := o.remote,
           remoteEphemeral := hdr.ephemeral, staticStatic := o.ss),
       Ok(o.payload))
  }

  datatype Secrets = Secrets(chainKey: Term, tau: Term, key: Term)

  /** The derivations both sides make for a response: its ephemeral key, two shared secrets, the preshared key. */
  function ResponseSecrets(c: Term, eph: PublicKey, ee: Term, se: Term, psk: Term): Secrets {
    var c3 := Hkdf(Hkdf(Hkdf(c, Key(eph), 1), ee, 1), se, 1);
    Secrets(Hkdf(c3, psk, 1), Hkdf(c3, psk, 2), Hkdf(c3, psk, 3))
  }

  function MakeResponse(hs: Hs, payload: Term): (Hs, Result<(ResponseHeader, Term)>) {
    if hs.initiator then (hs, Err(WrongRole)) else
    var eph := Point(hs.localEphemeral);
    var s := ResponseSecrets(hs.chainKey, eph, SharedSecret(hs.localEphemeral, hs.remoteEphemeral),
                             SharedSecret(hs.localEphemeral, hs.remoteStatic), hs.psk);
    var h2 := Hash(Hash(hs.hash, Key(eph)), s.tau);
    var empty := Box(s.key, ZERO_NONCE, NOTHING, h2);
    var h3 := Hash(h2, empty);
    var sealed := Box(s.key, PAYLOAD_NONCE, payload, h3);
    (hs.(hash := Hash(h3, sealed), chainKey := s.chainKey,
         send := Some(Hkdf(s.chainKey, NOTHING, 2)), receive := Some(Hkdf(s.chainKey, NOTHING, 1))),
     Ok((ResponseHeader(eph, empty), sealed)))
  }

  /** The checks on a response, on copies: the new transcript, the new chain key and the payload. */
  function OpenResponse(hs: Hs, hdr: ResponseHeader, sealed: Term): Result<(Term, Term, Term)> {
    var s := ResponseSecrets(hs.chainKey, hdr.ephemeral, SharedSecret(hs.localEphemeral, hdr.ephemeral),
                             SharedSecret(hs.localStatic, hdr.ephemeral), hs.psk);
    var h2 := Hash(Hash(hs.hash, Key(hdr.ephemeral)), s.tau);
    if Open(s.key, ZERO_NONCE, hdr.empty, h2).None? then Err(OpenFailed) else
    var h3 := Hash(h2, hdr.empty);
    var payload := Open(s.key, PAYLOAD_NONCE, sealed, h3);
    if payload.None? then Err(OpenFailed) else
    Ok((Hash(h3, sealed), s.chainKey, payload.value))
  }

  function ConsumeResponse(hs: Hs, hdr: ResponseHeader, sealed: Term): (Hs, Result<Term>) {
    if !hs.initiator then (hs, Err(WrongRole)) else
    match OpenResponse(hs, hdr, sealed)
    case Err(e) => (hs, Err(e))
    case Ok((hash, chainKey, payload)) =>
      (hs.(hash := hash, chainKey := chainKey,
           send := Some(Hkdf(chainKey, NOTHING, 1)), receive := Some(Hkdf(chainKey, NOTHING, 2))),
       Ok(payload))
  }

  /** Four zero bytes and the counter. */
  function MessageNonce(counter: nat): seq<byte> {
    [0, 0, 0, 0] + BigEndian(counter, 8)
  }

  /** The counter is a uint64. */
  function NextCounter(n: nat): nat {
    (n + 1) % TWO_64
  }

  /** The header carries the counter's eight bytes. */
  function MakeMessage(hs: Hs, payload: Term): (Hs, Result<(seq<byte>, Term)>) {
    if hs.send.None? then (hs, Err(NotFinished)) else
    var n := NextCounter(hs.sendNonce);
    (hs.(sendNonce := n), Ok((BigEndian(n, 8), Box(hs.send.value, MessageNonce(n), payload, NOTHING))))
  }

  function ConsumeMessage(hs: Hs, nonce: seq<byte>, sealed: Term): Result<Term> {
    if hs.receive.None? then Err(NotFinished) else
    var payload := Open(hs.receive.value, [0, 0, 0, 0] + nonce, sealed, NOTHING);
    if payload.None? then Err(OpenFailed) else Ok(payload.value)
  }

  /** Who may do what: the four handshake calls are for one role each, and messages for those who have keys. */
  lemma RolesIff(hs: Hs, timestamp: Term, payload: Term, hello: HelloHeader, resp: ResponseHeader, sealed: Term,
                 nonce: seq<byte>)
    ensures MakeHello(hs, timestamp, payload).1 == Err(WrongRole) <==> !hs.initiator
    ensures MakeHello(hs, timestamp, payload).1.Ok? <==> hs.initiator && hs.remoteStatic.Point?
    ensures ConsumeHello(hs, hello, sealed).1 == Err(WrongRole) <==> hs.initiator
    ensures MakeResponse(hs, payload).1.Ok? <==> !hs.initiator
    ensures ConsumeResponse(hs, resp, sealed).1 == Err(WrongRole) <==> !hs.initiator
    ensures MakeMessage(hs, payload).1.Ok? <==> hs.send.Some?
    ensures ConsumeMessage(hs, nonce, sealed) == Err(NotFinished) <==> hs.receive.None?
  {
  }

  // ---------------------------------------------------------------- completeness

  /** Two sides of one session. */
  ghost predicate Mirrored(i: Hs, r: Hs) {
    && i.hash == r.hash && i.chainKey == r.chainKey
    && i.send.Some? && i.receive.Some? && i.send == r.receive && i.receive == r.send
    && i.remoteStatic == Point(r.localStatic) && r.remoteStatic == Point(i.localStatic)
  }

  /** Where a responder stands once it has accepted an initiator's hello. */
  ghost predicate InStep(i: Hs, r: Hs) {
    && i.initiator && !r.initiator
    && i.hash == r.hash && i.chainKey == r.chainKey && i.psk == r.psk
    && i.remoteStatic == Point(r.localStatic) && r.remoteStatic == Point(i.localStatic)
    && r.remoteEphemeral == Point(i.localEphemeral)
  }

  lemma HonestHello(a: nat, b: nat, ea: nat, eb: nat, timestamp: Term, payload: Term)
    ensures NewInitiator(a, Point(b), ea).Ok?
    ensures
      var (i, hello) := MakeHello(NewInitiator(a, Point(b), ea).value, timestamp, payload);
      hello.Ok? &&
      var (r, got) := ConsumeHello(NewResponder(b, eb), hello.value.0, hello.value.1);
      got == Ok(payload) && InStep(i, r)
  {
    SharedSecretAgrees(a, b, ZERO_KEY);
    SharedSecretAgrees(ea, b, ZERO_KEY);
    var (i, hello) := MakeHello(NewInitiator(a, Point(b), ea).value, timestamp, payload);
    assert OpenHello(b, hello.value.0, hello.value.1)
        == Ok(Opening(i.hash, i.chainKey, Point(a), SharedSecret(a, Point(b)), payload));
  }

  lemma HonestResponse(i: Hs, r: Hs, payload: Term)
    requires InStep(i, r)
    ensures
      var (r', resp) := MakeResponse(r, payload);
      resp.Ok? &&
      var (i', got) := ConsumeResponse(i, resp.value.0, resp.value.1);
      got == Ok(payload) && Mirrored(i', r')
  {
    SharedSecretAgrees(i.localEphemeral, r.localEphemeral, ZERO_KEY);
    SharedSecretAgrees(i.localStatic, r.localEphemeral, ZERO_KEY);
  }

  /** An honest exchange is accepted on both sides, hands over both payloads and leaves mirrored keys. */
  lemma HonestExchange(a: nat, b: nat, ea: nat, eb: nat, timestamp: Term, p1: Term, p2: Term)
    ensures NewInitiator(a, Point(b), ea).Ok?
    ensures
      var (i, hello) := MakeHello(NewInitiator(a, Point(b), ea).value, timestamp, p1);
      hello.Ok? &&
      var (r, got1) := ConsumeHello(NewResponder(b, eb), hello.value.0, hello.value.1);
      var (r', resp) := MakeResponse(r, p2);
      resp.Ok? &&
      var (i', got2) := ConsumeResponse(i, resp.value.0, resp.value.1);
      got1 == Ok(p1) && got2 == Ok(p2) && Mirrored(i', r')
  {
    HonestHello(a, b, ea, eb, timestamp, p1);
    var (i, hello) := MakeHello(NewInitiator(a, Point(b), ea).value, timestamp, p1);
    HonestResponse(i, ConsumeHello(NewResponder(b, eb), hello.value.0, hello.value.1).0, p2);
  }

  // ---------------------------------------------------------------- messages

  /** The counter of the k-th message from now. */
  function CounterAfter(n: nat, k: nat): nat
    decreases k
  {
    if k == 0 then NextCounter(n) else CounterAfter(NextCounter(n), k - 1)
  }

  /** A session's messages: payload k is sealed by the k-th call. */
  function Messages(hs: Hs, payloads: seq<Term>): (ms: seq<(seq<byte>, Term)>)
    requires hs.send.Some?
    ensures |ms| == |payloads|
    decreases |payloads|
  {
    if payloads == [] then [] else
      var (hs', m) := MakeMessage(hs, payloads[0]);
      [m.value] + Messages(hs', payloads[1..])
  }

  lemma RemainderUnique(x: nat, q: int, r: int)
    requires x == TWO_64 * q + r && 0 <= r < TWO_64
    ensures x % TWO_64 == r
  {
  }

  lemma RemainderAdd(x: nat, k: nat)
    ensures (x % TWO_64 + k) % TWO_64 == (x + k) % TWO_64
  {
    var q, y := x / TWO_64, x % TWO_64 + k;
    RemainderUnique(x + k, q + y / TWO_64, y % TWO_64);
  }

  lemma {:induction false} CounterClosed(n: nat, k: nat)
    ensures CounterAfter(n, k) == (n + 1 + k) % TWO_64
    decreases k
  {
    if k > 0 {
      CounterClosed(NextCounter(n), k - 1);
      RemainderAdd(n + 1, k);
    }
  }

  lemma {:induction false} MessageAt(hs: Hs, payloads: seq<Term>, k: nat)
    requires hs.send.Some? && k < |payloads|
    ensures
      var n := CounterAfter(hs.sendNonce, k);
      Messages(hs, payloads)[k] == (BigEndian(n, 8), Box(hs.send.value, MessageNonce(n), payloads[k], NOTHING))
    decreases |payloads|
  {
    if k > 0 {
      MessageAt(MakeMessage(hs, payloads[0]).0, payloads[1..], k - 1);
      assert payloads[1..][k - 1] == payloads[k];
    }
  }

  lemma CounterReadsBack(n: nat)
    requires n < TWO_64
    ensures FromBigEndian(BigEndian(n, 8)) == n
  {
    EightBytes();
    BigEndianReadsBack(n, 8);
  }

  /** Remainders come round after 2^64 steps and not before. */
  lemma RemaindersDiffer(x: nat, d: nat)
    requires 0 < d <= TWO_64
    ensures x % TWO_64 == (x + d) % TWO_64 <==> d == TWO_64
  {
    var q, r := x / TWO_64, x % TWO_64;
    if r + d < TWO_64 {
      RemainderUnique(x + d, q, r + d);
    } else {
      RemainderUnique(x + d, q + 1, r + d - TWO_64);
    }
  }

  lemma CountersRecur(n: nat, j: nat, k: nat)
    requires j < k <= j + TWO_64
    ensures CounterAfter(n, j) < TWO_64 && CounterAfter(n, k) < TWO_64
    ensures CounterAfter(n, j) == CounterAfter(n, k) <==> k == j + TWO_64
  {
    CounterClosed(n, j);
    CounterClosed(n, k);
    RemaindersDiffer(n + 1 + j, k - j);
  }

  lemma CountersDiffer(n: nat, j: nat, k: nat)
    requires j < k <= j + TWO_64
    ensures BigEndian(CounterAfter(n, j), 8) == BigEndian(CounterAfter(n, k), 8) <==> k == j + TWO_64
  {
    CountersRecur(n, j, k);
    CounterReadsBack(CounterAfter(n, j));
    CounterReadsBack(CounterAfter(n, k));
  }

  /** Two messages of one session carry the same nonce only when they are a multiple of 2^64 calls apart, so the
      nonces of a run are pairwise distinct exactly when the run is at most 2^64 long. */
  lemma NoncesDistinctIff(hs: Hs, payloads: seq<Term>)
    requires hs.send.Some?
    ensures (forall j, k :: 0 <= j < k < |payloads| ==> Messages(hs, payloads)[j].0 != Messages(hs, payloads)[k].0)
       <==> |payloads| <= TWO_64
  {
    var ms := Messages(hs, payloads);
    if |payloads| > TWO_64 {
      MessageAt(hs, payloads, 0);
      MessageAt(hs, payloads, TWO_64);
      CountersDiffer(hs.sendNonce, 0, TWO_64);
      assert ms[0].0 == ms[TWO_64].0;
    } else {
      forall j, k | 0 <= j < k < |payloads|
        ensures ms[j].0 != ms[k].0
      {
        MessageAt(hs, payloads, j);
        MessageAt(hs, payloads, k);
        CountersDiffer(hs.sendNonce, j, k);
      }
    }
  }

  /** Delivered in any order and any number of times, each message opens to its own payload. */
  lemma AnyOrderOpens(s: Hs, r: Hs, payloads: seq<Term>, order: seq<nat>)
    requires s.send.Some? && r.receive == s.send
    requires forall i :: 0 <= i < |order| ==> order[i] < |payloads|
    ensures forall i :: 0 <= i < |order| ==>
      var m := Messages(s, payloads)[order[i]];
      ConsumeMessage(r, m.0, m.1) == Ok(payloads[order[i]])
  {
    forall i | 0 <= i < |order|
      ensures
        var m := Messages(s, payloads)[order[i]];
        ConsumeMessage(r, m.0, m.1) == Ok(payloads[order[i]])
    {
      MessageAt(s, payloads, order[i]);
    }
  }

  // ---------------------------------------------------------------- agreement

  /** Everything an initiator put in and got back. */
  datatype InitiatorRun = InitiatorRun(
    me: nat, peer: PublicKey, ephemeral: nat, timestamp: Term, payload: Term, resp: ResponseHeader, respSealed: Term)

  /** Everything a responder got and put in. */
  datatype ResponderRun = ResponderRun(
    me: nat, ephemeral: nat, hello: HelloHeader, helloSealed: Term, payload: Term)

  ghost predicate Greeted(i: InitiatorRun) {
    && NewInitiator(i.me, i.peer, i.ephemeral).Ok?
    && MakeHello(NewInitiator(i.me, i.peer, i.ephemeral).value, i.timestamp, i.payload).1.Ok?
  }

  ghost function Greeting(i: InitiatorRun): (Hs, Result<(HelloHeader, Term)>)
    requires Greeted(i)
  {
    MakeHello(NewInitiator(i.me, i.peer, i.ephemeral).value, i.timestamp, i.payload)
  }

  ghost predicate Finished(i: InitiatorRun) {
    Greeted(i) && ConsumeResponse(Greeting(i).0, i.resp, i.respSealed).1.Ok?
  }

  ghost function InitiatorEnd(i: InitiatorRun): Hs
    requires Finished(i)
  {
    ConsumeResponse(Greeting(i).0, i.resp, i.respSealed).0
  }

  ghost predicate Answered(r: ResponderRun) {
    ConsumeHello(NewResponder(r.me, r.ephemeral), r.hello, r.helloSealed).1.Ok?
  }

  ghost function Answer(r: ResponderRun): (Hs, Result<(ResponseHeader, Term)>)
    requires Answered(r)
  {
    MakeResponse(ConsumeHello(NewResponder(r.me, r.ephemeral), r.hello, r.helloSealed).0, r.payload)
  }

  /** The responder's fields once it has accepted the hello. */
  ghost function Heard(r: ResponderRun): Hs
    requires Answered(r)
  {
    ConsumeHello(NewResponder(r.me, r.ephemeral), r.hello, r.helloSealed).0
  }

  /** The two runs are between each other, with each other's ephemeral keys. */
  ghost predicate SameParties(i: InitiatorRun, r: ResponderRun)
    requires Answered(r)
  {
    && i.peer == Point(r.me) && Heard(r).remoteStatic == Point(i.me)
    && r.hello.ephemeral == Point(i.ephemeral) && i.resp.ephemeral == Point(r.ephemeral)
  }

  /** The two runs saw the same messages. */
  ghost predicate SameTranscript(i: InitiatorRun, r: ResponderRun)
    requires Greeted(i) && Answered(r)
  {
    Greeting(i).1 == Ok((r.hello, r.helloSealed)) && Answer(r).1 == Ok((i.resp, i.respSealed))
  }

  /** What the transcript hash after the hello determines. */
  lemma HelloHashBinds(i: InitiatorRun, r: ResponderRun)
    requires Greeted(i) && Answered(r) && Greeting(i).0.hash == Heard(r).hash
    ensures Greeting(i).1 == Ok((r.hello, r.helloSealed))
    ensures i.peer == Point(r.me) && Heard(r).remoteStatic == Point(i.me) && r.hello.ephemeral == Point(i.ephemeral)
  {
  }

  /** What a response's acceptance determines, for any two states. */
  lemma ResponseBinds(i: Hs, r: Hs, payload: Term)
    requires i.initiator && !r.initiator
    requires
      var (hdr, sealed) := MakeResponse(r, payload).1.value;
      ConsumeResponse(i, hdr, sealed).1.Ok?
    ensures i.hash == r.hash
    ensures
      var (hdr, sealed) := MakeResponse(r, payload).1.value;
      var i', r' := ConsumeResponse(i, hdr, sealed).0, MakeResponse(r, payload).0;
      i'.hash == r'.hash && i'.chainKey == r'.chainKey && i'.send == r'.receive && i'.receive == r'.send
  {
    var (hdr, sealed) := MakeResponse(r, payload).1.value;
    var ci := Hkdf(Hkdf(Hkdf(i.chainKey, Key(hdr.ephemeral), 1), SharedSecret(i.localEphemeral, hdr.ephemeral), 1),
                   SharedSecret(i.localStatic, hdr.ephemeral), 1);
    var cr := Hkdf(Hkdf(Hkdf(r.chainKey, Key(hdr.ephemeral), 1), SharedSecret(r.localEphemeral, r.remoteEphemeral), 1),
                   SharedSecret(r.localEphemeral, r.remoteStatic), 1);
    assert Hkdf(ci, i.psk, 3) == Hkdf(cr, r.psk, 3);
    ExpandInjective(Mac(ci, i.psk), Mac(cr, r.psk), 3, 3);
  }

  lemma GreetingKeeps(i: InitiatorRun)
    requires Greeted(i)
    ensures Greeting(i).0.initiator && Greeting(i).0.localStatic == i.me && Greeting(i).0.remoteStatic == i.peer
  {
  }

  lemma HeardKeeps(r: ResponderRun)
    requires Answered(r)
    ensures !Heard(r).initiator && Heard(r).localStatic == r.me && Heard(r).localEphemeral == r.ephemeral
  {
  }

  lemma ResponseKeeps(r: Hs, payload: Term)
    requires !r.initiator
    ensures
      var (r', resp) := MakeResponse(r, payload);
      && resp.Ok? && resp.value.0.ephemeral == Point(r.localEphemeral)
      && r'.localStatic == r.localStatic && r'.remoteStatic == r.remoteStatic
      && r'.send.Some? && r'.receive.Some?
  {
  }

  lemma AcceptKeeps(i: Hs, hdr: ResponseHeader, sealed: Term)
    ensures
      var i' := ConsumeResponse(i, hdr, sealed).0;
      i'.localStatic == i.localStatic && i'.remoteStatic == i.remoteStatic && i'.sendNonce == i.sendNonce
  {
  }

  /** Mirrored keys from an accepted response, for two states already known to face each other. */
  lemma AcceptedMirrors(i: Hs, r: Hs, payload: Term, hdr: ResponseHeader, sealed: Term)
    requires i.initiator && !r.initiator && MakeResponse(r, payload).1 == Ok((hdr, sealed))
    requires ConsumeResponse(i, hdr, sealed).1.Ok?
    ensures i.hash == r.hash && hdr.ephemeral == Point(r.localEphemeral)
    ensures i.remoteStatic == Point(r.localStatic) && r.remoteStatic == Point(i.localStatic) ==>
      Mirrored(ConsumeResponse(i, hdr, sealed).0, MakeResponse(r, payload).0)
  {
    ResponseBinds(i, r, payload);
    ResponseKeeps(r, payload);
    AcceptKeeps(i, hdr, sealed);
  }

  /** Transcript agreement: if an initiator accepts what some responder made, both saw the same messages, are
      talking to each other and hold mirrored keys. */
  lemma TranscriptAgreement(i: InitiatorRun, r: ResponderRun)
    requires Finished(i) && Answered(r) && Answer(r).1 == Ok((i.resp, i.respSealed))
    ensures SameTranscript(i, r) && SameParties(i, r)
    ensures Mirrored(InitiatorEnd(i), Answer(r).0)
  {
    GreetingKeeps(i);
    HeardKeeps(r);
    AcceptedMirrors(Greeting(i).0, Heard(r), r.payload, i.resp, i.respSealed);
    HelloHashBinds(i, r);
  }

  // ---------------------------------------------------------------- what a session key pins down

  /** The chain of an initiator's derivations. */
  ghost predicate InitiatorChain(i: InitiatorRun, ck: Term) {
    var e := SharedSecret(i.ephemeral, i.peer);
    var c1 := Hkdf(INITIAL_CHAIN_KEY, Key(Point(i.ephemeral)), 1);
    var c2 := Hkdf(Hkdf(c1, e, 1), SharedSecret(i.me, i.peer), 1);
    var c3 := Hkdf(c2, Key(i.resp.ephemeral), 1);
    var c4 := Hkdf(c3, SharedSecret(i.ephemeral, i.resp.ephemeral), 1);
    ck == Hkdf(Hkdf(c4, SharedSecret(i.me, i.resp.ephemeral), 1), Blank, 1)
  }

  ghost predicate ResponderChain(r: ResponderRun, remote: PublicKey, ck: Term) {
    var c1 := Hkdf(INITIAL_CHAIN_KEY, Key(r.hello.ephemeral), 1);
    var c2 := Hkdf(Hkdf(c1, SharedSecret(r.me, r.hello.ephemeral), 1), SharedSecret(r.me, remote), 1);
    var c3 := Hkdf(c2, Key(Point(r.ephemeral)), 1);
    var c4 := Hkdf(c3, SharedSecret(r.ephemeral, r.hello.ephemeral), 1);
    ck == Hkdf(Hkdf(c4, SharedSecret(r.ephemeral, remote), 1), Blank, 1)
  }

  lemma InitiatorChainIs(i: InitiatorRun)
    requires Finished(i)
    ensures InitiatorChain(i, InitiatorEnd(i).chainKey)
  {
  }

  lemma ResponderChainIs(r: ResponderRun)
    requires Answered(r)
    ensures ResponderChain(r, Heard(r).remoteStatic, Answer(r).0.chainKey)
  {
  }

  lemma HkdfInjective(k: Term, x: Term, k': Term, x': Term, n: nat, m: nat)
    requires 1 <= n < 256 && 1 <= m < 256
    ensures Hkdf(k, x, n) == Hkdf(k', x', m) <==> k == k' && x == x' && n == m
  {
    ExpandInjective(Mac(k, x), Mac(k', x'), n, m);
  }

  lemma ChainsMeet(i: InitiatorRun, r: ResponderRun, remote: PublicKey, ck: Term)
    requires InitiatorChain(i, ck) && ResponderChain(r, remote, ck)
    requires SharedSecret(r.me, r.hello.ephemeral) != Blank && SharedSecret(r.me, remote) != Blank
    ensures i.peer == Point(r.me) && remote == Point(i.me)
    ensures r.hello.ephemeral == Point(i.ephemeral) && i.resp.ephemeral == Point(r.ephemeral)
  {
    assert r.hello.ephemeral == Point(i.ephemeral) && i.resp.ephemeral == Point(r.ephemeral);
    assert SharedSecret(i.ephemeral, i.peer) == SharedSecret(r.me, Point(i.ephemeral));
    SharedSecretAgrees(i.ephemeral, r.me, i.peer);
    assert SharedSecret(i.me, Point(r.me)) == SharedSecret(r.me, remote);
    SharedSecretAgrees(r.me, i.me, remote);
  }

  /** The session keys of a finished handshake come from its chain key, one per direction. */
  ghost predicate Keyed(hs: Hs) {
    && hs.send == Some(Hkdf(hs.chainKey, NOTHING, if hs.initiator then 1 else 2))
    && hs.receive == Some(Hkdf(hs.chainKey, NOTHING, if hs.initiator then 2 else 1))
  }

  /** A message opens exactly where the chain key is the same and the role is the other one. */
  lemma OpensIffSameChain(x: Hs, y: Hs, payload: Term)
    requires Keyed(x) && Keyed(y)
    ensures
      var m := MakeMessage(x, payload).1.value;
      && (ConsumeMessage(y, m.0, m.1).Ok? <==> x.chainKey == y.chainKey && x.initiator != y.initiator)
      && (ConsumeMessage(y, m.0, m.1).Ok? ==> ConsumeMessage(y, m.0, m.1) == Ok(payload))
  {
    HkdfInjective(x.chainKey, NOTHING, y.chainKey, NOTHING, if x.initiator then 1 else 2, if y.initiator then 2 else 1);
  }

  lemma InitiatorKeyed(i: InitiatorRun)
    requires Finished(i)
    ensures Keyed(InitiatorEnd(i)) && InitiatorEnd(i).initiator
  {
  }

  lemma ResponderKeyed(r: ResponderRun)
    requires Answered(r)
    ensures Keyed(Answer(r).0) && !Answer(r).0.initiator
  {
  }

  /** Whatever two finished runs a sender and a receiver come from, a message of the one opens in the other if
      and only if they are talking to each other. */
  lemma OpensOnlyAtPeer(i: InitiatorRun, r: ResponderRun, hi: Hs, hr: Hs, payload: Term)
    requires Finished(i) && Answered(r) && hi == InitiatorEnd(i) && hr == Answer(r).0
    ensures Keyed(hi) && Keyed(hr)
    ensures
      var m := MakeMessage(hi, payload).1.value;
      ConsumeMessage(hr, m.0, m.1).Ok? <==> SameParties(i, r)
    ensures
      var m := MakeMessage(hr, payload).1.value;
      ConsumeMessage(hi, m.0, m.1).Ok? <==> SameParties(i, r)
  {
    InitiatorKeyed(i);
    ResponderKeyed(r);
    OpensIffSameChain(hi, hr, payload);
    OpensIffSameChain(hr, hi, payload);
    SameChainSameParties(i, r);
  }

  lemma HeardSecrets(r: ResponderRun)
    requires Answered(r)
    ensures SharedSecret(r.me, r.hello.ephemeral) != Blank && SharedSecret(r.me, Heard(r).remoteStatic) != Blank
  {
  }

  lemma PartiesFixChain(i: InitiatorRun, r: ResponderRun, remote: PublicKey, ci: Term, cr: Term)
    requires InitiatorChain(i, ci) && ResponderChain(r, remote, cr)
    requires i.peer == Point(r.me) && remote == Point(i.me)
    requires r.hello.ephemeral == Point(i.ephemeral) && i.resp.ephemeral == Point(r.ephemeral)
    ensures ci == cr
  {
    SharedSecretAgrees(i.ephemeral, r.me, ZERO_KEY);
    SharedSecretAgrees(i.me, r.me, ZERO_KEY);
    SharedSecretAgrees(i.ephemeral, r.ephemeral, ZERO_KEY);
    SharedSecretAgrees(i.me, r.ephemeral, ZERO_KEY);
  }

  lemma SameChainSameParties(i: InitiatorRun, r: ResponderRun)
    requires Finished(i) && Answered(r)
    ensures InitiatorEnd(i).chainKey == Answer(r).0.chainKey <==> SameParties(i, r)
  {
    InitiatorChainIs(i);
    ResponderChainIs(r);
    HeardSecrets(r);
    if InitiatorEnd(i).chainKey == Answer(r).0.chainKey {
      ChainsMeet(i, r, Heard(r).remoteStatic, Answer(r).0.chainKey);
    }
    if SameParties(i, r) {
      PartiesFixChain(i, r, Heard(r).remoteStatic, InitiatorEnd(i).chainKey, Answer(r).0.chainKey);
    }
  }

  // ---------------------------------------------------------------- rejection

  /** A state after any responses, accepted or not. */
  function AfterResponses(hs: Hs, tries: seq<(ResponseHeader, Term)>): Hs
    decreases |tries|
  {
    if tries == [] then hs else AfterResponses(ConsumeResponse(hs, tries[0].0, tries[0].1).0, tries[1..])
  }

  /** However many responses have been refused, the genuine one is still accepted with the same outcome. */
  lemma {:induction false} RefusedResponsesHarmless(hs: Hs, tries: seq<(ResponseHeader, Term)>, r: Hs, payload: Term)
    requires forall t <- tries :: ConsumeResponse(hs, t.0, t.1).1.Err?
    requires InStep(hs, r)
    ensures AfterResponses(hs, tries) == hs
    ensures
      var (r', resp) := MakeResponse(r, payload);
      resp.Ok? &&
      var (i', got) := ConsumeResponse(AfterResponses(hs, tries), resp.value.0, resp.value.1);
      got == Ok(payload) && Mirrored(i', r')
    decreases |tries|
  {
    if tries == [] {
      HonestResponse(hs, r, payload);
    } else {
      assert tries[0] in tries;
      RefusedResponsesHarmless(hs, tries[1..], r, payload);
    }
  }

  /** A hello is refused without a trace. */
  lemma RefusedHelloHarmless(hs: Hs, hdr: HelloHeader, sealed: Term)
    ensures ConsumeHello(hs, hdr, sealed).1.Err? ==> ConsumeHello(hs, hdr, sealed).0 == hs
  {
  }

  // ---------------------------------------------------------------- the object

  /** KDF2(&chainKey, &key, chainKey, secret): the chain key is both read and overwritten. */
  method MixSecret(c: Buffer, secret: Term) returns (key: Term)
    modifies c
    ensures c.v == Hkdf(old(c.v), secret, 1) && key == Hkdf(old(c.v), secret, 2)
  {
    var out := new Buffer(Blank);
    KDF2(c, out, c, secret);
    key := out.v;
  }

  /** aead.Seal over the transcript, and the box mixed into it. */
  method SealAndMix(h: Buffer, key: Term, nonce: seq<byte>, plain: Term) returns (box: Term)
    modifies h
    ensures box == Box(key, nonce, plain, old(h.v)) && h.v == Hash(old(h.v), box)
  {
    box := Box(key, nonce, plain, h.v);
    MixHash(h, h, box);
  }

  /** aead.Open over the transcript, and the box mixed into it if it opens. */
  method OpenAndMix(h: Buffer, key: Term, nonce: seq<byte>, box: Term) returns (plain: Option<Term>)
    modifies h
    ensures plain == Open(key, nonce, box, old(h.v))
    ensures h.v == if plain.Some? then Hash(old(h.v), box) else old(h.v)
  {
    plain := Open(key, nonce, box, h.v);
    if plain.Some? {
      MixHash(h, h, box);
    }
  }

  method SealHello(h: Buffer, c: Buffer, es: Term, ss: Term, me: nat, timestamp: Term, payload: Term)
    returns (sealedStatic: Term, stamp: Term, sealed: Term)
    requires h != c
    modifies h, c
    ensures Seals(h.v, c.v, sealedStatic, stamp, sealed)
         == HelloSeals(old(h.v), old(c.v), es, ss, me, timestamp, payload)
  {
    var key := MixSecret(c, es);
    sealedStatic := SealAndMix(h, key, ZERO_NONCE, Key(Point(me)));
    key := MixSecret(c, ss);
    stamp := SealAndMix(h, key, ZERO_NONCE, timestamp);
    sealed := SealAndMix(h, key, PAYLOAD_NONCE, payload);
  }

  method CheckHello(me: nat, hdr: HelloHeader, sealed: Term) returns (r: Result<Opening>)
    ensures r == OpenHello(me, hdr, sealed)
  {
    var h := new Buffer(INITIAL_HASH);
    var c := new Buffer(INITIAL_CHAIN_KEY);
    MixHash(h, h, Key(Point(me)));
    MixHash(h, h, Key(hdr.ephemeral));
    KDF1(c, c, Key(hdr.ephemeral));
    var es := SharedSecret(me, hdr.ephemeral);
    if es == Blank {
      return Err(ZeroECDH);
    }
    var key := MixSecret(c, es);
    var remote := OpenAndMix(h, key, ZERO_NONCE, hdr.sealedStatic);
    if remote.None? || !remote.value.Key? {
      return Err(OpenFailed);
    }
    var ss := SharedSecret(me, remote.value.pub);
    if ss == Blank {
      return Err(ZeroECDH);
    }
    key := MixSecret(c, ss);
    var timestamp := OpenAndMix(h, key, ZERO_NONCE, hdr.timestamp);
    if timestamp.None? {
      return Err(OpenFailed);
    }
    var payload := OpenAndMix(h, key, PAYLOAD_NONCE, sealed);
    r := if payload.None? then Err(OpenFailed)
         else Ok(Opening(h.v, c.v, remote.value.pub, ss, payload.value));
  }

  method MixResponse(c: Buffer, eph: PublicKey, ee: Term, se: Term, psk: Term) returns (tau: Term, key: Term)
    modifies c
    ensures Secrets(c.v, tau, key) == ResponseSecrets(old(c.v), eph, ee, se, psk)
  {
    KDF1(c, c, Key(eph));
    KDF1(c, c, ee);
    KDF1(c, c, se);
    var t := new Buffer(Blank);
    var k := new Buffer(Blank);
    KDF3(c, t, k, c, psk);
    tau, key := t.v, k.v;
  }

  method CheckResponse(hs: Hs, hdr: ResponseHeader, sealed: Term) returns (r: Result<(Term, Term, Term)>)
    ensures r == OpenResponse(hs, hdr, sealed)
  {
    var c := new Buffer(hs.chainKey);
    var tau, key := MixResponse(c, hdr.ephemeral, SharedSecret(hs.localEphemeral, hdr.ephemeral),
                                SharedSecret(hs.localStatic, hdr.ephemeral), hs.psk);
    var h := new Buffer(hs.hash);
    MixHash(h, h, Key(hdr.ephemeral));
    MixHash(h, h, tau);
    var empty := OpenAndMix(h, key, ZERO_NONCE, hdr.empty);
    if empty.None? {
      return Err(OpenFailed);
    }
    var payload := OpenAndMix(h, key, PAYLOAD_NONCE, sealed);
    r := if payload.None? then Err(OpenFailed) else Ok((h.v, c.v, payload.value));
  }

  /** The last KDF2: two session keys, the chain key kept. */
  method Split(c: Buffer) returns (first: Term, second: Term)
    ensures first == Hkdf(c.v, NOTHING, 1) && second == Hkdf(c.v, NOTHING, 2)
  {
    var t0 := new Buffer(Blank);
    var t1 := new Buffer(Blank);
    KDF2(t0, t1, c, NOTHING);
    first, second := t0.v, t1.v;
  }

  class Handshake {
    const hash: Buffer
    const chainKey: Buffer
    const psk: Term
    const localStatic: nat
    const localEphemeral: nat
    const initiator: bool
    var remoteStatic: PublicKey
    var remoteEphemeral: PublicKey
    var staticStatic: Term
    var send: Option<Term>
    var receive: Option<Term>
    var sendNonce: nat

    /** The two arrays are different ones. */
    ghost predicate Valid() {
      hash != chainKey
    }

    function View(): Hs
      reads this, hash, chainKey
    {
      Hs(hash.v, chainKey.v, psk, localStatic, localEphemeral, remoteStatic, remoteEphemeral, staticStatic,
         send, receive, sendNonce, initiator)
    }

    constructor Init(state: Hs)
      ensures Valid() && View() == state && fresh(hash) && fresh(chainKey)
    {
      hash := new Buffer(state.hash);
      chainKey := new Buffer(state.chainKey);
      psk, initiator := state.psk, state.initiator;
      localStatic, localEphemeral := state.localStatic, state.localEphemeral;
      remoteStatic, remoteEphemeral, staticStatic := state.remoteStatic, state.remoteEphemeral, state.staticStatic;
      send, receive, sendNonce := state.send, state.receive, state.sendNonce;
    }

    method SendHello(timestamp: Term, payload: Term) returns (r: Result<(HelloHeader, Term)>)
      requires Valid()
      modifies this, hash, chainKey
      ensures (View(), r) == MakeHello(old(View()), timestamp, payload)
    {
      if !initiator {
        return Err(WrongRole);
      }
      MixHash(hash, hash, Key(remoteStatic));
      var eph := Point(localEphemeral);
      KDF1(chainKey, chainKey, Key(eph));
      MixHash(hash, hash, Key(eph));
      var es := SharedSecret(localEphemeral, remoteStatic);
      if es == Blank {
        return Err(ZeroECDH);
      }
      var sealedStatic, stamp, sealed :=
        SealHello(hash, chainKey, es, staticStatic, localStatic, timestamp, payload);
      r := Ok((HelloHeader(eph, sealedStatic, stamp), sealed));
    }

    method ReceiveHello(hdr: HelloHeader, sealed: Term) returns (r: Result<Term>)
      requires Valid()
      modifies this, hash, chainKey
      ensures (View(), r) == ConsumeHello(old(View()), hdr, sealed)
    {
      if initiator {
        return Err(WrongRole);
      }
      var o := CheckHello(localStatic, hdr, sealed);
      if o.Err? {
        return Err(o.error);
      }
      hash.v := o.value.hash;
      chainKey.v := o.value.chainKey;
      remoteStatic, remoteEphemeral, staticStatic := o.value.remote, hdr.ephemeral, o.value.ss;
      r := Ok(o.value.payload);
    }

    method SendResponse(payload: Term) returns (r: Result<(ResponseHeader, Term)>)
      requires Valid()
      modifies this, hash, chainKey
      ensures (View(), r) == MakeResponse(old(View()), payload)
    {
      if initiator {
        return Err(WrongRole);
      }
      var eph := Point(localEphemeral);
      MixHash(hash, hash, Key(eph));
      var tau, key := MixResponse(chainKey, eph, SharedSecret(localEphemeral, remoteEphemeral),
                                  SharedSecret(localEphemeral, remoteStatic), psk);
      MixHash(hash, hash, tau);
      var empty := SealAndMix(hash, key, ZERO_NONCE, NOTHING);
      var sealed := SealAndMix(hash, key, PAYLOAD_NONCE, payload);
      var recvKey, sendKey := Split(chainKey);
      send, receive := Some(sendKey), Some(recvKey);
      r := Ok((ResponseHeader(eph, empty), sealed));
    }

    method ReceiveResponse(hdr: ResponseHeader, sealed: Term) returns (r: Result<Term>)
      requires Valid()
      modifies this, hash, chainKey
      ensures (View(), r) == ConsumeResponse(old(View()), hdr, sealed)
    {
      if !initiator {
        return Err(WrongRole);
      }
      var o := CheckResponse(View(), hdr, sealed);
      if o.Err? {
        return Err(o.error);
      }
      var (h, c, payload) := o.value;
      hash.v := h;
      chainKey.v := c;
      var sendKey, recvKey := Split(chainKey);
      send, receive := Some(sendKey), Some(recvKey);
      r := Ok(payload);
    }

    method SendMessage(payload: Term) returns (r: Result<(seq<byte>, Term)>)
      modifies this
      ensures (View(), r) == MakeMessage(old(View()), payload)
    {
      if send.None? {
        return Err(NotFinished);
      }
      sendNonce := (sendNonce + 1) % TWO_64;
      var nonce := BigEndian(sendNonce, 8);
      r := Ok((nonce, Box(send.value, [0, 0, 0, 0] + nonce, payload, NOTHING)));
    }

    method ReceiveMessage(nonce: seq<byte>, sealed: Term) returns (r: Result<Term>)
      ensures r == ConsumeMessage(View(), nonce, sealed)
    {
      if receive.None? {
        return Err(NotFinished);
      }
      var payload := Open(receive.value, [0, 0, 0, 0] + nonce, sealed, NOTHING);
      r := if payload.None? then Err(OpenFailed) else Ok(payload.value);
    }
  }
}
