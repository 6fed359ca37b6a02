/** The handshake against the pattern it is named after: the symmetric state of section 5.2 of the Noise Protocol
    Framework and the tokens of its pattern IKpsk2 (sections 7.5 and 9.4), written down as they are there.  The two
    messages are those of the pattern, each with one more box: a second payload under the last key. */
module Noise {
  import opened Bytes
  import opened Crypto
  import opened Kdf
  import opened Handshake

  /** The chaining key, the handshake hash, and the key of the cipher. */
  datatype State = State(ck: Term, h: Term, k: Term)

  /** The tokens of message patterns (sections 7.1 and 9.2). */
  datatype Token = E | S | ES | SS | EE | SE | PSK

  /** Whose message it is and all keys that a side has. */
  datatype Side = Side(initiator: bool, s: nat, e: nat, rs: PublicKey, re: PublicKey, psk: Term)

  function MixKey(st: State, input: Term): State {
    State(Hkdf(st.ck, input, 1), st.h, Hkdf(st.ck, input, 2))
  }

  function MixHash(st: State, data: Term): State {
    st.(h := Hash(st.h, data))
  }

  function MixKeyAndHash(st: State, input: Term): State {
    State(Hkdf(st.ck, input, 1), Hash(st.h, Hkdf(st.ck, input, 2)), Hkdf(st.ck, input, 3))
  }

  /** A box over the hash so far, which then covers the box too. */
  function EncryptAndHash(st: State, nonce: seq<byte>, plain: Term): (State, Term) {
    var box := Box(st.k, nonce, plain, st.h);
    (MixHash(st, box), box)
  }

  /** What the sender of a message does for a token, and what it writes. */
  function WriteToken(st: State, side: Side, t: Token): (State, seq<Term>) {
    match t
    case E => (MixKey(MixHash(st, Key(Point(side.e))), Key(Point(side.e))), [Key(Point(side.e))])
    case S =>
      var (st', box) := EncryptAndHash(st, Zeros(12), Key(Point(side.s)));
      (st', [box])
    case EE => (MixKey(st, SharedSecret(side.e, side.re)), [])
    case ES => (MixKey(st, if side.initiator then SharedSecret(side.e, side.rs) else SharedSecret(side.s, side.re)), [])
    case SE => (MixKey(st, if side.initiator then SharedSecret(side.s, side.re) else SharedSecret(side.e, side.rs)), [])
    case SS => (MixKey(st, SharedSecret(side.s, side.rs)), [])
    case PSK => (MixKeyAndHash(st, side.psk), [])
  }

  function WriteTokens(st: State, side: Side, ts: seq<Token>): (State, seq<Term>)
    decreases |ts|
  {
    if ts == [] then (st, []) else
    var (st', out) := WriteToken(st, side, ts[0]);
    var (st'', rest) := WriteTokens(st', side, ts[1..]);
    (st'', out + rest)
  }

  /** A message: its tokens, its payload, and the second payload under a nonce of its own. */
  function WriteMessage(st: State, side: Side, ts: seq<Token>, payload: Term, nonce: seq<byte>, second: Term)
    : (State, seq<Term>)
  {
    var (st1, out) := WriteTokens(st, side, ts);
    var (st2, box) := EncryptAndHash(st1, Zeros(12), payload);
    var (st3, last) := EncryptAndHash(st2, nonce, second);
    (st3, out + [box, last])
  }

  /** The protocol name, the prologue, and the pre-message `<- s`. */
  function Start(responder: PublicKey): State {
    var ck := Hash(Text([]), Name("Noise_IKpsk2_25519_ChaChaPoly_BLAKE2s"));
    State(ck, Hash(Hash(ck, Name("rovy.net/session v0")), Key(responder)), Blank)
  }

  const FIRST: seq<Token> := [E, ES, S, SS]
  const SECOND: seq<Token> := [E, EE, SE, PSK]

  /** The nonce of the second payload. */
  const EXTRA: seq<byte> := [0, 0, 0, 0, 0x42, 0, 0, 0, 0, 0, 0, 0]

  lemma FourTokens(st: State, side: Side, a: Token, b: Token, c: Token, d: Token)
    ensures
      var (s1, o1) := WriteToken(st, side, a);
      var (s2, o2) := WriteToken(s1, side, b);
      var (s3, o3) := WriteToken(s2, side, c);
      var (s4, o4) := WriteToken(s3, side, d);
      WriteTokens(st, side, [a, b, c, d]) == (s4, o1 + (o2 + (o3 + (o4 + []))))
  {
    var s1 := WriteToken(st, side, a).0;
    var s2 := WriteToken(s1, side, b).0;
    var s3 := WriteToken(s2, side, c).0;
    assert [a, b, c, d][1..] == [b, c, d] && [b, c, d][1..] == [c, d] && [c, d][1..] == [d] && [d][1..] == [];
    assert WriteTokens(s3, side, [d]) == (WriteToken(s3, side, d).0, WriteToken(s3, side, d).1 + []);
    assert WriteTokens(s2, side, [c, d]).0 == WriteToken(s3, side, d).0;
  }

  /** The hello is the first message of the pattern, and leaves its chaining key and its hash. */
  lemma HelloIsFirst(i: InitiatorRun)
    requires Greeted(i)
    ensures
      var (hs, hello) := Greeting(i);
      var (hdr, sealed) := hello.value;
      var side := Side(true, i.me, i.ephemeral, i.peer, ZERO_KEY, Blank);
      var (st, out) := WriteMessage(Start(i.peer), side, FIRST, i.timestamp, EXTRA, i.payload);
      out == [Key(hdr.ephemeral), hdr.sealedStatic, hdr.timestamp, sealed] && hs.chainKey == st.ck && hs.hash == st.h
  {
    var side := Side(true, i.me, i.ephemeral, i.peer, ZERO_KEY, Blank);
    FourTokens(Start(i.peer), side, E, ES, S, SS);
    assert Zeros(12) == ZERO_NONCE;
    var (hdr, sealed) := Greeting(i).1.value;
    var tokens := WriteTokens(Start(i.peer), side, FIRST);
    assert tokens.1 == [Key(hdr.ephemeral), hdr.sealedStatic];
  }

  /** The response is the second, from any state after the first, and the session keys are those of Split (section 5.2):
      the first for the initiator to send with. */
  lemma ResponseIsSecond(r: Hs, payload: Term)
    requires !r.initiator
    ensures
      var (hs, resp) := MakeResponse(r, payload);
      var (hdr, sealed) := resp.value;
      var side := Side(false, r.localStatic, r.localEphemeral, r.remoteStatic, r.remoteEphemeral, r.psk);
      var (st, out) := WriteMessage(State(r.chainKey, r.hash, Blank), side, SECOND, Text([]), EXTRA, payload);
      && out == [Key(hdr.ephemeral), hdr.empty, sealed] && hs.chainKey == st.ck && hs.hash == st.h
      && hs.receive == Some(Hkdf(st.ck, Text([]), 1)) && hs.send == Some(Hkdf(st.ck, Text([]), 2))
  {
    var side := Side(false, r.localStatic, r.localEphemeral, r.remoteStatic, r.remoteEphemeral, r.psk);
    FourTokens(State(r.chainKey, r.hash, Blank), side, E, EE, SE, PSK);
    assert Zeros(12) == ZERO_NONCE;
    var tokens := WriteTokens(State(r.chainKey, r.hash, Blank), side, SECOND);
    assert tokens.1 == [Key(Point(r.localEphemeral))];
  }
}
