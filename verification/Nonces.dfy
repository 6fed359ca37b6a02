/** Every box that the nodes of a network make: in their hellos, in their responses and in the messages after them.  A
    key and a nonce are used for one of them only. */
module Nonces {
  import opened Bytes
  import opened Crypto
  import opened Kdf
  import opened Handshake

  /** One end of a handshake and the payloads it seals afterwards, one call after the other. */
  datatype End = Caller(i: InitiatorRun, sent: seq<Term>) | Replier(r: ResponderRun, sent: seq<Term>) {
    function Ephemeral(): nat {
      if Caller? then i.ephemeral else r.ephemeral
    }

    /** It has made its message, and seals payloads only once it has its keys, 2^64 of them at most. */
    ghost predicate Works() {
      && (if Caller? then Greeted(i) && (sent != [] ==> Finished(i)) else Answered(r))
      && |sent| <= TWO_64
    }
  }

  /** The boxes of a hello: the last two have nonces of their own. */
  ghost function HelloBoxes(i: InitiatorRun): (boxes: seq<Term>)
    requires Greeted(i)
    ensures |boxes| == 3 && boxes[1].Box? && boxes[2].Box? && boxes[1].nonce != boxes[2].nonce
  {
    assert ZERO_NONCE[4] != PAYLOAD_NONCE[4];
    var (hdr, sealed) := Greeting(i).1.value;
    [hdr.sealedStatic, hdr.timestamp, sealed]
  }

  /** The boxes of a response. */
  ghost function ReplyBoxes(hs: Hs, payload: Term): (boxes: seq<Term>)
    requires !hs.initiator
    ensures |boxes| == 2 && boxes[0].Box? && boxes[1].Box? && boxes[0].nonce != boxes[1].nonce
  {
    assert ZERO_NONCE[4] != PAYLOAD_NONCE[4];
    var (hdr, sealed) := MakeResponse(hs, payload).1.value;
    [hdr.empty, sealed]
  }

  /** How many they are. */
  function Openers(e: End): nat {
    if e.Caller? then 3 else 2
  }

  ghost function Opening(e: End): (boxes: seq<Term>)
    requires e.Works()
    ensures |boxes| == Openers(e)
  {
    match e
    case Caller(i, _) => HelloBoxes(i)
    case Replier(r, _) => HeardKeeps(r); ReplyBoxes(Heard(r), r.payload)
  }

  /** Its state when the handshake is over. */
  ghost function Over(e: End): (hs: Hs)
    requires e.Works() && e.sent != []
    ensures hs.send.Some?
  {
    match e
    case Caller(i, _) => InitiatorKeyed(i); InitiatorEnd(i)
    case Replier(r, _) => ResponderKeyed(r); Answer(r).0
  }

  /** The boxes of its messages. */
  ghost function Sent(e: End): (boxes: seq<Term>)
    requires e.Works()
    ensures |boxes| == |e.sent|
  {
    if e.sent == [] then [] else
    var ms := Messages(Over(e), e.sent);
    seq(|ms|, k requires 0 <= k < |ms| => ms[k].1)
  }

  /** Every box it makes, in order. */
  ghost function Boxes(e: End): (boxes: seq<Term>)
    requires e.Works()
    ensures |boxes| == Openers(e) + |e.sent|
  {
    Opening(e) + Sent(e)
  }

  lemma BoxAt(e: End, k: nat)
    requires e.Works() && k < |Boxes(e)|
    ensures Boxes(e)[k] == if k < Openers(e) then Opening(e)[k] else Sent(e)[k - Openers(e)]
  {
  }

  // ---------------------------------------------------------------- the keys

  /** What a key is for. */
  datatype Use = ForStatic | ForHello | ForResponse | ForMessages(initiator: bool)

  function FirstChain(e: nat): Term {
    Hkdf(INITIAL_CHAIN_KEY, Key(Point(e)), 1)
  }

  function HelloChain(i: InitiatorRun): Term {
    Hkdf(FirstChain(i.ephemeral), SharedSecret(i.ephemeral, i.peer), 1)
  }

  function ReplyChain(c: Term, e: PublicKey, ee: Term, se: Term): Term {
    Hkdf(Hkdf(Hkdf(c, Key(e), 1), ee, 1), se, 1)
  }

  /** A key that end `e` seals with. */
  ghost predicate Seals(e: End, use: Use, key: Term) {
    match use
    case ForStatic =>
      e.Caller? && SharedSecret(e.i.ephemeral, e.i.peer).Shared?
      && key == Hkdf(FirstChain(e.i.ephemeral), SharedSecret(e.i.ephemeral, e.i.peer), 2)
    case ForHello =>
      e.Caller? && SharedSecret(e.i.ephemeral, e.i.peer).Shared? && SharedSecret(e.i.me, e.i.peer).Shared?
      && key == Hkdf(HelloChain(e.i), SharedSecret(e.i.me, e.i.peer), 2)
    case ForResponse =>
      e.Replier? && exists c, ee, se :: key == Hkdf(ReplyChain(c, Point(e.r.ephemeral), ee, se), Blank, 3)
    case ForMessages(initiator) =>
      && initiator == e.Caller?
      && exists chain :: Chain(e, chain) && key == Hkdf(chain, NOTHING, if e.Caller? then 1 else 2)
  }

  /** The chain key of a finished handshake. */
  ghost predicate Chain(e: End, chain: Term) {
    match e
    case Caller(i, _) => InitiatorChain(i, chain)
    case Replier(r, _) => Answered(r) && ResponderChain(r, Heard(r).remoteStatic, chain)
  }

  lemma ChainNames(e: End, f: End, chain: Term)
    requires Chain(e, chain) && Chain(f, chain) && e.Caller? == f.Caller?
    ensures e.Ephemeral() == f.Ephemeral()
  {
  }

  /** A key tells what it is for, and whose it is: its maker's ephemeral scalar is in it. */
  lemma KeyNames(e: End, use: Use, f: End, use': Use, key: Term)
    requires Seals(e, use, key) && Seals(f, use', key)
    ensures use == use' && e.Ephemeral() == f.Ephemeral()
  {
    match (use, use')
    case (ForResponse, ForResponse) =>
      var c, ee, se :| key == Hkdf(ReplyChain(c, Point(e.r.ephemeral), ee, se), Blank, 3);
      var c', ee', se' :| key == Hkdf(ReplyChain(c', Point(f.r.ephemeral), ee', se'), Blank, 3);
      HkdfInjective(ReplyChain(c, Point(e.r.ephemeral), ee, se), Blank,
                    ReplyChain(c', Point(f.r.ephemeral), ee', se'), Blank, 3, 3);
    case (ForMessages(_), ForMessages(_)) =>
      var chain :| Chain(e, chain) && key == Hkdf(chain, NOTHING, if e.Caller? then 1 else 2);
      var chain' :| Chain(f, chain') && key == Hkdf(chain', NOTHING, if f.Caller? then 1 else 2);
      HkdfInjective(chain, NOTHING, chain', NOTHING, if e.Caller? then 1 else 2, if f.Caller? then 1 else 2);
      ChainNames(e, f, chain);
    case _ =>
      UsesDiffer(e, use, f, use', key);
  }

  /** A key's block and input. */
  ghost predicate KeyForm(use: Use, key: Term, salt: Term, input: Term, block: nat) {
    && 1 <= block <= 3 && key == Hkdf(salt, input, block)
    && (use.ForStatic? || use.ForHello? ==> input.Shared? && block == 2)
    && (use.ForResponse? ==> block == 3) && (use.ForMessages? ==> input == NOTHING && block < 3)
  }

  lemma FormOf(e: End, use: Use, key: Term) returns (salt: Term, input: Term, block: nat)
    requires Seals(e, use, key)
    ensures KeyForm(use, key, salt, input, block)
    ensures use.ForStatic? ==> salt == FirstChain(e.Ephemeral())
    ensures use.ForHello? ==> salt == HelloChain(e.i) && SharedSecret(e.i.ephemeral, e.i.peer).Shared?
  {
    match use
    case ForStatic =>
      salt, input, block := FirstChain(e.i.ephemeral), SharedSecret(e.i.ephemeral, e.i.peer), 2;
    case ForHello =>
      salt, input, block := HelloChain(e.i), SharedSecret(e.i.me, e.i.peer), 2;
    case ForResponse =>
      var c, ee, se :| key == Hkdf(ReplyChain(c, Point(e.r.ephemeral), ee, se), Blank, 3);
      salt, input, block := ReplyChain(c, Point(e.r.ephemeral), ee, se), Blank, 3;
    case ForMessages(_) =>
      var chain :| Chain(e, chain) && key == Hkdf(chain, NOTHING, if e.Caller? then 1 else 2);
      salt, input, block := chain, NOTHING, if e.Caller? then 1 else 2;
  }

  lemma UsesDiffer(e: End, use: Use, f: End, use': Use, key: Term)
    requires Seals(e, use, key) && Seals(f, use', key)
    requires !(use.ForResponse? && use'.ForResponse?) && !(use.ForMessages? && use'.ForMessages?)
    ensures use == use' && e.Ephemeral() == f.Ephemeral()
  {
    var salt, input, block := FormOf(e, use, key);
    var salt', input', block' := FormOf(f, use', key);
    HkdfInjective(salt, input, salt', input', block, block');
  }

  // ---------------------------------------------------------------- each box has its own key and nonce

  /** What the key of the k-th box is for. */
  function UseAt(e: End, k: nat): Use {
    if k >= Openers(e) then ForMessages(e.Caller?)
    else if e.Replier? then ForResponse
    else if k == 0 then ForStatic
    else ForHello
  }

  lemma OpeningKeys(e: End, k: nat)
    requires e.Works() && k < Openers(e)
    ensures Opening(e)[k].Box? && Seals(e, UseAt(e, k), Opening(e)[k].key)
  {
    match e
    case Caller(i, _) =>
    case Replier(r, _) =>
      var s := Heard(r);
      assert Opening(e)[k].key == Hkdf(ReplyChain(s.chainKey, Point(r.ephemeral),
          SharedSecret(r.ephemeral, s.remoteEphemeral), SharedSecret(r.ephemeral, s.remoteStatic)), Blank, 3);
  }

  /** The chain key is that of the whole handshake. */
  lemma OverChain(e: End)
    requires e.Works() && e.sent != []
    ensures Chain(e, Over(e).chainKey)
    ensures Over(e).send == Some(Hkdf(Over(e).chainKey, NOTHING, if e.Caller? then 1 else 2))
  {
    match e
    case Caller(i, _) =>
      InitiatorChainIs(i);
      InitiatorKeyed(i);
    case Replier(r, _) =>
      ResponderChainIs(r);
      ResponderKeyed(r);
  }

  lemma SentBox(e: End, k: nat)
    requires e.Works() && k < |e.sent|
    ensures
      var box := Sent(e)[k];
      && box == Box(Over(e).send.value, MessageNonce(CounterAfter(Over(e).sendNonce, k)), e.sent[k], NOTHING)
      && Seals(e, ForMessages(e.Caller?), box.key)
  {
    MessageAt(Over(e), e.sent, k);
    OverChain(e);
  }

  lemma BoxKeys(e: End, k: nat)
    requires e.Works() && k < |Boxes(e)|
    ensures Boxes(e)[k].Box? && Seals(e, UseAt(e, k), Boxes(e)[k].key)
  {
    BoxAt(e, k);
    if k < Openers(e) {
      OpeningKeys(e, k);
    } else {
      SentBox(e, k - Openers(e));
    }
  }

  /** Two boxes of one hello or response with keys for the same use have different nonces. */
  lemma OpeningNonces(e: End, j: nat, k: nat)
    requires e.Works() && j < k < Openers(e) && UseAt(e, j) == UseAt(e, k)
    ensures Opening(e)[j].Box? && Opening(e)[k].Box? && Opening(e)[j].nonce != Opening(e)[k].nonce
  {
    if e.Caller? {
      assert j == 1 && k == 2;
    } else {
      assert j == 0 && k == 1;
    }
  }

  lemma SentNonces(e: End, j: nat, k: nat)
    requires e.Works() && j < k < |e.sent|
    ensures Sent(e)[j].Box? && Sent(e)[k].Box? && Sent(e)[j].nonce != Sent(e)[k].nonce
  {
    SentBox(e, j);
    SentBox(e, k);
    var c := Over(e).sendNonce;
    CountersDiffer(c, j, k);
    assert MessageNonce(CounterAfter(c, j))[4..] == BigEndian(CounterAfter(c, j), 8);
    assert MessageNonce(CounterAfter(c, k))[4..] == BigEndian(CounterAfter(c, k), 8);
  }

  /** Two boxes of one end. */
  lemma OwnNonces(e: End, j: nat, k: nat)
    requires e.Works() && j < k < |Boxes(e)| && UseAt(e, j) == UseAt(e, k)
    ensures Boxes(e)[j].Box? && Boxes(e)[k].Box? && Boxes(e)[j].nonce != Boxes(e)[k].nonce
  {
    BoxAt(e, j);
    BoxAt(e, k);
    var n := Openers(e);
    if k < n {
      OpeningNonces(e, j, k);
    } else {
      SentNonces(e, j - n, k - n);
    }
  }

  /** No ephemeral scalar is drawn twice. */
  ghost predicate Drawn(ends: set<End>) {
    forall e, f :: e in ends && f in ends && e.Ephemeral() == f.Ephemeral() ==> e == f
  }

  /** Among all boxes that the ends of any handshakes make, whoever they are with and whatever they are sent, a key and
      a nonce occur once: two boxes that have both in common are the same one. */
  lemma OneBoxPerNonce(ends: set<End>, e: End, f: End, j: nat, k: nat)
    requires Drawn(ends) && (forall e <- ends :: e.Works()) && e in ends && f in ends
    requires j < |Boxes(e)| && k < |Boxes(f)|
    ensures Boxes(e)[j].Box? && Boxes(f)[k].Box?
    ensures Boxes(e)[j].key == Boxes(f)[k].key && Boxes(e)[j].nonce == Boxes(f)[k].nonce <==> e == f && j == k
  {
    BoxKeys(e, j);
    BoxKeys(f, k);
    if Boxes(e)[j].key == Boxes(f)[k].key {
      KeyNames(e, UseAt(e, j), f, UseAt(f, k), Boxes(e)[j].key);
      if j < k {
        OwnNonces(e, j, k);
      } else if k < j {
        OwnNonces(e, k, j);
      }
    }
  }

  /** It needs the fresh scalars: two calls of one node to one peer with one ephemeral key seal whatever they carry with
      the same keys and the same nonces. */
  lemma ReusedEphemeral(i: InitiatorRun, i': InitiatorRun, k: nat)
    requires Greeted(i) && Greeted(i') && i.me == i'.me && i.peer == i'.peer && i.ephemeral == i'.ephemeral && k < 3
    ensures
      var b, b' := Boxes(Caller(i, []))[k], Boxes(Caller(i', []))[k];
      && b.Box? && b'.Box? && b.key == b'.key && b.nonce == b'.nonce
      && (i.timestamp != i'.timestamp && k == 1 ==> b != b') && (i.payload != i'.payload && k == 2 ==> b != b')
  {
  }
}
