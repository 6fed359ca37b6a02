/** Which hellos and responses are accepted: exactly those that some node made for the one that accepts them. */
module Acceptance {
  import opened Bytes
  import opened Crypto
  import opened Kdf
  import opened Handshake

  /** The hello of that call. */
  ghost predicate HelloOf(i: InitiatorRun, hdr: HelloHeader, sealed: Term) {
    Greeted(i) && Greeting(i).1 == Ok((hdr, sealed))
  }

  /** What was put into a hello that opens. */
  ghost function CallIn(me: nat, hdr: HelloHeader, sealed: Term): InitiatorRun
    requires OpenHello(me, hdr, sealed).Ok?
  {
    InitiatorRun(OpenHello(me, hdr, sealed).value.remote.secret, Point(me), hdr.ephemeral.secret,
                 hdr.timestamp.plain, sealed.plain, ResponseHeader(ZERO_KEY, Blank), Blank)
  }

  lemma OpenedHello(me: nat, hdr: HelloHeader, sealed: Term)
    requires OpenHello(me, hdr, sealed).Ok?
    ensures HelloOf(CallIn(me, hdr, sealed), hdr, sealed)
    ensures
      var i, o := CallIn(me, hdr, sealed), OpenHello(me, hdr, sealed).value;
      o.remote == Point(i.me) && o.payload == i.payload && Greeting(i).0.hash == o.hash
  {
    var i, o := CallIn(me, hdr, sealed), OpenHello(me, hdr, sealed).value;
    SharedSecretAgrees(i.me, me, ZERO_KEY);
    SharedSecretAgrees(i.ephemeral, me, ZERO_KEY);
  }

  /** A node accepts a hello if and only if it is the hello of some call to it, and then it has the caller's static key
      and payload from it. */
  lemma HelloAcceptedIff(me: nat, eph: nat, hdr: HelloHeader, sealed: Term)
    ensures ConsumeHello(NewResponder(me, eph), hdr, sealed).1.Ok?
       <==> exists i :: HelloOf(i, hdr, sealed) && i.peer == Point(me)
    ensures forall i :: HelloOf(i, hdr, sealed) && i.peer == Point(me) ==>
      && ConsumeHello(NewResponder(me, eph), hdr, sealed).1 == Ok(i.payload)
      && ConsumeHello(NewResponder(me, eph), hdr, sealed).0.remoteStatic == Point(i.me)
  {
    if ConsumeHello(NewResponder(me, eph), hdr, sealed).1.Ok? {
      OpenedHello(me, hdr, sealed);
    }
    forall i | HelloOf(i, hdr, sealed) && i.peer == Point(me)
      ensures ConsumeHello(NewResponder(me, eph), hdr, sealed).1 == Ok(i.payload)
      ensures ConsumeHello(NewResponder(me, eph), hdr, sealed).0.remoteStatic == Point(i.me)
    {
      HonestHello(i.me, me, i.ephemeral, eph, i.timestamp, i.payload);
    }
  }

  /** `r` is in step with the caller and made that response. */
  ghost predicate ResponseOf(i: Hs, r: Hs, payload: Term, hdr: ResponseHeader, sealed: Term) {
    InStep(i, r) && MakeResponse(r, payload).1 == Ok((hdr, sealed))
  }

  /** The responder that a response which opens comes from. */
  function AnswererIn(i: Hs, hdr: ResponseHeader): Hs
    requires i.remoteStatic.Point? && hdr.ephemeral.Point?
  {
    Hs(i.hash, i.chainKey, i.psk, i.remoteStatic.secret, hdr.ephemeral.secret, Point(i.localStatic),
       Point(i.localEphemeral), Blank, None, None, 0, false)
  }

  lemma OpenedResponse(i: Hs, hdr: ResponseHeader, sealed: Term)
    requires i.initiator && i.remoteStatic.Point? && hdr.ephemeral.Point?
    requires hdr.empty.Box? && hdr.empty.plain == NOTHING && OpenResponse(i, hdr, sealed).Ok?
    ensures ResponseOf(i, AnswererIn(i, hdr), OpenResponse(i, hdr, sealed).value.2, hdr, sealed)
  {
    var r := AnswererIn(i, hdr);
    SharedSecretAgrees(i.localEphemeral, r.localEphemeral, ZERO_KEY);
    SharedSecretAgrees(i.localStatic, r.localEphemeral, ZERO_KEY);
  }

  /** A response in form: its key is that of a scalar, and its first box, of 16 bytes, has nothing in it. */
  predicate InForm(hdr: ResponseHeader) {
    hdr.ephemeral.Point? && hdr.empty.Box? && hdr.empty.plain == NOTHING
  }

  /** An initiator that called a node accepts a response in form if and only if a responder in step with it made it, and
      then the payload is the responder's. */
  lemma ResponseAcceptedIff(i: Hs, hdr: ResponseHeader, sealed: Term)
    ensures ConsumeResponse(i, hdr, sealed).1.Ok? && InForm(hdr) && i.remoteStatic.Point?
       <==> exists r, payload :: ResponseOf(i, r, payload, hdr, sealed)
    ensures forall r, payload :: ResponseOf(i, r, payload, hdr, sealed) ==>
      ConsumeResponse(i, hdr, sealed).1 == Ok(payload)
  {
    if ConsumeResponse(i, hdr, sealed).1.Ok? && InForm(hdr) && i.remoteStatic.Point? {
      OpenedResponse(i, hdr, sealed);
    }
    forall r, payload | ResponseOf(i, r, payload, hdr, sealed)
      ensures ConsumeResponse(i, hdr, sealed).1 == Ok(payload) && InForm(hdr)
    {
      HonestResponse(i, r, payload);
    }
  }
}
