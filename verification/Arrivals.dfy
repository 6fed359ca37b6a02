/** Whatever arrives was sent: in any network, over any tables, routes and sessions, a handler is called only with what
    the node that it names handed to Send, and only at the node it was sent to. */
module Arrivals {
  import opened Bytes
  import opened Crypto
  import opened Forwarder
  import opened Network
  import opened Sessions
  import opened Routing
  import opened Layout
  import opened EndToEnd

  /** Of the keys in use each opens only its own boxes, and names its two nodes. */
  ghost predicate Keyed(c: Aead, w: World) {
    Correct(c) && Separates(c, w) && KeysName(w)
  }

  lemma SealForFits(c: Aead, w: World, x: PeerID, peer: PeerID, b: Buf, len: nat, off: nat, pad: nat, pick: Pick)
    requires Correct(c) && SealFor(c, w, x, peer, b, len, off, pad, pick).Some?
    ensures Sealable(w, x, peer, pick) && off + 16 <= len - pad - 16 && len - pad <= TPT_MTU
  {
    var key := w[x].store[pick.idx].hs.send.value;
    SealFits(c, b, len, off, pad, key, pick.idx, pick.nonce);
  }

  /** A box opens only at the node that the session it was sealed in names, and names the node that sealed it. */
  lemma OpensAsSealed(c: Aead, w: World, x: PeerID, peer: PeerID, y: PeerID, b: Buf, len: nat, off: nat, pad: nat,
                      pick: Pick, got: Buf)
    requires Keyed(c, w) && off + 8 <= TPT_MTU && SealFor(c, w, x, peer, b, len, off, pad, pick).Some?
    requires off + 16 <= len - pad - 16 && len - pad <= TPT_MTU
    requires got[off..len - pad] == SealFor(c, w, x, peer, b, len, off, pad, pick).value[off..len - pad]
    requires OpenAt(c, w, y, got, len, off, pad).Some?
    ensures y == peer && OpenAt(c, w, y, got, len, off, pad).value.0 == x
    ensures x != EMPTY_PEER && y != EMPTY_PEER ==> Linked(w, x, y, pick)
  {
    var key := w[x].store[pick.idx].hs.send.value;
    SealCarries(c, b, len, off, pad, key, pick.idx, pick.nonce, got);
    var other := w[y].store[pick.idx].hs.receive.value;
    assert CanSeal(w, x, pick.idx) && CanOpen(w, y, pick.idx);
    if key != other {
      WrongKeyRefused(c, b, len, off, pad, key, pick.idx, pick.nonce, got, other);
      assert false;
    }
  }

  /** What crosses a link does so in a paired session with an address. */
  lemma CrossedAdjacent(c: Aead, w: World, x: PeerID, y: PeerID, b: Buf, len: nat, pick: Pick)
    requires Keyed(c, w) && Cross(c, w, x, y, b, len, pick).Some?
    ensures 32 <= len <= TPT_MTU && Adjacent(w, x, y, pick)
  {
    SealForFits(c, w, x, y, b, len, 0, 0, pick);
    var sealed := SealFor(c, w, x, y, b, len, 0, 0, pick).value;
    var got: Buf := sealed[..len] + Zeros(TPT_MTU - len);
    assert got[0..len] == sealed[0..len];
    OpensAsSealed(c, w, x, y, y, b, len, 0, 0, pick, got);
  }

  /** One hop of a relay that gets somewhere. */
  lemma RelayUnfolds(c: Aead, w: World, x: PeerID, y: PeerID, b: Buf, len: nat, picks: seq<Pick>)
    returns (got: Buf, hdr: Header, sink: Sink, dst: PeerID)
    requires Relay(c, w, x, y, b, len, picks).Reached?
    ensures picks != [] && Cross(c, w, x, y, b, len, picks[0]).Some?
    ensures Cross(c, w, x, y, b, len, picks[0]).value.1 == got
    ensures Relay(c, w, x, y, b, len, picks)
         == if sink == Local then Reached(y, Put(got, 20, hdr))
            else Relay(c, w, y, dst, Put(got, 20, hdr), len, picks[1..])
  {
    var (src, raw) := Cross(c, w, x, y, b, len, picks[0]).value;
    var v := Handle(w[y].tables, raw[20..36], src);
    got, hdr, sink, dst := raw, v.hdr, v.slot.sink, v.dst;
  }

  /** Wherever a packet is taken, its upper part stays as it was. */
  lemma {:induction false} RelayKeepsUpper(c: Aead, w: World, x: PeerID, y: PeerID, b: Buf, len: nat, picks: seq<Pick>)
    requires Keyed(c, w) && 52 <= len <= TPT_MTU && Relay(c, w, x, y, b, len, picks).Reached?
    ensures x != EMPTY_PEER && Relay(c, w, x, y, b, len, picks).node != EMPTY_PEER
    ensures Relay(c, w, x, y, b, len, picks).buf[36..len - 16] == b[36..len - 16]
    decreases |picks|
  {
    var got, hdr, sink, dst := RelayUnfolds(c, w, x, y, b, len, picks);
    CrossedAdjacent(c, w, x, y, b, len, picks[0]);
    CrossKeeps(c, w, x, y, b, len, picks[0]);
    RelabelKeeps(b, got, hdr, len);
    if sink != Local {
      RelayKeepsUpper(c, w, y, dst, Put(got, 20, hdr), len, picks[1..]);
    }
  }

  /** A routed packet that gets somewhere carries what was sealed. */
  lemma RoutedCarries(c: Aead, w: World, a: PeerID, to: PeerID, b: Buf, len: nat, route: seq<byte>, up: Pick,
                      picks: seq<Pick>)
    requires Keyed(c, w) && 1 <= |route| <= 14 && len <= TPT_MTU
    requires Routed(c, w, a, to, b, len, route, up, picks).Reached?
    ensures a != EMPTY_PEER && SealFor(c, w, a, to, b, len, 36, 16, up).Some? && 84 <= len
    ensures
      var r, sealed := Routed(c, w, a, to, b, len, route, up, picks), SealFor(c, w, a, to, b, len, 36, 16, up).value;
      r.node != EMPTY_PEER && r.buf[36..len - 16] == sealed[36..len - 16]
  {
    SealForFits(c, w, a, to, b, len, 36, 16, up);
    var sealed := SealFor(c, w, a, to, b, len, 36, 16, up).value;
    var b' := SetCodec(sealed, 16, FORWARDER_CODEC).value;
    var dst := Originate(w[a].tables, route).dst;
    assert Routed(c, w, a, to, b, len, route, up, picks) == Relay(c, w, a, dst, b', len, picks);
    CodecKeeps(sealed, 16, FORWARDER_CODEC, 36, len - 16);
    RelayKeepsUpper(c, w, a, dst, b', len, picks);
  }

  /** What the slow path delivers. */
  lemma RoutedAsSent(c: Aead, w: World, a: PeerID, to: PeerID, codec: nat, payload: seq<byte>, route: seq<byte>,
                     up: Pick, picks: seq<Pick>, b: Buf)
    requires Keyed(c, w) && 1 <= |route| <= 14 && |payload| <= 1364
    requires CodecAt(b, 52) == Some(codec) && b[56..56 + |payload|] == payload
    requires SendRouted(c, w, a, to, b, 88 + |payload|, route, up, picks).Some?
    ensures SendRouted(c, w, a, to, b, 88 + |payload|, route, up, picks) == Some(Delivery(to, codec, payload, a))
  {
    var len := 88 + |payload|;
    RoutedCarries(c, w, a, to, b, len, route, up, picks);
    var r := Routed(c, w, a, to, b, len, route, up, picks);
    assert OpenAt(c, w, r.node, r.buf, len, 36, 16).Some?;
    OpensAsSealed(c, w, a, to, r.node, b, len, 36, 16, up, r.buf);
    UpperOpens(c, w, a, to, b, r.buf, up, codec, payload);
  }

  lemma DirectAsSent(c: Aead, w: World, a: PeerID, to: PeerID, codec: nat, payload: seq<byte>, route: seq<byte>,
                     pick: Pick)
    requires Keyed(c, w) && |route| == 1 && codec < 0x1000_0000 && |payload| <= 1364
    requires Compose(codec, payload, route).Some?
    requires SendDirect(c, w, a, to, Compose(codec, payload, route).value, 88 + |payload|, pick).Some?
    ensures SendDirect(c, w, a, to, Compose(codec, payload, route).value, 88 + |payload|, pick)
         == Some(Delivery(to, codec, payload, a))
  {
    var b := SetCodec(Compose(codec, payload, route).value, 16, DIRECT_CODEC).value;
    CrossedAdjacent(c, w, a, to, b, 88 + |payload|, pick);
    DirectDelivers(c, w, a, to, codec, payload, route, pick);
  }

  /** Nothing is delivered but to the node it was sent to, with the codec and the payload that were sent and the sender
      as source.  Routes and tables may be anything: a packet that they lead astray reaches no handler. */
  lemma ArrivesAsSent(c: Aead, w: World, a: PeerID, to: PeerID, codec: nat, payload: seq<byte>, route: seq<byte>,
                      up: Pick, picks: seq<Pick>)
    requires Keyed(c, w) && picks != [] && SendAlong(c, w, a, to, codec, payload, route, up, picks).Some?
    ensures SendAlong(c, w, a, to, codec, payload, route, up, picks) == Some(Delivery(to, codec, payload, a))
    ensures codec < 0x1000_0000 && |payload| <= 1364
  {
    if |payload| > 1364 {
      TooLongAlong(c, w, a, to, codec, payload, route, up, picks);
      assert false;
    }
    CodecReadsBack(Zeros(TPT_MTU), 52, codec);
    ComposeShape(codec, payload, route);
    var b := Compose(codec, payload, route).value;
    if |route| == 1 {
      DirectAsSent(c, w, a, to, codec, payload, route, picks[0]);
    } else {
      RoutedAsSent(c, w, a, to, codec, payload, route, up, picks, b);
    }
  }

  lemma TooLongAlong(c: Aead, w: World, a: PeerID, to: PeerID, codec: nat, payload: seq<byte>, route: seq<byte>,
                     up: Pick, picks: seq<Pick>)
    requires Correct(c) && picks != [] && |payload| > 1364
    ensures SendAlong(c, w, a, to, codec, payload, route, up, picks) == None
  {
    var len := 88 + |payload|;
    forall x, y, b, pick
      ensures Cross(c, w, x, y, b, len, pick).None?
    {
      TooLongForLink(c, w, x, y, b, len, pick);
    }
  }
}
