/** A payload from one node's Send to another node's handler: upper seal, then lower seal, wire, lower open and
    forwarding at every hop, then upper open. */
module EndToEnd {
  import opened Bytes
  import opened Crypto
  import opened Forwarder
  import opened Network
  import opened Sessions
  import opened Layout
  import opened Routing

  const FORWARDER_CODEC: nat := 0x12345
  const DIRECT_CODEC: nat := 0x12347

  datatype Node = Node(tables: Tables, store: map<Index, Session>, routes: Table, names: map<Address, PeerID>)

  type World = map<PeerID, Node>

  function NetOf(w: World): Net {
    map p | p in w :: w[p].tables
  }

  /** The session Find returned and the eight nonce bytes its counter gave. */
  datatype Pick = Pick(idx: Index, nonce: seq<byte>)

  /** The pick is of a finished session that `x` holds for `y`, and `y` holds the other end of it. */
  ghost predicate Linked(w: World, x: PeerID, y: PeerID, pick: Pick) {
    && |pick.nonce| == 8 && x in w && y in w && x != EMPTY_PEER && y != EMPTY_PEER
    && pick.idx in w[x].store && w[x].store[pick.idx].peer == y && w[x].store[pick.idx].hs.send.Some?
    && pick.idx in w[y].store && w[y].store[pick.idx].peer == x
    && w[y].store[pick.idx].hs.receive == w[x].store[pick.idx].hs.send
  }

  /** And `x` has an address for it, as sessions made over the lower layer do and those made over the upper do not. */
  ghost predicate Adjacent(w: World, x: PeerID, y: PeerID, pick: Pick) {
    Linked(w, x, y, pick) && w[x].store[pick.idx].addr.Some?
  }

  /** CreateData at `x` for `peer`. */
  function SealFor(c: Aead, w: World, x: PeerID, peer: PeerID, b: Buf, len: nat, off: nat, pad: nat,
                   pick: Pick): Option<Buf> {
    if x !in w || pick.idx !in w[x].store || |pick.nonce| != 8 then None else
    var s := w[x].store[pick.idx];
    if s.peer != peer || s.hs.send.None? then None else
    Sealed(c, b, len, off, pad, s.hs.send.value, pick.idx, pick.nonce)
  }

  /** HandleData at `y`: the peer of the session and the opened buffer. */
  function OpenAt(c: Aead, w: World, y: PeerID, b: Buf, len: nat, off: nat, pad: nat): Option<(PeerID, Buf)>
    requires off + 8 <= TPT_MTU
  {
    if y !in w || IndexAt(b, off) !in w[y].store then None else
    var s := w[y].store[IndexAt(b, off)];
    if s.hs.receive.None? then None else
    match Opened(c, b, len, off, pad, s.hs.receive.value)
    case None => None
    case Some(b') => Some((s.peer, b'))
  }

  /** What a link hands over: the first `len` bytes, in a zeroed buffer.  None is Buf[:Length] out of range. */
  function Wire(b: Buf, len: nat): Option<Buf> {
    if len > TPT_MTU then None else Some(b[..len] + Zeros(TPT_MTU - len))
  }

  /** A buffer sent by `x` to `y` over the lower layer, up to doLowerMux at `y`: LowerSrc and the opened buffer.
      The queues drop packets to or from the zero PeerID, the transport those of a session without an address. */
  function Cross(c: Aead, w: World, x: PeerID, y: PeerID, b: Buf, len: nat, pick: Pick): Option<(PeerID, Buf)> {
    if y == EMPTY_PEER then None else
    match SealFor(c, w, x, y, b, len, 0, 0, pick)
    case None => None
    case Some(sealed) =>
      if w[x].store[pick.idx].addr.None? then None else
      match Wire(sealed, len)
      case None => None
      case Some(got) =>
        if got[..4] != DATA_TYPE then None else
        var r := OpenAt(c, w, y, got, len, 0, 0);
        if r.Some? && r.value.0 == EMPTY_PEER then None else r
  }

  /** Where doLowerMux hands an opened packet: the forwarder, this node's upper layer, or the handler of its codec. */
  datatype Mux = Unreadable | Forwarded | Direct | Handled(codec: nat)

  function LowerMux(b: Buf): Mux {
    match CodecAt(b, 16)
    case None => Unreadable
    case Some(codec) =>
      if codec == FORWARDER_CODEC then Forwarded
      else if codec == DIRECT_CODEC then Direct
      else Handled(codec)
  }

  datatype Transit = Reached(node: PeerID, buf: Buf) | Lost

  /** A forwarder packet that `x` sends to `y`, and all its further hops; one pick per link. */
  function Relay(c: Aead, w: World, x: PeerID, y: PeerID, b: Buf, len: nat, picks: seq<Pick>): Transit
    decreases |picks|
  {
    if picks == [] then Lost else
    match Cross(c, w, x, y, b, len, picks[0])
    case None => Lost
    case Some((src, got)) =>
      if y !in w || LowerMux(got) != Forwarded then Lost else
      match Handle(w[y].tables, got[20..36], src)
      case Emit(Entry(_, sink), hdr, dst) =>
        var b' := Put(got, 20, hdr);
        if sink == Local then Reached(y, b') else Relay(c, w, y, dst, b', len, picks[1..])
      case _ => Lost
  }

  /** What the upper handler is called with. */
  datatype Delivery = Delivery(node: PeerID, codec: nat, payload: seq<byte>, src: PeerID)

  /** doUpperMux */
  function UpperMux(node: PeerID, src: PeerID, b: Buf, len: nat): Option<Delivery> {
    match CodecAt(b, 52)
    case None => None
    case Some(codec) => if 56 <= len - 32 <= TPT_MTU then Some(Delivery(node, codec, b[56..len - 32], src)) else None
  }

  /** doUpperRecv and doUpperMux at the node that was reached */
  function UpperRecv(c: Aead, w: World, node: PeerID, b: Buf, len: nat): Option<Delivery> {
    if b[36] != 4 then None else
    match OpenAt(c, w, node, b, len, 36, 16)
    case None => None
    case Some((src, b')) => UpperMux(node, src, b', len)
  }

  /** The buffer that Send builds, 88 bytes longer than the payload. */
  function Compose(codec: nat, payload: seq<byte>, route: seq<byte>): Option<Buf>
    requires |route| <= 14
  {
    match SetCodec(Zeros(TPT_MTU), 52, codec)
    case None => None
    case Some(b) =>
      if 56 + |payload| > TPT_MTU then None
      else Some(Put(Put(b, 20, RouteHeader(route)), 56, payload))
  }

  /** The slow path of doUpperSend: sealed for the destination, handed to the forwarder, relayed. */
  function Routed(c: Aead, w: World, a: PeerID, to: PeerID, b: Buf, len: nat, route: seq<byte>, up: Pick,
                  picks: seq<Pick>): Transit
    requires 1 <= |route| <= 14
  {
    if a !in w then Lost else
    match SealFor(c, w, a, to, b, len, 36, 16, up)
    case None => Lost
    case Some(sealed) =>
      match SetCodec(sealed, 16, FORWARDER_CODEC)
      case None => Lost
      case Some(b') =>
        match Originate(w[a].tables, route)
        case Emit(Entry(_, Link), _, dst) => Relay(c, w, a, dst, b', len, picks)
        case _ => Lost
  }

  function SendRouted(c: Aead, w: World, a: PeerID, to: PeerID, b: Buf, len: nat, route: seq<byte>, up: Pick,
                      picks: seq<Pick>)
    : Option<Delivery>
    requires 1 <= |route| <= 14
  {
    match Routed(c, w, a, to, b, len, route, up, picks)
    case Lost => None
    case Reached(node, got) => UpperRecv(c, w, node, got, len)
  }

  /** The route that doUpperRecv adds for the sender of a packet. */
  function LearnedRoute(b: Buf): (route: seq<byte>)
    requires b[21] <= 14
    ensures |route| == b[21]
  {
    Rev(Label(b[20..36]))
  }

  /** The shortcut of doUpperSend on one hop: not sealed for the upper layer, sent straight to the destination. */
  function SendDirect(c: Aead, w: World, a: PeerID, to: PeerID, b: Buf, len: nat, pick: Pick): Option<Delivery> {
    match SetCodec(b, 16, DIRECT_CODEC)
    case None => None
    case Some(b') =>
      match Cross(c, w, a, to, b', len, pick)
      case None => None
      case Some((src, got)) =>
        if LowerMux(got) != Direct then None else UpperMux(to, src, got, len)
  }

  /** Either path, for a payload and the route it is given. */
  function SendAlong(c: Aead, w: World, a: PeerID, to: PeerID, codec: nat, payload: seq<byte>, route: seq<byte>,
                     up: Pick, picks: seq<Pick>): Option<Delivery>
    requires picks != []
  {
    if to == EMPTY_PEER || !(1 <= |route| <= 14) then None else
    match Compose(codec, payload, route)
    case None => None
    case Some(b) =>
      if |route| == 1 then SendDirect(c, w, a, to, b, 88 + |payload|, picks[0])
      else SendRouted(c, w, a, to, b, 88 + |payload|, route, up, picks)
  }

  /** Node.Send and everything after it: along the first route known for the destination. */
  function Send(c: Aead, w: World, a: PeerID, to: PeerID, codec: nat, payload: seq<byte>, up: Pick, picks: seq<Pick>)
    : Option<Delivery>
    requires picks != []
  {
    if a !in w then None else
    match GetRoute(w[a].routes, to)
    case None => None
    case Some(route) => SendAlong(c, w, a, to, codec, payload, route, up, picks)
  }

  /** AddRoute at a node. */
  function Learned(w: World, ip: PeerID -> Address, node: PeerID, peer: PeerID, route: seq<byte>): World
    requires node in w
  {
    var n := w[node];
    w[node := n.(routes := Added(n.routes, peer, route), names := Named(n.routes, n.names, ip, peer, route))]
  }

  /** What the routing table has for a destination address: LookupIPv6, then GetRoute. */
  function RouteTo(w: World, a: PeerID, dst: seq<byte>): Option<seq<byte>> {
    if a !in w || |dst| != 16 || dst !in w[a].names then None else GetRoute(w[a].routes, w[a].names[dst])
  }

  /** No other peer in the table of `x` has the address of `y`. */
  ghost predicate OwnAddress(w: World, ip: PeerID -> Address, x: PeerID, y: PeerID) {
    x in w && y in w[x].routes && forall q <- w[x].routes :: ip(q) == ip(y) ==> q == y
  }

  /** The addresses of a node are those of the peers in its table. */
  ghost predicate Addressed(w: World, ip: PeerID -> Address, x: PeerID) {
    x in w && Resolves(w[x].routes, w[x].names, ip)
  }

  /** A peer is found by its address as it is by its name. */
  lemma RouteByAddress(w: World, ip: PeerID -> Address, x: PeerID, y: PeerID)
    requires Addressed(w, ip, x) && OwnAddress(w, ip, x, y)
    ensures ip(y) in w[x].names && w[x].names[ip(y)] == y
    ensures RouteTo(w, x, ip(y)) == GetRoute(w[x].routes, y)
  {
  }

  /** What a node learns it finds by address as well: the new peer by this route if it had none, all others as
      before. */
  lemma LearnedByAddress(w: World, ip: PeerID -> Address, x: PeerID, y: PeerID, route: seq<byte>)
    requires Addressed(w, ip, x) && (forall q <- w[x].routes :: w[x].routes[q] != [])
    requires OwnAddress(Learned(w, ip, x, y, route), ip, x, y)
    ensures Addressed(Learned(w, ip, x, y, route), ip, x)
    ensures RouteTo(Learned(w, ip, x, y, route), x, ip(y))
         == if y in w[x].routes then GetRoute(w[x].routes, y) else Some(route)
    ensures forall q <- w[x].routes :: ip(q) != ip(y) ==>
      RouteTo(Learned(w, ip, x, y, route), x, ip(q)) == RouteTo(w, x, ip(q))
  {
    RouteByAddress(Learned(w, ip, x, y, route), ip, x, y);
  }

  // ---------------------------------------------------------------- one link

  /** A link hands over everything between the lower header and the lower tag, and names the sender. */
  lemma CrossKeeps(c: Aead, w: World, x: PeerID, y: PeerID, b: Buf, len: nat, pick: Pick)
    requires Correct(c) && Adjacent(w, x, y, pick) && 32 <= len <= TPT_MTU
    ensures
      var r := Cross(c, w, x, y, b, len, pick);
      r.Some? && r.value.0 == x && r.value.1[16..len - 16] == b[16..len - 16]
  {
    var key := w[x].store[pick.idx].hs.send.value;
    SealFits(c, b, len, 0, 0, key, pick.idx, pick.nonce);
    var sealed := Sealed(c, b, len, 0, 0, key, pick.idx, pick.nonce).value;
    var got: Buf := sealed[..len] + Zeros(TPT_MTU - len);
    assert got[0..len] == sealed[0..len];
    SealOpens(c, b, len, 0, 0, key, pick.idx, pick.nonce, got);
    assert got[..4] == got[0..4];
  }

  /** And nothing behind the packet's own bytes. */
  lemma CrossClean(c: Aead, w: World, x: PeerID, y: PeerID, b: Buf, len: nat, pick: Pick)
    requires Correct(c) && Adjacent(w, x, y, pick) && 32 <= len <= TPT_MTU
    ensures Cross(c, w, x, y, b, len, pick).Some?
    ensures Cross(c, w, x, y, b, len, pick).value.1[len..] == Zeros(TPT_MTU - len)
  {
    CrossKeeps(c, w, x, y, b, len, pick);
    var key := w[x].store[pick.idx].hs.send.value;
    var sealed := Sealed(c, b, len, 0, 0, key, pick.idx, pick.nonce).value;
    var got: Buf := sealed[..len] + Zeros(TPT_MTU - len);
    assert got[0..len] == sealed[0..len] && got[len..] == Zeros(TPT_MTU - len);
    SealOpens(c, b, len, 0, 0, key, pick.idx, pick.nonce, got);
  }

  /** What the upper layer takes in: exactly a data packet of a session it has, that opens, with a codec. */
  lemma UpperRecvIff(c: Aead, w: World, node: PeerID, b: Buf, len: nat)
    ensures UpperRecv(c, w, node, b, len).Some? <==>
      && b[36] == 4 && OpenAt(c, w, node, b, len, 36, 16).Some? && 88 <= len <= TPT_MTU + 32
      && CodecAt(OpenAt(c, w, node, b, len, 36, 16).value.1, 52).Some?
  {
  }

  /** Found for the lower layer, a session without an address loses the packet, paired or not. */
  lemma NoAddressNoLink(c: Aead, w: World, x: PeerID, y: PeerID, b: Buf, len: nat, pick: Pick)
    requires x in w && pick.idx in w[x].store && w[x].store[pick.idx].addr.None?
    ensures Cross(c, w, x, y, b, len, pick) == None
  {
  }

  /** A packet longer than the buffer never gets onto a link. */
  lemma TooLongForLink(c: Aead, w: World, x: PeerID, y: PeerID, b: Buf, len: nat, pick: Pick)
    requires Correct(c) && len > TPT_MTU
    ensures Cross(c, w, x, y, b, len, pick).None?
  {
    if SealFor(c, w, x, y, b, len, 0, 0, pick).Some? {
      assert Wire(SealFor(c, w, x, y, b, len, 0, 0, pick).value, len).None?;
    }
  }

  // ---------------------------------------------------------------- all links

  /** A forwarder packet at path[k], ready for the link to path[k+1]. */
  ghost predicate Ready(net: Net, path: seq<PeerID>, fwd: seq<byte>, k: nat, b: Buf) {
    && |path| == |fwd| + 1 && k < |fwd| <= 13
    && CodecAt(b, 16) == Some(FORWARDER_CODEC)
    && b[20..36] == MidHeader(net, path, fwd, k)
  }

  /** The rewritten label leaves the lower codec and the upper packet alone. */
  lemma RelabelKeeps(b: Buf, got: Buf, hdr: Header, len: nat)
    requires 52 <= len <= TPT_MTU && got[16..len - 16] == b[16..len - 16]
    ensures CodecAt(got, 16) == CodecAt(b, 16) && got[20..36] == b[20..36]
    ensures
      var r := Put(got, 20, hdr);
      CodecAt(r, 16) == CodecAt(b, 16) && r[20..36] == hdr && r[36..len - 16] == b[36..len - 16]
  {
    SubSlice(got, b, 16, len - 16, 16, 20);
    SubSlice(got, b, 16, len - 16, 20, 36);
    SubSlice(got, b, 16, len - 16, 36, len - 16);
    PutOutside(got, 20, hdr, 16, 20);
    PutOutside(got, 20, hdr, 36, len - 16);
  }

  /** One hop of a relay, opened, read and handed on. */
  lemma RelayHop(c: Aead, w: World, path: seq<PeerID>, fwd: seq<byte>, k: nat, b: Buf, len: nat, picks: seq<Pick>)
    returns (b': Buf)
    requires Correct(c) && Ready(NetOf(w), path, fwd, k, b) && 52 <= len <= TPT_MTU
    requires Knows(NetOf(w), path, fwd, k) && picks != [] && Adjacent(w, path[k], path[k + 1], picks[0])
    ensures b'[36..len - 16] == b[36..len - 16]
    ensures k < |fwd| - 1 ==>
      && Ready(NetOf(w), path, fwd, k + 1, b')
      && Relay(c, w, path[k], path[k + 1], b, len, picks) == Relay(c, w, path[k + 1], path[k + 2], b', len, picks[1..])
    ensures k == |fwd| - 1 ==>
      && b'[20..36] == LastHeader(NetOf(w), path)
      && Relay(c, w, path[k], path[k + 1], b, len, picks) == Reached(path[k + 1], b')
  {
    var x, y, net := path[k], path[k + 1], NetOf(w);
    CrossKeeps(c, w, x, y, b, len, picks[0]);
    var got := Cross(c, w, x, y, b, len, picks[0]).value.1;
    HandleOnTrail(net, path, fwd, k);
    var hdr := Handle(net[y], MidHeader(net, path, fwd, k), x).hdr;
    RelabelKeeps(b, got, hdr, len);
    b' := Put(got, 20, hdr);
  }

  /** What holds on the whole way: each node knows its neighbours, each link has a session. */
  ghost predicate Prepared(w: World, path: seq<PeerID>, fwd: seq<byte>, picks: seq<Pick>) {
    && |path| == |fwd| + 1 && |picks| == |fwd|
    && (forall k :: 0 <= k < |fwd| ==> Knows(NetOf(w), path, fwd, k))
    && (forall k :: 0 <= k < |fwd| ==> Adjacent(w, path[k], path[k + 1], picks[k]))
  }

  lemma {:induction false} RelayTrail(c: Aead, w: World, path: seq<PeerID>, fwd: seq<byte>, k: nat, b: Buf,
                                      len: nat, picks: seq<Pick>)
    requires Correct(c) && Prepared(w, path, fwd, picks)
    requires Ready(NetOf(w), path, fwd, k, b) && 52 <= len <= TPT_MTU
    ensures
      var r := Relay(c, w, path[k], path[k + 1], b, len, picks[k..]);
      && r.Reached? && r.node == path[|fwd|]
      && r.buf[20..36] == LastHeader(NetOf(w), path) && r.buf[36..len - 16] == b[36..len - 16]
    decreases |fwd| - k
  {
    assert picks[k..][0] == picks[k] && picks[k..][1..] == picks[k + 1..];
    var b' := RelayHop(c, w, path, fwd, k, b, len, picks[k..]);
    if k < |fwd| - 1 {
      RelayTrail(c, w, path, fwd, k + 1, b', len, picks);
    }
  }

  // ---------------------------------------------------------------- the upper layer

  /** What SetRoute writes is the header that the forwarders read. */
  lemma LabelIsHeader(route: seq<byte>)
    requires |route| <= 14
    ensures LabelBytes(route) == RouteHeader(route)
  {
  }

  lemma ComposeShape(codec: nat, payload: seq<byte>, route: seq<byte>)
    requires |route| <= 14 && codec < 0x1000_0000 && |payload| <= 1396
    ensures
      var r := Compose(codec, payload, route);
      && r.Some?
      && CodecAt(r.value, 52) == Some(codec) && r.value[56..56 + |payload|] == payload
      && r.value[20..36] == RouteHeader(route)
  {
    CodecReadsBack(Zeros(TPT_MTU), 52, codec);
    var b := SetCodec(Zeros(TPT_MTU), 52, codec).value;
    var b' := Put(b, 20, RouteHeader(route));
    PutOutside(b, 20, RouteHeader(route), 52, 56);
    PutOutside(b', 56, payload, 52, 56);
    PutOutside(b', 56, payload, 20, 36);
  }

  /** The upper handler sees the codec and the payload that are in the plain part of the buffer. */
  lemma MuxShape(node: PeerID, src: PeerID, b: Buf, got: Buf, codec: nat, payload: seq<byte>)
    requires |payload| <= 1364 && CodecAt(b, 52) == Some(codec) && b[56..56 + |payload|] == payload
    requires got[52..56 + |payload|] == b[52..56 + |payload|]
    ensures UpperMux(node, src, got, 88 + |payload|) == Some(Delivery(node, codec, payload, src))
  {
    SubSlice(got, b, 52, 56 + |payload|, 52, 56);
    SubSlice(got, b, 52, 56 + |payload|, 56, 56 + |payload|);
  }

  /** Whatever happened to the label on the way, the upper packet opens at the destination. */
  lemma UpperOpens(c: Aead, w: World, a: PeerID, to: PeerID, b: Buf, got: Buf, up: Pick, codec: nat, payload: seq<byte>)
    requires Correct(c) && Linked(w, a, to, up) && |payload| <= 1364
    requires CodecAt(b, 52) == Some(codec) && b[56..56 + |payload|] == payload
    requires SealFor(c, w, a, to, b, 88 + |payload|, 36, 16, up).Some?
    requires
      var sealed := SealFor(c, w, a, to, b, 88 + |payload|, 36, 16, up).value;
      got[36..72 + |payload|] == sealed[36..72 + |payload|]
    ensures UpperRecv(c, w, to, got, 88 + |payload|) == Some(Delivery(to, codec, payload, a))
  {
    var len, key := 88 + |payload|, w[a].store[up.idx].hs.send.value;
    SealOpens(c, b, len, 36, 16, key, up.idx, up.nonce, got);
    assert got[36] == got[36..40][0];
    MuxShape(to, a, b, Opened(c, got, len, 36, 16, key).value, codec, payload);
  }

  /** A found session with keys. */
  predicate Sealable(w: World, x: PeerID, y: PeerID, pick: Pick) {
    && |pick.nonce| == 8 && x in w && pick.idx in w[x].store
    && w[x].store[pick.idx].peer == y && w[x].store[pick.idx].hs.send.Some?
  }

  /** Sealed for the upper layer and marked for the forwarder: ready for the first link. */
  lemma RoutedReady(c: Aead, w: World, a: PeerID, to: PeerID, b: Buf, len: nat, route: seq<byte>, up: Pick,
                    path: seq<PeerID>)
    requires Correct(c) && Sealable(w, a, to, up) && 84 <= len <= TPT_MTU
    requires |path| == |route| + 1 && 1 <= |route| <= 13 && b[20..36] == RouteHeader(route)
    ensures
      var sealed := SealFor(c, w, a, to, b, len, 36, 16, up);
      && sealed.Some?
      && SetCodec(sealed.value, 16, FORWARDER_CODEC).Some?
      && Ready(NetOf(w), path, route, 0, SetCodec(sealed.value, 16, FORWARDER_CODEC).value)
      && SetCodec(sealed.value, 16, FORWARDER_CODEC).value[36..len - 16] == sealed.value[36..len - 16]
  {
    var key := w[a].store[up.idx].hs.send.value;
    SealFits(c, b, len, 36, 16, key, up.idx, up.nonce);
    var sealed := Sealed(c, b, len, 36, 16, key, up.idx, up.nonce).value;
    CodecReadsBack(sealed, 16, FORWARDER_CODEC);
    var b' := SetCodec(sealed, 16, FORWARDER_CODEC).value;
    SealKeeps(c, b, len, 36, 16, key, up.idx, up.nonce, 20, 36);
    CodecKeeps(sealed, 16, FORWARDER_CODEC, 20, 36);
    CodecKeeps(sealed, 16, FORWARDER_CODEC, 36, len - 16);
    FirstHeader(NetOf(w), path, route);
  }

  lemma RelayAlong(c: Aead, w: World, path: seq<PeerID>, route: seq<byte>, back: seq<byte>, b: Buf, len: nat,
                   picks: seq<Pick>)
    requires Correct(c) && SoundNet(NetOf(w)) && Trail(NetOf(w), path, route, back)
    requires Ready(NetOf(w), path, route, 0, b) && 52 <= len <= TPT_MTU
    requires |picks| == |route| && forall i :: 0 <= i < |route| ==> Adjacent(w, path[i], path[i + 1], picks[i])
    ensures
      var r := Relay(c, w, path[0], path[1], b, len, picks);
      && r.Reached? && r.node == path[|route|] && r.buf[36..len - 16] == b[36..len - 16]
      && r.buf[20..36] == LastHeader(NetOf(w), path)
  {
    forall k | 0 <= k < |route|
      ensures Knows(NetOf(w), path, route, k)
    {
      TrailNode(NetOf(w), path, route, back, k);
    }
    assert picks[0..] == picks;
    RelayTrail(c, w, path, route, 0, b, len, picks);
  }

  lemma RoutedUnfolds(c: Aead, w: World, a: PeerID, to: PeerID, b: Buf, len: nat, route: seq<byte>, up: Pick,
                      picks: seq<Pick>, dst: PeerID, b': Buf)
    requires 1 <= |route| <= 14 && a in w && SealFor(c, w, a, to, b, len, 36, 16, up).Some?
    requires SetCodec(SealFor(c, w, a, to, b, len, 36, 16, up).value, 16, FORWARDER_CODEC) == Some(b')
    requires Originate(w[a].tables, route) == Emit(Entry(dst, Link), RouteHeader(route), dst)
    ensures Routed(c, w, a, to, b, len, route, up, picks) == Relay(c, w, a, dst, b', len, picks)
  {
  }

  /** The forwarder takes any packet with that label to the end of the trail, the upper packet untouched. */
  lemma RoutedReaches(c: Aead, w: World, path: seq<PeerID>, route: seq<byte>, back: seq<byte>, b: Buf, len: nat,
                      up: Pick, picks: seq<Pick>)
    requires Correct(c) && SoundNet(NetOf(w)) && Trail(NetOf(w), path, route, back) && 1 <= |route| <= 13
    requires |picks| == |route| && forall i :: 0 <= i < |route| ==> Adjacent(w, path[i], path[i + 1], picks[i])
    requires Sealable(w, path[0], path[|route|], up) && 84 <= len <= TPT_MTU && b[20..36] == RouteHeader(route)
    ensures
      var sealed := SealFor(c, w, path[0], path[|route|], b, len, 36, 16, up);
      var r := Routed(c, w, path[0], path[|route|], b, len, route, up, picks);
      && sealed.Some?
      && r.Reached? && r.node == path[|route|] && r.buf[20..36] == LastHeader(NetOf(w), path)
      && r.buf[36..len - 16] == sealed.value[36..len - 16]
  {
    var a, to := path[0], path[|route|];
    RoutedReady(c, w, a, to, b, len, route, up, path);
    var sealed := SealFor(c, w, a, to, b, len, 36, 16, up).value;
    var b' := SetCodec(sealed, 16, FORWARDER_CODEC).value;
    FirstLink(NetOf(w), path, route, back);
    RoutedUnfolds(c, w, a, to, b, len, route, up, picks, path[1], b');
    RelayAlong(c, w, path, route, back, b', len, picks);
  }

  /** The slow path delivers, over any trail of 1 to 13 hops, with the label of slots back. */
  lemma RoutedDelivers(c: Aead, w: World, path: seq<PeerID>, route: seq<byte>, back: seq<byte>,
                       codec: nat, payload: seq<byte>, up: Pick, picks: seq<Pick>)
    requires Correct(c) && SoundNet(NetOf(w)) && Trail(NetOf(w), path, route, back) && 1 <= |route| <= 13
    requires |picks| == |route| && forall i :: 0 <= i < |route| ==> Adjacent(w, path[i], path[i + 1], picks[i])
    requires Linked(w, path[0], path[|route|], up)
    requires codec < 0x1000_0000 && |payload| <= 1364
    ensures
      var b := Compose(codec, payload, route);
      && b.Some?
      && var r := Routed(c, w, path[0], path[|route|], b.value, 88 + |payload|, route, up, picks);
      && r.Reached? && r.node == path[|route|] && r.buf[20..36] == LastHeader(NetOf(w), path)
      && SendRouted(c, w, path[0], path[|route|], b.value, 88 + |payload|, route, up, picks)
           == Some(Delivery(path[|route|], codec, payload, path[0]))
  {
    var a, to, len := path[0], path[|route|], 88 + |payload|;
    ComposeShape(codec, payload, route);
    var b := Compose(codec, payload, route).value;
    RoutedReaches(c, w, path, route, back, b, len, up, picks);
    UpperOpens(c, w, a, to, b, Routed(c, w, a, to, b, len, route, up, picks).buf, up, codec, payload);
  }

  lemma FirstLink(net: Net, path: seq<PeerID>, route: seq<byte>, back: seq<byte>)
    requires Trail(net, path, route, back) && 1 <= |route| <= 14
    ensures path[0] in net && Originate(net[path[0]], route) == Emit(Entry(path[1], Link), RouteHeader(route), path[1])
  {
    assert Leads(net, path[0], route[0], path[1]);
  }

  /** The shortcut delivers to any linked peer. */
  lemma DirectDelivers(c: Aead, w: World, a: PeerID, to: PeerID, codec: nat, payload: seq<byte>, route: seq<byte>,
                       pick: Pick)
    requires Correct(c) && Adjacent(w, a, to, pick) && |route| == 1
    requires codec < 0x1000_0000 && |payload| <= 1364
    ensures
      var b := Compose(codec, payload, route);
      && b.Some?
      && SendDirect(c, w, a, to, b.value, 88 + |payload|, pick) == Some(Delivery(to, codec, payload, a))
  {
    var len := 88 + |payload|;
    ComposeShape(codec, payload, route);
    var b := Compose(codec, payload, route).value;
    CodecReadsBack(b, 16, DIRECT_CODEC);
    var b' := SetCodec(b, 16, DIRECT_CODEC).value;
    CrossKeeps(c, w, a, to, b', len, pick);
    var got := Cross(c, w, a, to, b', len, pick).value.1;
    SubSlice(got, b', 16, len - 16, 16, 20);
    SubSlice(got, b', 16, len - 16, 52, 56 + |payload|);
    CodecKeeps(b, 16, DIRECT_CODEC, 52, 56 + |payload|);
    MuxShape(to, a, b, got, codec, payload);
  }

  /** End-to-end delivery: over every trail of 1 to 13 hops whose links and whose two ends have paired sessions,
      whichever sessions are found and whatever the nonces, the handler at the destination is called with the
      codec and the payload that were sent and with the sender as source. */
  lemma Delivers(c: Aead, w: World, path: seq<PeerID>, route: seq<byte>, back: seq<byte>,
                 codec: nat, payload: seq<byte>, up: Pick, picks: seq<Pick>)
    requires Correct(c) && SoundNet(NetOf(w)) && Trail(NetOf(w), path, route, back) && 1 <= |route| <= 13
    requires |picks| == |route| && forall i :: 0 <= i < |route| ==> Adjacent(w, path[i], path[i + 1], picks[i])
    requires Linked(w, path[0], path[|route|], up)
    requires codec < 0x1000_0000 && |payload| <= 1364
    ensures SendAlong(c, w, path[0], path[|route|], codec, payload, route, up, picks)
         == Some(Delivery(path[|route|], codec, payload, path[0]))
    ensures GetRoute(w[path[0]].routes, path[|route|]) == Some(route) ==>
      Send(c, w, path[0], path[|route|], codec, payload, up, picks)
         == Some(Delivery(path[|route|], codec, payload, path[0]))
  {
    if |route| == 1 {
      assert Adjacent(w, path[0], path[0 + 1], picks[0]);
      DirectDelivers(c, w, path[0], path[1], codec, payload, route, picks[0]);
    } else {
      RoutedDelivers(c, w, path, route, back, codec, payload, up, picks);
    }
  }

  /** 1364 bytes is the exact limit: a longer payload, with anything else, reaches no handler. */
  lemma TooLongNeverArrives(c: Aead, w: World, a: PeerID, to: PeerID, codec: nat, payload: seq<byte>,
                            up: Pick, picks: seq<Pick>)
    requires Correct(c) && picks != [] && |payload| > 1364
    ensures Send(c, w, a, to, codec, payload, up, picks) == None
  {
    var len := 88 + |payload|;
    forall x, y, b, pick
      ensures Cross(c, w, x, y, b, len, pick).None?
    {
      TooLongForLink(c, w, x, y, b, len, pick);
    }
  }

  /** The one-hop shortcut hands the handler the same codec, payload and source as the doubly sealed path would. */
  lemma ShortcutRefines(c: Aead, w: World, a: PeerID, to: PeerID, slot: byte, back: byte,
                        codec: nat, payload: seq<byte>, up: Pick, pick: Pick)
    requires Correct(c) && SoundNet(NetOf(w)) && Trail(NetOf(w), [a, to], [slot], [back])
    requires Adjacent(w, a, to, pick) && Linked(w, a, to, up)
    requires codec < 0x1000_0000 && |payload| <= 1364
    ensures
      var b := Compose(codec, payload, [slot]);
      && b.Some?
      && SendDirect(c, w, a, to, b.value, 88 + |payload|, pick)
           == SendRouted(c, w, a, to, b.value, 88 + |payload|, [slot], up, [pick])
           == Some(Delivery(to, codec, payload, a))
  {
    DirectDelivers(c, w, a, to, codec, payload, [slot], pick);
    RoutedDelivers(c, w, [a, to], [slot], [back], codec, payload, up, [pick]);
  }

  lemma LearnedKeeps(w: World, ip: PeerID -> Address, node: PeerID, peer: PeerID, route: seq<byte>,
                     x: PeerID, y: PeerID, pick: Pick)
    requires node in w
    ensures NetOf(Learned(w, ip, node, peer, route)) == NetOf(w)
    ensures Linked(w, x, y, pick) ==> Linked(Learned(w, ip, node, peer, route), x, y, pick)
    ensures Adjacent(w, x, y, pick) ==> Adjacent(Learned(w, ip, node, peer, route), x, y, pick)
  {
  }

  /** What arrives along a trail teaches the destination the reverse of a label that leads back. */
  lemma TeachesWayBack(c: Aead, w: World, path: seq<PeerID>, route: seq<byte>, back: seq<byte>,
                       codec: nat, payload: seq<byte>, up: Pick, picks: seq<Pick>)
    requires Correct(c) && SoundNet(NetOf(w)) && Trail(NetOf(w), path, route, back) && 1 <= |route| <= 13
    requires |picks| == |route| && forall i :: 0 <= i < |route| ==> Adjacent(w, path[i], path[i + 1], picks[i])
    requires Linked(w, path[0], path[|route|], up)
    requires codec < 0x1000_0000 && |payload| <= 1364
    ensures
      var b := Compose(codec, payload, route);
      && b.Some?
      && var r := Routed(c, w, path[0], path[|route|], b.value, 88 + |payload|, route, up, picks);
      && r.Reached? && r.buf[21] == |route|
      && LearnedRoute(r.buf) == Rev(BackLabel(NetOf(w), path))
      && Trail(NetOf(w), Rev(path), LearnedRoute(r.buf), Rev(route))
  {
    var net := NetOf(w);
    RoutedDelivers(c, w, path, route, back, codec, payload, up, picks);
    var b := Compose(codec, payload, route).value;
    var r := Routed(c, w, path[0], path[|route|], b, 88 + |payload|, route, up, picks);
    LastLabel(net, path);
    assert r.buf[21] == r.buf[20..36][1];
    BackLabelLeadsBack(net, path, route, back);
    TrailReverses(net, path, route, BackLabel(net, path));
  }

  /** Round trip: a destination that knew no route to the sender sends any reply along the one it learns from the
      packet, over the same nodes, and the reply is delivered to the sender. */
  lemma ReplyDelivers(c: Aead, w: World, ip: PeerID -> Address, path: seq<PeerID>, route: seq<byte>, back: seq<byte>,
                      codec: nat, payload: seq<byte>, up: Pick, picks: seq<Pick>,
                      codec': nat, payload': seq<byte>, up': Pick, picks': seq<Pick>)
    requires Correct(c) && SoundNet(NetOf(w)) && Trail(NetOf(w), path, route, back) && 2 <= |route| <= 13
    requires |picks| == |route| && forall i :: 0 <= i < |route| ==> Adjacent(w, path[i], path[i + 1], picks[i])
    requires |picks'| == |route|
    requires forall i :: 0 <= i < |route| ==> Adjacent(w, Rev(path)[i], Rev(path)[i + 1], picks'[i])
    requires Linked(w, path[0], path[|route|], up) && Linked(w, path[|route|], path[0], up')
    requires codec < 0x1000_0000 && |payload| <= 1364 && codec' < 0x1000_0000 && |payload'| <= 1364
    requires path[0] !in w[path[|route|]].routes
    ensures
      var b := Compose(codec, payload, route);
      && b.Some?
      && var r := Routed(c, w, path[0], path[|route|], b.value, 88 + |payload|, route, up, picks);
      && r.Reached? && r.buf[21] == |route|
      && Send(c, Learned(w, ip, path[|route|], path[0], LearnedRoute(r.buf)), path[|route|], path[0],
              codec', payload', up', picks')
           == Some(Delivery(path[0], codec', payload', path[|route|]))
  {
    TeachesWayBack(c, w, path, route, back, codec, payload, up, picks);
    var b := Compose(codec, payload, route).value;
    var r := Routed(c, w, path[0], path[|route|], b, 88 + |payload|, route, up, picks);
    LearnedReply(c, w, ip, Rev(path), LearnedRoute(r.buf), Rev(route), codec', payload', up', picks');
  }

  lemma LearnedReply(c: Aead, w: World, ip: PeerID -> Address, path: seq<PeerID>, route: seq<byte>, back: seq<byte>,
                     codec: nat, payload: seq<byte>, up: Pick, picks: seq<Pick>)
    requires Correct(c) && SoundNet(NetOf(w)) && Trail(NetOf(w), path, route, back) && 1 <= |route| <= 13
    requires |picks| == |route| && forall i :: 0 <= i < |route| ==> Adjacent(w, path[i], path[i + 1], picks[i])
    requires Linked(w, path[0], path[|route|], up)
    requires codec < 0x1000_0000 && |payload| <= 1364 && path[|route|] !in w[path[0]].routes
    ensures Send(c, Learned(w, ip, path[0], path[|route|], route), path[0], path[|route|], codec, payload, up, picks)
         == Some(Delivery(path[|route|], codec, payload, path[0]))
  {
    var w' := Learned(w, ip, path[0], path[|route|], route);
    forall i | 0 <= i < |route|
      ensures Adjacent(w', path[i], path[i + 1], picks[i])
    {
      LearnedKeeps(w, ip, path[0], path[|route|], route, path[i], path[i + 1], picks[i]);
    }
    LearnedKeeps(w, ip, path[0], path[|route|], route, path[0], path[|route|], up);
    Delivers(c, w', path, route, back, codec, payload, up, picks);
  }

  /** Two managers' paired session is a link in both directions, with any nonce. */
  lemma PairedIsLinked(w: World, a: Manager, b: Manager, idx: Index, nonce: seq<byte>)
    requires Paired(a, b, idx) && |nonce| == 8
    requires Self(a) in w && w[Self(a)].store == a.store && Self(b) in w && w[Self(b)].store == b.store
    ensures Linked(w, Self(a), Self(b), Pick(idx, nonce)) && Linked(w, Self(b), Self(a), Pick(idx, nonce))
    ensures a.store[idx].addr.Some? ==> Adjacent(w, Self(a), Self(b), Pick(idx, nonce))
  {
  }

  // ---------------------------------------------------------------- whichever sessions are found

  /** Any session of `x` for `y` is one that Find may return. */
  predicate Found(w: World, x: PeerID, y: PeerID, pick: Pick) {
    && |pick.nonce| == 8 && x in w && y in w && x != EMPTY_PEER && y != EMPTY_PEER
    && pick.idx in w[x].store && w[x].store[pick.idx].peer == y
  }

  predicate CanSeal(w: World, x: PeerID, i: Index) {
    x in w && i in w[x].store && w[x].store[i].hs.send.Some?
  }

  predicate CanOpen(w: World, y: PeerID, j: Index) {
    y in w && j in w[y].store && w[y].store[j].hs.receive.Some?
  }

  /** Among the keys in use, what is sealed with one opens with no other. */
  ghost predicate Separates(c: Aead, w: World) {
    forall x, i, y, j :: CanSeal(w, x, i) && CanOpen(w, y, j) ==>
      var key, other := w[x].store[i].hs.send.value, w[y].store[j].hs.receive.value;
      key == other || Refuses(c, key, other)
  }

  /** Two sessions under one index of which one opens what the other seals name each other's nodes. */
  ghost predicate KeysName(w: World) {
    forall x, y, j :: CanSeal(w, x, j) && CanOpen(w, y, j) ==>
      w[y].store[j].hs.receive == w[x].store[j].hs.send ==> w[y].store[j].peer == x && w[x].store[j].peer == y
  }

  /** A sealed packet is refused where its session has no other end. */
  lemma OpenLost(c: Aead, w: World, x: PeerID, y: PeerID, b: Buf, len: nat, off: nat, pad: nat, pick: Pick, got: Buf)
    requires Correct(c) && Separates(c, w) && KeysName(w) && Found(w, x, y, pick) && !Linked(w, x, y, pick)
    requires off + 16 <= len - pad - 16 && len - pad <= TPT_MTU && SealFor(c, w, x, y, b, len, off, pad, pick).Some?
    requires got[off..len - pad] == SealFor(c, w, x, y, b, len, off, pad, pick).value[off..len - pad]
    ensures OpenAt(c, w, y, got, len, off, pad) == None
  {
    var key := w[x].store[pick.idx].hs.send.value;
    SealCarries(c, b, len, off, pad, key, pick.idx, pick.nonce, got);
    if pick.idx in w[y].store && w[y].store[pick.idx].hs.receive.Some? {
      var other := w[y].store[pick.idx].hs.receive.value;
      assert CanSeal(w, x, pick.idx) && CanOpen(w, y, pick.idx) && key != other;
      WrongKeyRefused(c, b, len, off, pad, key, pick.idx, pick.nonce, got, other);
    }
  }

  lemma UnlinkedLost(c: Aead, w: World, x: PeerID, y: PeerID, b: Buf, len: nat, pick: Pick)
    requires Correct(c) && Separates(c, w) && KeysName(w) && Found(w, x, y, pick) && 32 <= len <= TPT_MTU
    requires !Linked(w, x, y, pick) && SealFor(c, w, x, y, b, len, 0, 0, pick).Some?
    ensures Cross(c, w, x, y, b, len, pick) == None
  {
    var sealed := SealFor(c, w, x, y, b, len, 0, 0, pick).value;
    var got: Buf := sealed[..len] + Zeros(TPT_MTU - len);
    assert got[0..len] == sealed[0..len];
    OpenLost(c, w, x, y, b, len, 0, 0, pick, got);
  }

  /** The exact condition on the session found for a link. */
  lemma CrossIff(c: Aead, w: World, x: PeerID, y: PeerID, b: Buf, len: nat, pick: Pick)
    requires Correct(c) && Separates(c, w) && KeysName(w) && Found(w, x, y, pick) && 32 <= len <= TPT_MTU
    ensures Cross(c, w, x, y, b, len, pick).Some? <==> Adjacent(w, x, y, pick)
  {
    if Adjacent(w, x, y, pick) {
      CrossKeeps(c, w, x, y, b, len, pick);
    } else if Linked(w, x, y, pick) {
      NoAddressNoLink(c, w, x, y, b, len, pick);
    } else if SealFor(c, w, x, y, b, len, 0, 0, pick).Some? {
      UnlinkedLost(c, w, x, y, b, len, pick);
    }
  }

  /** The relay is lost at the first link whose session is not paired or has no address. */
  lemma {:induction false} RelayLost(c: Aead, w: World, path: seq<PeerID>, fwd: seq<byte>, k: nat, b: Buf, len: nat,
                                     picks: seq<Pick>, bad: nat)
    requires Correct(c) && Separates(c, w) && KeysName(w) && Ready(NetOf(w), path, fwd, k, b) && 52 <= len <= TPT_MTU
    requires |picks| == |fwd| && k <= bad < |fwd| && !Adjacent(w, path[bad], path[bad + 1], picks[bad])
    requires forall i :: 0 <= i < |fwd| ==> Knows(NetOf(w), path, fwd, i)
    requires forall i :: 0 <= i < |fwd| ==> Found(w, path[i], path[i + 1], picks[i])
    ensures Relay(c, w, path[k], path[k + 1], b, len, picks[k..]) == Lost
    decreases |fwd| - k
  {
    assert picks[k..][0] == picks[k] && picks[k..][1..] == picks[k + 1..];
    CrossIff(c, w, path[k], path[k + 1], b, len, picks[k]);
    if Adjacent(w, path[k], path[k + 1], picks[k]) {
      var b' := RelayHop(c, w, path, fwd, k, b, len, picks[k..]);
      RelayLost(c, w, path, fwd, k + 1, b', len, picks, bad);
    }
  }

  /** Every session found is good: each link's is paired and has an address, and over more than one hop that of the two
      ends is paired. */
  ghost predicate AllGood(w: World, path: seq<PeerID>, route: seq<byte>, up: Pick, picks: seq<Pick>)
    requires |path| == |route| + 1 && |picks| == |route|
  {
    && (forall i :: 0 <= i < |route| ==> Adjacent(w, path[i], path[i + 1], picks[i]))
    && (|route| == 1 || Linked(w, path[0], path[|route|], up))
  }

  lemma DirectIff(c: Aead, w: World, a: PeerID, to: PeerID, codec: nat, payload: seq<byte>, route: seq<byte>,
                  pick: Pick)
    requires Correct(c) && Separates(c, w) && KeysName(w) && Found(w, a, to, pick) && |route| == 1
    requires codec < 0x1000_0000 && |payload| <= 1364
    ensures
      var b := Compose(codec, payload, route);
      && b.Some?
      && SendDirect(c, w, a, to, b.value, 88 + |payload|, pick)
           == if Adjacent(w, a, to, pick) then Some(Delivery(to, codec, payload, a)) else None
  {
    ComposeShape(codec, payload, route);
    if Adjacent(w, a, to, pick) {
      DirectDelivers(c, w, a, to, codec, payload, route, pick);
    } else {
      var b' := SetCodec(Compose(codec, payload, route).value, 16, DIRECT_CODEC);
      if b'.Some? {
        CrossIff(c, w, a, to, b'.value, 88 + |payload|, pick);
      }
    }
  }

  /** The forwarder loses a packet whose links are not all good. */
  lemma RoutedLost(c: Aead, w: World, path: seq<PeerID>, route: seq<byte>, back: seq<byte>, b: Buf, len: nat,
                   up: Pick, picks: seq<Pick>, bad: nat)
    requires Correct(c) && Separates(c, w) && KeysName(w)
    requires SoundNet(NetOf(w)) && Trail(NetOf(w), path, route, back) && 1 <= |route| <= 13
    requires |picks| == |route| && forall i :: 0 <= i < |route| ==> Found(w, path[i], path[i + 1], picks[i])
    requires bad < |route| && !Adjacent(w, path[bad], path[bad + 1], picks[bad])
    requires 84 <= len <= TPT_MTU && b[20..36] == RouteHeader(route)
    ensures Routed(c, w, path[0], path[|route|], b, len, route, up, picks) == Lost
  {
    var a, to := path[0], path[|route|];
    if Sealable(w, a, to, up) {
      RoutedReady(c, w, a, to, b, len, route, up, path);
      var b' := SetCodec(SealFor(c, w, a, to, b, len, 36, 16, up).value, 16, FORWARDER_CODEC).value;
      FirstLink(NetOf(w), path, route, back);
      RoutedUnfolds(c, w, a, to, b, len, route, up, picks, path[1], b');
      forall k | 0 <= k < |route|
        ensures Knows(NetOf(w), path, route, k)
      {
        TrailNode(NetOf(w), path, route, back, k);
      }
      assert picks[0..] == picks;
      RelayLost(c, w, path, route, 0, b', len, picks, bad);
    }
  }

  lemma LostUnsent(c: Aead, w: World, a: PeerID, to: PeerID, b: Buf, len: nat, route: seq<byte>, up: Pick,
                   picks: seq<Pick>)
    requires 1 <= |route| <= 14 && Routed(c, w, a, to, b, len, route, up, picks) == Lost
    ensures SendRouted(c, w, a, to, b, len, route, up, picks) == None
  {
  }

  lemma ReachedRefused(c: Aead, w: World, a: PeerID, to: PeerID, b: Buf, len: nat, route: seq<byte>, up: Pick,
                       picks: seq<Pick>, got: Buf)
    requires 1 <= |route| <= 14 && Routed(c, w, a, to, b, len, route, up, picks) == Reached(to, got)
    requires OpenAt(c, w, to, got, len, 36, 16) == None
    ensures SendRouted(c, w, a, to, b, len, route, up, picks) == None
  {
  }

  /** The buffer that gets to the end of a trail. */
  lemma RoutedGot(c: Aead, w: World, path: seq<PeerID>, route: seq<byte>, back: seq<byte>, b: Buf, len: nat,
                  up: Pick, picks: seq<Pick>) returns (got: Buf)
    requires Correct(c) && SoundNet(NetOf(w)) && Trail(NetOf(w), path, route, back) && 1 <= |route| <= 13
    requires |picks| == |route| && forall i :: 0 <= i < |route| ==> Adjacent(w, path[i], path[i + 1], picks[i])
    requires Sealable(w, path[0], path[|route|], up) && 84 <= len <= TPT_MTU && b[20..36] == RouteHeader(route)
    ensures Routed(c, w, path[0], path[|route|], b, len, route, up, picks) == Reached(path[|route|], got)
    ensures SealFor(c, w, path[0], path[|route|], b, len, 36, 16, up).Some?
    ensures got[36..len - 16] == SealFor(c, w, path[0], path[|route|], b, len, 36, 16, up).value[36..len - 16]
  {
    RoutedReaches(c, w, path, route, back, b, len, up, picks);
    got := Routed(c, w, path[0], path[|route|], b, len, route, up, picks).buf;
  }

  lemma UnsealedLost(c: Aead, w: World, a: PeerID, to: PeerID, b: Buf, len: nat, route: seq<byte>, up: Pick,
                     picks: seq<Pick>)
    requires 1 <= |route| <= 14 && !Sealable(w, a, to, up)
    ensures Routed(c, w, a, to, b, len, route, up, picks) == Lost
  {
  }

  lemma UnpairedUnopened(c: Aead, w: World, a: PeerID, to: PeerID, b: Buf, len: nat, up: Pick, got: Buf)
    requires Correct(c) && Separates(c, w) && KeysName(w) && Found(w, a, to, up) && !Linked(w, a, to, up)
    requires 84 <= len <= TPT_MTU && SealFor(c, w, a, to, b, len, 36, 16, up).Some?
    requires got[36..len - 16] == SealFor(c, w, a, to, b, len, 36, 16, up).value[36..len - 16]
    ensures OpenAt(c, w, to, got, len, 36, 16) == None
  {
    OpenLost(c, w, a, to, b, len, 36, 16, up, got);
  }

  /** A packet that gets there is refused if the ends' session is not paired. */
  lemma UpperLost(c: Aead, w: World, path: seq<PeerID>, route: seq<byte>, back: seq<byte>, b: Buf, len: nat,
                  up: Pick, picks: seq<Pick>)
    requires Correct(c) && Separates(c, w) && KeysName(w)
    requires SoundNet(NetOf(w)) && Trail(NetOf(w), path, route, back) && 1 <= |route| <= 13
    requires |picks| == |route| && forall i :: 0 <= i < |route| ==> Adjacent(w, path[i], path[i + 1], picks[i])
    requires Found(w, path[0], path[|route|], up) && !Linked(w, path[0], path[|route|], up)
    requires 84 <= len <= TPT_MTU && b[20..36] == RouteHeader(route)
    ensures SendRouted(c, w, path[0], path[|route|], b, len, route, up, picks) == None
  {
    var a, to := path[0], path[|route|];
    if Sealable(w, a, to, up) {
      var got := RoutedGot(c, w, path, route, back, b, len, up, picks);
      UnpairedUnopened(c, w, a, to, b, len, up, got);
      ReachedRefused(c, w, a, to, b, len, route, up, picks, got);
    } else {
      UnsealedLost(c, w, a, to, b, len, route, up, picks);
      LostUnsent(c, w, a, to, b, len, route, up, picks);
    }
  }

  lemma RoutedIff(c: Aead, w: World, path: seq<PeerID>, route: seq<byte>, back: seq<byte>,
                  codec: nat, payload: seq<byte>, up: Pick, picks: seq<Pick>, b: Buf)
    requires Correct(c) && Separates(c, w) && KeysName(w)
    requires SoundNet(NetOf(w)) && Trail(NetOf(w), path, route, back) && 2 <= |route| <= 13
    requires |picks| == |route| && forall i :: 0 <= i < |route| ==> Found(w, path[i], path[i + 1], picks[i])
    requires Found(w, path[0], path[|route|], up) && codec < 0x1000_0000 && |payload| <= 1364
    requires Compose(codec, payload, route) == Some(b) && b[20..36] == RouteHeader(route)
    ensures SendRouted(c, w, path[0], path[|route|], b, 88 + |payload|, route, up, picks)
         == if AllGood(w, path, route, up, picks) then Some(Delivery(path[|route|], codec, payload, path[0])) else None
  {
    var len := 88 + |payload|;
    if bad :| 0 <= bad < |route| && !Adjacent(w, path[bad], path[bad + 1], picks[bad]) {
      RoutedLost(c, w, path, route, back, b, len, up, picks, bad);
      LostUnsent(c, w, path[0], path[|route|], b, len, route, up, picks);
    } else if Linked(w, path[0], path[|route|], up) {
      RoutedDelivers(c, w, path, route, back, codec, payload, up, picks);
    } else {
      UpperLost(c, w, path, route, back, b, len, up, picks);
    }
  }

  /** Whichever sessions Find returns, the payload is delivered if and only if all of them are good. */
  lemma DeliversIff(c: Aead, w: World, path: seq<PeerID>, route: seq<byte>, back: seq<byte>,
                    codec: nat, payload: seq<byte>, up: Pick, picks: seq<Pick>)
    requires Correct(c) && Separates(c, w) && KeysName(w)
    requires SoundNet(NetOf(w)) && Trail(NetOf(w), path, route, back) && 1 <= |route| <= 13
    requires |picks| == |route| && forall i :: 0 <= i < |route| ==> Found(w, path[i], path[i + 1], picks[i])
    requires Found(w, path[0], path[|route|], up) && codec < 0x1000_0000 && |payload| <= 1364
    ensures SendAlong(c, w, path[0], path[|route|], codec, payload, route, up, picks)
         == if AllGood(w, path, route, up, picks) then Some(Delivery(path[|route|], codec, payload, path[0])) else None
  {
    if |route| == 1 {
      assert Found(w, path[0], path[0 + 1], picks[0]);
      DirectIff(c, w, path[0], path[1], codec, payload, route, picks[0]);
      assert Adjacent(w, path[0], path[0 + 1], picks[0]) ==> AllGood(w, path, route, up, picks);
    } else {
      ComposeShape(codec, payload, route);
      RoutedIff(c, w, path, route, back, codec, payload, up, picks, Compose(codec, payload, route).value);
    }
  }
}
