/** IPv6 packets from one node's TUN device to another's: what is done with a packet that is read, which packets are
    written, and the whole way in between. */
module Fcnet {
  import opened Bytes
  import opened Crypto
  import opened Forwarder
  import opened Network
  import opened Layout
  import opened Routing
  import opened EndToEnd
  import opened Arrivals
  import opened PeerIds

  const FCNET_CODEC: nat := 0x42004

  /** The bytes of a peer's public key and the IPv6 address of key bytes. */
  datatype Names = Names(key: PeerID -> KeyBytes, ip: KeyBytes -> Address) {
    function Ips(): PeerID -> Address {
      p => ip(key(p))
    }
  }

  // ---------------------------------------------------------------- packets and addresses

  /** The header is there and its payload length is that of the rest. */
  predicate Whole(p: seq<byte>) {
    |p| >= 40 && |p| == 40 + 256 * (p[4] as int) + p[5] as int
  }

  /** fe80::/64 */
  predicate LinkLocal(a: seq<byte>)
    requires |a| == 16
  {
    a[0] == 0xfe && a[1] == 0x80 && forall i :: 2 <= i < 8 ==> a[i] == 0
  }

  /** ff00::/8 */
  predicate Multicast(a: seq<byte>)
    requires |a| == 16
  {
    a[0] == 0xff
  }

  /** fc00::1, where a node's own resolver listens. */
  predicate Resolver(a: seq<byte>)
    requires |a| == 16
  {
    a[0] == 0xfc && a[15] == 1 && forall i :: 1 <= i < 15 ==> a[i] == 0
  }

  /** A whole packet of this node for some host. */
  predicate Outgoing(p: seq<byte>, myIp: seq<byte>) {
    Whole(p) && p[8..24] == myIp && !LinkLocal(p[8..24]) && !Multicast(p[24..40])
  }

  lemma LengthField(p: seq<byte>)
    requires |p| >= 40
    ensures FromBigEndian(p[4..6]) == 256 * (p[4] as int) + p[5] as int
  {
    assert p[4..6][..1] == [p[4]] && [p[4]][..0] == [];
    assert FromBigEndian([p[4]]) == p[4];
  }

  // ---------------------------------------------------------------- read from the device

  datatype TunAction =
    | Malformed | Ignored | ForResolver | NoRoute | ToUpper(route: seq<byte>) | Ping(route: seq<byte>) | Dropped

  const FC1: seq<byte> := [0xfc, 0, 0, 0, 0, 0, 0, 0, 0, 0, 0, 0, 0, 0, 0, 1]
  const LINK_LOCAL: seq<byte> := [0xfe, 0x80, 0, 0, 0, 0, 0, 0]

  /** handleTunPacket; `route` is what the routing table has for the destination address. */
  function HandleTun(buf: seq<byte>, myIp: seq<byte>, route: Option<seq<byte>>): TunAction {
    if |buf| < 40 then Malformed
    else if |buf| != FromBigEndian(buf[4..6]) + 40 then Malformed
    else if buf[8..16] == LINK_LOCAL || buf[24] == 0xff then Ignored
    else if buf[8..24] != myIp then Ignored
    else if buf[24..40] == FC1 then ForResolver
    else if route.None? then NoRoute
    else if buf[7] >= |route.value| then ToUpper(route.value)
    else if buf[6] == 58 then Ping(route.value[..buf[7]])
    else Dropped
  }

  lemma TunChecks(buf: seq<byte>)
    requires |buf| >= 40
    ensures buf[8..16] == LINK_LOCAL <==> LinkLocal(buf[8..24])
    ensures buf[24..40] == FC1 <==> Resolver(buf[24..40])
  {
    var src, dst := buf[8..24], buf[24..40];
    assert buf[8..16] == src[..8];
    assert forall i :: 0 <= i < 8 ==> buf[8..16][i] == src[i];
  }

  /** Each action, exactly: by the length, the two addresses, the table's route, the hop limit and the protocol. */
  lemma TunActs(buf: seq<byte>, myIp: seq<byte>, route: Option<seq<byte>>, r: seq<byte>)
    ensures
      var act := HandleTun(buf, myIp, route);
      && (act.Malformed? <==> !Whole(buf))
      && (act.Ignored? <==> Whole(buf) && !Outgoing(buf, myIp))
      && (act.ForResolver? <==> Outgoing(buf, myIp) && Resolver(buf[24..40]))
      && (act.NoRoute? <==> Outgoing(buf, myIp) && !Resolver(buf[24..40]) && route.None?)
      && (act == ToUpper(r) <==>
            Outgoing(buf, myIp) && !Resolver(buf[24..40]) && route == Some(r) && |r| <= buf[7])
      && (act == Ping(r) <==>
            && Outgoing(buf, myIp) && !Resolver(buf[24..40]) && route.Some? && buf[7] < |route.value|
            && buf[6] == 58 && |r| == buf[7] && r <= route.value)
      && (act.Dropped? <==>
            && Outgoing(buf, myIp) && !Resolver(buf[24..40]) && route.Some? && buf[7] < |route.value|
            && buf[6] != 58)
  {
    if |buf| >= 40 {
      LengthField(buf);
      TunChecks(buf);
    }
  }

  /** listenTun: only IPv6 packets are looked at. */
  function FromTun(w: World, n: Names, a: PeerID, buf: seq<byte>): TunAction {
    if buf == [] || buf[0] / 16 != 6 then Ignored
    else HandleTun(buf, n.Ips()(a), if |buf| < 40 then None else RouteTo(w, a, buf[24..40]))
  }

  /** What the node's own resolver is handed. */
  function ToResolver(w: World, n: Names, a: PeerID, buf: seq<byte>): Option<seq<byte>> {
    if FromTun(w, n, a, buf).ForResolver? then Some(buf) else None
  }

  /** A packet of this node for the resolver gets there and nowhere else, and nothing else does, whatever the tables. */
  lemma ResolverStaysHome(w: World, n: Names, a: PeerID, buf: seq<byte>)
    ensures
      var mine := buf != [] && buf[0] / 16 == 6 && Outgoing(buf, n.Ips()(a)) && Resolver(buf[24..40]);
      && ToResolver(w, n, a, buf) == (if mine then Some(buf) else None)
      && (mine ==> !FromTun(w, n, a, buf).ToUpper? && !FromTun(w, n, a, buf).Ping?)
  {
    if |buf| >= 40 {
      TunActs(buf, n.Ips()(a), RouteTo(w, a, buf[24..40]), []);
    }
  }

  // ---------------------------------------------------------------- written to the device

  datatype Reception = TooShort | WrongLength | NotIpv6 | WrongSource | WrongDestination | Written(packet: seq<byte>)

  /** handleFcnetPacket */
  function HandleFcnet(p: seq<byte>, srcIp: seq<byte>, dstIp: seq<byte>): Reception {
    if |p| < 40 then TooShort
    else if |p| != FromBigEndian(p[4..6]) + 40 then WrongLength
    else if p[0] / 16 != 6 then NotIpv6
    else if p[8..24] != srcIp then WrongSource
    else if p[24..40] != dstIp then WrongDestination
    else Written(p)
  }

  /** A whole IPv6 packet from one address to another. */
  predicate Accepted(p: seq<byte>, srcIp: seq<byte>, dstIp: seq<byte>) {
    Whole(p) && p[0] / 16 == 6 && p[8..24] == srcIp && p[24..40] == dstIp
  }

  /** It is written as it is if it is one, and is refused otherwise, each refusal for its own reason. */
  lemma FcnetActs(p: seq<byte>, srcIp: seq<byte>, dstIp: seq<byte>)
    ensures
      var r := HandleFcnet(p, srcIp, dstIp);
      && (r == Written(p) <==> Accepted(p, srcIp, dstIp)) && (r.Written? <==> Accepted(p, srcIp, dstIp))
      && (r.TooShort? || r.WrongLength? <==> !Whole(p))
      && (r.NotIpv6? <==> Whole(p) && p[0] / 16 != 6)
      && (r.WrongSource? <==> Whole(p) && p[0] / 16 == 6 && p[8..24] != srcIp)
      && (r.WrongDestination? <==> Whole(p) && p[0] / 16 == 6 && p[8..24] == srcIp && p[24..40] != dstIp)
  {
    if |p| >= 40 {
      LengthField(p);
    }
  }

  /** The handler of the codec: what the device of the node is written. */
  function ToDevice(n: Names, d: Delivery): Option<seq<byte>> {
    if d.codec != FCNET_CODEC then None else
    match HandleFcnet(d.payload, n.Ips()(d.src), n.Ips()(d.node))
    case Written(p) => Some(p)
    case _ => None
  }

  /** A payload from Send to a device: where it is written, and what. */
  function SendToDevice(c: Aead, w: World, n: Names, a: PeerID, to: PeerID, codec: nat, payload: seq<byte>,
                        route: seq<byte>, up: Pick, picks: seq<Pick>): Option<(PeerID, seq<byte>)>
    requires picks != []
  {
    match SendAlong(c, w, a, to, codec, payload, route, up, picks)
    case None => None
    case Some(d) =>
      match ToDevice(n, d)
      case None => None
      case Some(p) => Some((d.node, p))
  }

  /** No spoofing: in any network, whatever is sent to whomever over any route and sessions, only the device of the node
      it is sent to is written, with what was sent, and that is a whole packet from the sender's own address to that
      node's. */
  lemma NoSpoofing(c: Aead, w: World, n: Names, a: PeerID, to: PeerID, codec: nat, payload: seq<byte>,
                   route: seq<byte>, up: Pick, picks: seq<Pick>)
    requires Keyed(c, w) && picks != []
    ensures
      SendToDevice(c, w, n, a, to, codec, payload, route, up, picks) ==
        if && SendAlong(c, w, a, to, codec, payload, route, up, picks).Some? && codec == 0x42004
           && Accepted(payload, n.ip(n.key(a)), n.ip(n.key(to)))
        then Some((to, payload)) else None
  {
    if SendAlong(c, w, a, to, codec, payload, route, up, picks).Some? {
      ArrivesAsSent(c, w, a, to, codec, payload, route, up, picks);
      FcnetActs(payload, n.ip(n.key(a)), n.ip(n.key(to)));
    }
  }

  /** The same over Node.Send: whatever a device is written bears the address of the node that sealed it and that of its
      own node, so that a packet with another source address is written nowhere. */
  lemma SendBears(c: Aead, w: World, n: Names, a: PeerID, to: PeerID, codec: nat, payload: seq<byte>, up: Pick,
                  picks: seq<Pick>)
    requires Keyed(c, w) && picks != [] && EndToEnd.Send(c, w, a, to, codec, payload, up, picks).Some?
    ensures
      var d := EndToEnd.Send(c, w, a, to, codec, payload, up, picks).value;
      && d.src == a && d.node == to
      && ToDevice(n, d) ==
         (if codec == 0x42004 && Accepted(payload, n.ip(n.key(a)), n.ip(n.key(to))) then Some(payload) else None)
      && (|payload| >= 40 && payload[8..24] != n.ip(n.key(a)) ==> ToDevice(n, d) == None)
  {
    ArrivesAsSent(c, w, a, to, codec, payload, GetRoute(w[a].routes, to).value, up, picks);
    FcnetActs(payload, n.ip(n.key(a)), n.ip(n.key(to)));
  }

  /** Along a trail and over any sessions that Find may return, for any payload at all: the device is written exactly if
      all those sessions are good, the payload fits, and it is such a packet. */
  lemma DeviceWrittenIff(c: Aead, w: World, n: Names, path: seq<PeerID>, route: seq<byte>, back: seq<byte>,
                         payload: seq<byte>, up: Pick, picks: seq<Pick>)
    requires Keyed(c, w) && SoundNet(NetOf(w)) && Trail(NetOf(w), path, route, back) && 1 <= |route| <= 13
    requires |picks| == |route| && forall i :: 0 <= i < |route| ==> Found(w, path[i], path[i + 1], picks[i])
    requires Found(w, path[0], path[|route|], up)
    ensures
      var a, to := path[0], path[|route|];
      SendToDevice(c, w, n, a, to, FCNET_CODEC, payload, route, up, picks) ==
        if AllGood(w, path, route, up, picks) && |payload| <= 1364 && Accepted(payload, n.ip(n.key(a)), n.ip(n.key(to)))
        then Some((to, payload)) else None
  {
    var a, to := path[0], path[|route|];
    NoSpoofing(c, w, n, a, to, FCNET_CODEC, payload, route, up, picks);
    if |payload| <= 1364 {
      DeliversIff(c, w, path, route, back, FCNET_CODEC, payload, up, picks);
    } else {
      TooLongAlong(c, w, a, to, FCNET_CODEC, payload, route, up, picks);
    }
  }

  // ---------------------------------------------------------------- from device to device

  /** A packet that is read from the device of `a`: the node whose device is written, and what. */
  function TunToTun(c: Aead, w: World, n: Names, a: PeerID, buf: seq<byte>, up: Pick, picks: seq<Pick>)
    : Option<(PeerID, seq<byte>)>
    requires picks != []
  {
    match FromTun(w, n, a, buf)
    case ToUpper(route) =>
      SendToDevice(c, w, n, a, w[a].names[buf[24..40]], FCNET_CODEC, buf, route, up, picks)
    case _ => None
  }

  /** What a device must be handed for the packet to leave the node towards `dst` over `hops` links. */
  predicate Travels(buf: seq<byte>, src: seq<byte>, dst: seq<byte>, hops: nat) {
    Accepted(buf, src, dst) && !LinkLocal(src) && !Multicast(dst) && !Resolver(dst) && hops <= buf[7]
  }

  /** A packet that leaves is sent to the peer whose address it bears. */
  lemma TunSends(c: Aead, w: World, n: Names, a: PeerID, to: PeerID, buf: seq<byte>, route: seq<byte>, up: Pick,
                 picks: seq<Pick>)
    requires picks != [] && Addressed(w, n.Ips(), a) && OwnAddress(w, n.Ips(), a, to)
    requires GetRoute(w[a].routes, to) == Some(route) && |buf| >= 40 && buf[24..40] == n.ip(n.key(to))
    ensures TunToTun(c, w, n, a, buf, up, picks) ==
      if Travels(buf, n.ip(n.key(a)), n.ip(n.key(to)), |route|)
      then SendToDevice(c, w, n, a, to, FCNET_CODEC, buf, route, up, picks) else None
  {
    RouteByAddress(w, n.Ips(), a, to);
    TunActs(buf, n.ip(n.key(a)), Some(route), route);
  }

  /** Whatever is written was read, and bears the addresses of the two nodes. */
  lemma TunBears(c: Aead, w: World, n: Names, a: PeerID, buf: seq<byte>, up: Pick, picks: seq<Pick>)
    requires Keyed(c, w) && picks != [] && TunToTun(c, w, n, a, buf, up, picks).Some?
    ensures
      var (node, p) := TunToTun(c, w, n, a, buf, up, picks).value;
      p == buf && Accepted(p, n.ip(n.key(a)), n.ip(n.key(node)))
  {
    var act := FromTun(w, n, a, buf);
    NoSpoofing(c, w, n, a, w[a].names[buf[24..40]], FCNET_CODEC, buf, act.route, up, picks);
  }

  /** Device to device, for any packet that is read: along the route in the sender's table, looked up by address, it is
      written to the destination's device exactly if it bears the two nodes' addresses, has hops enough, fits, and all
      sessions that Find returns are good. */
  lemma TunReachesIff(c: Aead, w: World, n: Names, path: seq<PeerID>, route: seq<byte>, back: seq<byte>,
                      buf: seq<byte>, up: Pick, picks: seq<Pick>)
    requires Keyed(c, w) && SoundNet(NetOf(w)) && Trail(NetOf(w), path, route, back) && 1 <= |route| <= 13
    requires |picks| == |route| && forall i :: 0 <= i < |route| ==> Found(w, path[i], path[i + 1], picks[i])
    requires Found(w, path[0], path[|route|], up)
    requires Addressed(w, n.Ips(), path[0]) && OwnAddress(w, n.Ips(), path[0], path[|route|])
    requires GetRoute(w[path[0]].routes, path[|route|]) == Some(route)
    ensures
      var a, to := path[0], path[|route|];
      TunToTun(c, w, n, a, buf, up, picks) == Some((to, buf)) <==>
        && Travels(buf, n.ip(n.key(a)), n.ip(n.key(to)), |route|) && |buf| <= 1364
        && AllGood(w, path, route, up, picks)
  {
    var a, to := path[0], path[|route|];
    if |buf| >= 40 && buf[24..40] == n.ip(n.key(to)) {
      TunSends(c, w, n, a, to, buf, route, up, picks);
      DeviceWrittenIff(c, w, n, path, route, back, buf, up, picks);
    } else if TunToTun(c, w, n, a, buf, up, picks).Some? {
      TunBears(c, w, n, a, buf, up, picks);
    }
  }

  /** Over good sessions it gets there. */
  lemma TunDelivers(c: Aead, w: World, n: Names, path: seq<PeerID>, route: seq<byte>, back: seq<byte>,
                    buf: seq<byte>, up: Pick, picks: seq<Pick>)
    requires Correct(c) && SoundNet(NetOf(w)) && Trail(NetOf(w), path, route, back) && 1 <= |route| <= 13
    requires |picks| == |route| && forall i :: 0 <= i < |route| ==> Adjacent(w, path[i], path[i + 1], picks[i])
    requires Linked(w, path[0], path[|route|], up)
    requires Addressed(w, n.Ips(), path[0]) && OwnAddress(w, n.Ips(), path[0], path[|route|])
    requires GetRoute(w[path[0]].routes, path[|route|]) == Some(route)
    requires Travels(buf, n.ip(n.key(path[0])), n.ip(n.key(path[|route|])), |route|) && |buf| <= 1364
    ensures TunToTun(c, w, n, path[0], buf, up, picks) == Some((path[|route|], buf))
  {
    var a, to := path[0], path[|route|];
    TunSends(c, w, n, a, to, buf, route, up, picks);
    Delivers(c, w, path, route, back, FCNET_CODEC, buf, up, picks);
    FcnetActs(buf, n.ip(n.key(a)), n.ip(n.key(to)));
  }

  /** A node that learns a route to a peer whose address it does not know finds it by that address. */
  lemma LearnsAddress(w: World, ip: PeerID -> Address, d: PeerID, a: PeerID, way: seq<byte>)
    requires Addressed(w, ip, d) && a !in w[d].routes && forall q <- w[d].routes :: ip(q) != ip(a)
    ensures
      var w' := Learned(w, ip, d, a, way);
      && NetOf(w') == NetOf(w)
      && Addressed(w', ip, d) && OwnAddress(w', ip, d, a) && GetRoute(w'[d].routes, a) == Some(way)
  {
  }

  /** The round trip: a packet from one device over two hops or more is written to the other, and a destination that had
      no route to the sender finds the one it learns by the sender's address: its answer, read from its own device, is
      written to the first one. */
  lemma TunRoundTrip(c: Aead, w: World, n: Names, path: seq<PeerID>, route: seq<byte>, back: seq<byte>,
                     buf: seq<byte>, up: Pick, picks: seq<Pick>, buf': seq<byte>, up': Pick, picks': seq<Pick>)
    returns (w': World)
    requires Correct(c) && SoundNet(NetOf(w)) && Trail(NetOf(w), path, route, back) && 2 <= |route| <= 13
    requires |picks| == |route| && forall i :: 0 <= i < |route| ==> Adjacent(w, path[i], path[i + 1], picks[i])
    requires |picks'| == |route|
    requires forall i :: 0 <= i < |route| ==> Adjacent(w, Rev(path)[i], Rev(path)[i + 1], picks'[i])
    requires Linked(w, path[0], path[|route|], up) && Linked(w, path[|route|], path[0], up')
    requires Addressed(w, n.Ips(), path[0]) && OwnAddress(w, n.Ips(), path[0], path[|route|])
    requires GetRoute(w[path[0]].routes, path[|route|]) == Some(route)
    requires Addressed(w, n.Ips(), path[|route|]) && path[0] !in w[path[|route|]].routes
    requires forall q <- w[path[|route|]].routes :: n.ip(n.key(q)) != n.ip(n.key(path[0]))
    requires Travels(buf, n.ip(n.key(path[0])), n.ip(n.key(path[|route|])), |route|) && |buf| <= 1364
    requires Travels(buf', n.ip(n.key(path[|route|])), n.ip(n.key(path[0])), |route|) && |buf'| <= 1364
    ensures TunToTun(c, w, n, path[0], buf, up, picks) == Some((path[|route|], buf))
    ensures
      var d, b := path[|route|], Compose(FCNET_CODEC, buf, route);
      && b.Some? && d in w
      && var r := Routed(c, w, path[0], d, b.value, 88 + |buf|, route, up, picks);
      && r.Reached? && r.buf[21] == |route| && w' == Learned(w, n.Ips(), d, path[0], LearnedRoute(r.buf))
    ensures TunToTun(c, w', n, path[|route|], buf', up', picks') == Some((path[0], buf'))
  {
    TunDelivers(c, w, n, path, route, back, buf, up, picks);
    TeachesWayBack(c, w, path, route, back, FCNET_CODEC, buf, up, picks);
    var d, b := path[|route|], Compose(FCNET_CODEC, buf, route).value;
    var way := LearnedRoute(Routed(c, w, path[0], d, b, 88 + |buf|, route, up, picks).buf);
    w' := Learned(w, n.Ips(), d, path[0], way);
    LearnsAddress(w, n.Ips(), d, path[0], way);
    forall i | 0 <= i < |route|
      ensures Adjacent(w', Rev(path)[i], Rev(path)[i + 1], picks'[i])
    {
      LearnedKeeps(w, n.Ips(), d, path[0], way, Rev(path)[i], Rev(path)[i + 1], picks'[i]);
    }
    LearnedKeeps(w, n.Ips(), d, path[0], way, d, path[0], up');
    TunDelivers(c, w', n, Rev(path), way, Rev(route), buf', up', picks');
  }
}
