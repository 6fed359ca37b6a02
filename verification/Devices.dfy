/** IPv6 over the overlay as it grows: at every state of every run, which packets get from one node's device to another
    one's, and that none bears an address that is not its sender's. */
module Devices {
  import opened Bytes
  import opened Crypto
  import opened Network
  import opened Sessions
  import opened Honest
  import opened Routing
  import opened Layout
  import opened EndToEnd
  import opened Arrivals
  import opened Fcnet
  import opened Overlay
  import O = Overlay
  import S = Scenarios

  /** The world that a run comes to. */
  ghost function After(ip: PeerID -> Address, events: seq<Event>): World {
    WorldOf(O.Run(Empty(ip), events))
  }

  lemma RunKeyed(ip: PeerID -> Address, events: seq<Event>, c: Aead)
    requires LandsFreely(Empty(ip), events) && Correct(c) && Separates(c, After(ip, events))
    ensures Keyed(c, After(ip, events))
  {
    EmptySound(ip);
    RunSound(Empty(ip), events);
    KeysNameIn(O.Run(Empty(ip), events));
  }

  /** At every state of every run with free landings, whatever a node hands to Send, for whomever and over any sessions:
      what arrives is what was sent, at the node it was sent to, from the node that sent it. */
  lemma RunsArriveAsSent(ip: PeerID -> Address, events: seq<Event>, c: Aead, a: PeerID, to: PeerID, codec: nat,
                         payload: seq<byte>, route: seq<byte>, up: Pick, picks: seq<Pick>)
    requires LandsFreely(Empty(ip), events) && Correct(c) && Separates(c, After(ip, events)) && picks != []
    requires SendAlong(c, After(ip, events), a, to, codec, payload, route, up, picks).Some?
    ensures SendAlong(c, After(ip, events), a, to, codec, payload, route, up, picks)
         == Some(Delivery(to, codec, payload, a))
  {
    RunKeyed(ip, events, c);
    ArrivesAsSent(c, After(ip, events), a, to, codec, payload, route, up, picks);
  }

  /** And no device is written but with a packet from its sender's own address to its own node's. */
  lemma RunsBear(n: Names, events: seq<Event>, c: Aead, a: PeerID, buf: seq<byte>, up: Pick, picks: seq<Pick>)
    requires LandsFreely(Empty(n.Ips()), events) && Correct(c) && Separates(c, After(n.Ips(), events)) && picks != []
    requires TunToTun(c, After(n.Ips(), events), n, a, buf, up, picks).Some?
    ensures
      var (node, p) := TunToTun(c, After(n.Ips(), events), n, a, buf, up, picks).value;
      p == buf && Accepted(p, n.ip(n.key(a)), n.ip(n.key(node)))
  {
    RunKeyed(n.Ips(), events, c);
    TunBears(c, After(n.Ips(), events), n, a, buf, up, picks);
  }

  // ---------------------------------------------------------------- there

  /** A packet that Send would deliver is written to the device. */
  lemma SentIsWritten(c: Aead, w: World, n: Names, x: PeerID, y: PeerID, buf: seq<byte>, route: seq<byte>, up: Pick,
                      picks: seq<Pick>)
    requires picks != [] && Addressed(w, n.Ips(), x) && OwnAddress(w, n.Ips(), x, y)
    requires GetRoute(w[x].routes, y) == Some(route) && Travels(buf, n.ip(n.key(x)), n.ip(n.key(y)), |route|)
    requires EndToEnd.Send(c, w, x, y, FCNET_CODEC, buf, up, picks) == Some(Delivery(y, FCNET_CODEC, buf, x))
    ensures TunToTun(c, w, n, x, buf, up, picks) == Some((y, buf))
  {
    TunSends(c, w, n, x, y, buf, route, up, picks);
    FcnetActs(buf, n.ip(n.key(x)), n.ip(n.key(y)));
  }

  /** What every run comes to. */
  ghost predicate Good(s: Overlay, ip: PeerID -> Address) {
    Sound(s) && AllResolve(s) && s.ip == ip
  }

  lemma RunGood(ip: PeerID -> Address, events: seq<Event>)
    requires LandsFreely(Empty(ip), events)
    ensures Good(O.Run(Empty(ip), events), ip)
  {
    EmptySound(ip);
    RunSound(Empty(ip), events);
    RunResolves(Empty(ip), events);
  }

  /** Node `x` knows `y`, by an address of its own, and its first route to it is that one. */
  ghost predicate KnownBy(s: Overlay, ip: PeerID -> Address, x: PeerID, y: PeerID, route: seq<byte>) {
    x in s.nodes && OwnAddress(WorldOf(s), ip, x, y) && GetRoute(s.nodes[x].routes, y) == Some(route)
  }

  /** A known peer is reached by its address, over a session `up` if it takes more than one hop. */
  lemma ReachedByAddress(s: Overlay, c: Aead, n: Names, x: PeerID, y: PeerID, route: seq<byte>, buf: seq<byte>,
                         up: Pick)
    returns (up': Pick, picks: seq<Pick>)
    requires Good(s, n.Ips()) && Correct(c) && KnownBy(s, n.Ips(), x, y, route)
    requires Travels(buf, n.ip(n.key(x)), n.ip(n.key(y)), |route|) && |buf| <= 1364
    requires |route| == 1 || Linked(WorldOf(s), x, y, up)
    ensures picks != [] && TunToTun(c, WorldOf(s), n, x, buf, up', picks) == Some((y, buf))
  {
    var w := WorldOf(s);
    WorldLinked(s);
    RouteKnown(s, x, y);
    picks := KnownPeerReached(c, w, x, y, FCNET_CODEC, buf, route, up);
    up' := if |route| == 1 then picks[0] else up;
    SentIsWritten(c, w, n, x, y, buf, route, up', picks);
  }

  lemma ReachedOver(s: Overlay, c: Aead, n: Names, x: PeerID, y: PeerID, route: seq<byte>, buf: seq<byte>)
    returns (up: Pick, picks: seq<Pick>)
    requires Good(s, n.Ips()) && Correct(c) && KnownBy(s, n.Ips(), x, y, route)
    requires Travels(buf, n.ip(n.key(x)), n.ip(n.key(y)), |route|) && |buf| <= 1364
    requires |route| == 1 || Joined(s, x, y)
    ensures picks != [] && TunToTun(c, WorldOf(s), n, x, buf, up, picks) == Some((y, buf))
  {
    var pick := if |route| == 1 then Pick(0, NONCE) else UpFor(s, x, y);
    up, picks := ReachedByAddress(s, c, n, x, y, route, buf, pick);
  }

  /** At every state of every run with free landings: a packet that is read from a device for the address of a peer in
      the node's table is written to that peer's device, over sessions that Find may return. */
  lemma EveryAddressIsReached(events: seq<Event>, c: Aead, n: Names, x: PeerID, y: PeerID, route: seq<byte>,
                              buf: seq<byte>)
    returns (up: Pick, picks: seq<Pick>)
    requires LandsFreely(Empty(n.Ips()), events) && Correct(c)
    requires KnownBy(O.Run(Empty(n.Ips()), events), n.Ips(), x, y, route)
    requires Travels(buf, n.ip(n.key(x)), n.ip(n.key(y)), |route|) && |buf| <= 1364
    requires |route| == 1 || Joined(O.Run(Empty(n.Ips()), events), x, y)
    ensures picks != [] && TunToTun(c, After(n.Ips(), events), n, x, buf, up, picks) == Some((y, buf))
  {
    RunGood(n.Ips(), events);
    up, picks := ReachedOver(O.Run(Empty(n.Ips()), events), c, n, x, y, route, buf);
  }

  // ---------------------------------------------------------------- and back

  /** What a packet along the first route teaches its destination, if it took more than one hop. */
  ghost predicate Teaches(s: Overlay, x: PeerID, y: PeerID, route: seq<byte>, more: seq<Event>) {
    if |route| == 1 then more == [] else
    exists path, back :: Way(NetIn(s.nodes), x, y, path, route, back) && more == [Teach(path, route, back)]
  }

  /** The destination then knows the sender, and no session has changed. */
  lemma TaughtKnows(s: Overlay, x: PeerID, y: PeerID, route: seq<byte>, more: seq<Event>)
    requires Teaches(s, x, y, route, more) && |route| <= 13 && x in s.nodes && y in s.nodes
    requires 2 <= |route| || (|route| == 1 && x in s.nodes[y].routes)
    ensures LandsFreely(s, more)
    ensures
      var s' := O.Run(s, more);
      && s'.nodes.Keys == s.nodes.Keys && s'.nodes[x].m == s.nodes[x].m
      && s'.nodes[y].routes.Keys == s.nodes[y].routes.Keys + {x}
  {
    if |route| >= 2 {
      var path, back :| Way(NetIn(s.nodes), x, y, path, route, back) && more == [Teach(path, route, back)];
      S.RunOne(s, Teach(path, route, back));
    }
  }

  /** No other peer among those has the address of `x`. */
  ghost predicate LoneAddress(ip: PeerID -> Address, peers: set<PeerID>, x: PeerID) {
    forall q <- peers :: ip(q) == ip(x) ==> q == x
  }

  /** The way back for a node that knows the caller of one of its sessions. */
  lemma AnswerReaches(s: Overlay, c: Aead, n: Names, x: PeerID, y: PeerID, j: Index, buf: seq<byte>)
    returns (up: Pick, picks: seq<Pick>)
    requires Good(s, n.Ips()) && Correct(c) && x in s.nodes && y in s.nodes && Session3(s.nodes[x].m.store, j, y)
    requires x in s.nodes[y].routes && LoneAddress(n.Ips(), s.nodes[y].routes.Keys, x)
    requires Travels(buf, n.ip(n.key(y)), n.ip(n.key(x)), 13) && |buf| <= 1364
    ensures picks != [] && TunToTun(c, WorldOf(s), n, y, buf, up, picks) == Some((x, buf))
  {
    assert RoutesLead(NetIn(s.nodes), y, s.nodes[y].routes);
    SessionLinked(s, x, j, y, NONCE);
    RouteKnown(s, y, x);
    up, picks := ReachedByAddress(s, c, n, y, x, s.nodes[y].routes[x][0], buf, Pick(j, NONCE));
  }

  /** Node `x` knows `y` and has a connected session with it, `y` knows no other peer by the address of `x`, and by
      `more` it knows `x` itself. */
  ghost predicate Conversing(s: Overlay, ip: PeerID -> Address, x: PeerID, y: PeerID, j: Index, route: seq<byte>,
                             more: seq<Event>) {
    && KnownBy(s, ip, x, y, route) && Session3(s.nodes[x].m.store, j, y)
    && y in s.nodes && LoneAddress(ip, s.nodes[y].routes.Keys, x)
    && Teaches(s, x, y, route, more) && (|route| == 1 ==> x in s.nodes[y].routes)
  }

  /** Round trips, at every state of every run with free landings: a packet from the device of x for the address of a
      peer y that it knows is written to y's device; and once it has taught y the way back, an answer that is read from
      y's device for the address of x is written to x's device. */
  lemma AnswersComeBack(events: seq<Event>, c: Aead, n: Names, x: PeerID, y: PeerID, j: Index, route: seq<byte>,
                        buf: seq<byte>, buf': seq<byte>, more: seq<Event>)
    returns (up: Pick, picks: seq<Pick>, up': Pick, picks': seq<Pick>)
    requires LandsFreely(Empty(n.Ips()), events) && Correct(c)
    requires Conversing(O.Run(Empty(n.Ips()), events), n.Ips(), x, y, j, route, more)
    requires Travels(buf, n.ip(n.key(x)), n.ip(n.key(y)), |route|) && |buf| <= 1364
    requires Travels(buf', n.ip(n.key(y)), n.ip(n.key(x)), 13) && |buf'| <= 1364
    ensures LandsFreely(Empty(n.Ips()), events + more)
    ensures picks != [] && TunToTun(c, After(n.Ips(), events), n, x, buf, up, picks) == Some((y, buf))
    ensures picks' != [] && TunToTun(c, After(n.Ips(), events + more), n, y, buf', up', picks') == Some((x, buf'))
  {
    up, picks := Outward(events, c, n, x, y, j, route, buf, more);
    up', picks' := Homeward(events, c, n, x, y, j, route, buf', more);
  }

  lemma JoinedBy(s: Overlay, x: PeerID, y: PeerID, j: Index)
    requires x in s.nodes && Session3(s.nodes[x].m.store, j, y)
    ensures Joined(s, x, y)
  {
  }

  lemma Outward(events: seq<Event>, c: Aead, n: Names, x: PeerID, y: PeerID, j: Index, route: seq<byte>,
                buf: seq<byte>, more: seq<Event>)
    returns (up: Pick, picks: seq<Pick>)
    requires LandsFreely(Empty(n.Ips()), events) && Correct(c)
    requires Conversing(O.Run(Empty(n.Ips()), events), n.Ips(), x, y, j, route, more)
    requires Travels(buf, n.ip(n.key(x)), n.ip(n.key(y)), |route|) && |buf| <= 1364
    ensures picks != [] && TunToTun(c, After(n.Ips(), events), n, x, buf, up, picks) == Some((y, buf))
  {
    JoinedBy(O.Run(Empty(n.Ips()), events), x, y, j);
    up, picks := EveryAddressIsReached(events, c, n, x, y, route, buf);
  }

  lemma Homeward(events: seq<Event>, c: Aead, n: Names, x: PeerID, y: PeerID, j: Index, route: seq<byte>,
                 buf: seq<byte>, more: seq<Event>)
    returns (up: Pick, picks: seq<Pick>)
    requires LandsFreely(Empty(n.Ips()), events) && Correct(c)
    requires Conversing(O.Run(Empty(n.Ips()), events), n.Ips(), x, y, j, route, more)
    requires Travels(buf, n.ip(n.key(y)), n.ip(n.key(x)), 13) && |buf| <= 1364
    ensures LandsFreely(Empty(n.Ips()), events + more)
    ensures picks != [] && TunToTun(c, After(n.Ips(), events + more), n, y, buf, up, picks) == Some((x, buf))
  {
    TaughtRuns(n.Ips(), events, x, y, route, more);
    up, picks := AnswerReachesIn(events + more, c, n, x, y, j, buf);
  }

  lemma AnswerReachesIn(events: seq<Event>, c: Aead, n: Names, x: PeerID, y: PeerID, j: Index, buf: seq<byte>)
    returns (up: Pick, picks: seq<Pick>)
    requires LandsFreely(Empty(n.Ips()), events) && Correct(c)
    requires
      var s := O.Run(Empty(n.Ips()), events);
      && x in s.nodes && y in s.nodes && Session3(s.nodes[x].m.store, j, y)
      && x in s.nodes[y].routes && LoneAddress(n.Ips(), s.nodes[y].routes.Keys, x)
    requires Travels(buf, n.ip(n.key(y)), n.ip(n.key(x)), 13) && |buf| <= 1364
    ensures picks != [] && TunToTun(c, After(n.Ips(), events), n, y, buf, up, picks) == Some((x, buf))
  {
    RunGood(n.Ips(), events);
    up, picks := AnswerReaches(O.Run(Empty(n.Ips()), events), c, n, x, y, j, buf);
  }

  lemma TaughtRuns(ip: PeerID -> Address, events: seq<Event>, x: PeerID, y: PeerID, route: seq<byte>, more: seq<Event>)
    requires
      var s := O.Run(Empty(ip), events);
      && LandsFreely(Empty(ip), events) && x in s.nodes && y in s.nodes
      && GetRoute(s.nodes[x].routes, y) == Some(route) && Teaches(s, x, y, route, more)
      && (|route| == 1 ==> x in s.nodes[y].routes)
    ensures LandsFreely(Empty(ip), events + more)
    ensures
      var s, s' := O.Run(Empty(ip), events), O.Run(Empty(ip), events + more);
      && x in s'.nodes && y in s'.nodes && s'.nodes[x].m == s.nodes[x].m
      && s'.nodes[y].routes.Keys == s.nodes[y].routes.Keys + {x}
  {
    RunGood(ip, events);
    RouteKnown(O.Run(Empty(ip), events), x, y);
    TaughtKnows(O.Run(Empty(ip), events), x, y, route, more);
    S.RunAppend(Empty(ip), events, more);
  }
}
