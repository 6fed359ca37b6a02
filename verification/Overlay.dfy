/** The whole overlay as it grows: nodes enter, shake hands, attach each other and learn routes, in any order.  Sessions
    behave as in module Honest; connectedCallback attaches the peer and adds its one-hop route; a packet that arrives
    over more than one hop teaches its destination the way back. */
module Overlay {
  import opened Bytes
  import opened Crypto
  import opened Forwarder
  import opened Network
  import opened Sessions
  import opened Honest
  import opened Routing
  import opened Layout
  import opened EndToEnd

  datatype Party = Party(m: Manager, tables: Tables, routes: Table, names: map<Address, PeerID>)

  datatype Overlay = Overlay(
    ip: PeerID -> Address, nodes: Parties, responses: set<ResponseMsg>, data: set<DataMsg>)

  type Parties = map<PeerID, Party>

  function ManagersOf(nodes: Parties): Managers {
    map x | x in nodes :: nodes[x].m
  }

  function NetIn(nodes: Parties): Net {
    map x | x in nodes :: nodes[x].tables
  }

  function WorldOf(s: Overlay): World {
    map x | x in s.nodes :: Node(s.nodes[x].tables, s.nodes[x].m.store, s.nodes[x].routes, s.nodes[x].names)
  }

  /** connectedCallback: a lower peer gets a slot and a route of that slot, if there is a free one. */
  function Connected(ip: PeerID -> Address, p: Party, peer: PeerID, lower: bool): Party {
    var slot := FirstNull(p.tables.slots, 0);
    if !lower || slot == 256 then p
    else RouteAdded(ip, p.(tables := Attached(p.tables, peer, Link)), peer, [slot])
  }

  /** AddRoute at a node. */
  function RouteAdded(ip: PeerID -> Address, p: Party, peer: PeerID, route: seq<byte>): Party {
    p.(routes := Added(p.routes, peer, route), names := Named(p.routes, p.names, ip, peer, route))
  }

  /** A response comes with an address over the lower layer and without one over the upper, and data over the lower
      layer comes in a session with an address.  Again is the callback of a receive routine that read the stage before
      it was 3, as in module Receivers.  Teach adds any way back that the slots of a trail offer. */
  datatype Event =
    | Enter(me: nat)
    | Dial(x: PeerID, peer: PeerID, addr: Addr, eph: nat, timestamp: Term, payload: Term, idx: Index)
    | Hear(x: PeerID, hello: HelloMsg, addr: Addr, eph: nat, payload: Term, idx: Index)
    | Agree(x: PeerID, resp: ResponseMsg, addr: Addr)
    | Seal(x: PeerID, peer: PeerID, payload: Term, idx: Index)
    | Open(x: PeerID, d: DataMsg, lower: bool)
    | Again(x: PeerID, j: Index, lower: bool)
    | Teach(path: seq<PeerID>, route: seq<byte>, back: seq<byte>)

  /** A node that enters attaches itself first. */
  function Entered(me: nat): Party {
    Party(NewManager(me), Attached(EmptyTables(), PeerID(Point(me)), Local), map[], map[])
  }

  function WithParty(s: Overlay, x: PeerID, p: Party): Overlay {
    s.(nodes := s.nodes[x := p])
  }

  function WithManager(s: Overlay, x: PeerID, m: Manager): Overlay
    requires x in s.nodes
  {
    WithParty(s, x, s.nodes[x].(m := m))
  }

  function WithRoute(s: Overlay, x: PeerID, y: PeerID, route: seq<byte>): Overlay
    requires x in s.nodes
  {
    WithParty(s, x, RouteAdded(s.ip, s.nodes[x], y, route))
  }

  function Fire(s: Overlay, x: PeerID, peer: PeerID, lower: bool): Overlay
    requires x in s.nodes
  {
    WithParty(s, x, Connected(s.ip, s.nodes[x], peer, lower))
  }

  ghost function Apply(s: Overlay, e: Event): Overlay {
    match e
    case Enter(me) => if PeerID(Point(me)) in s.nodes then s else WithParty(s, PeerID(Point(me)), Entered(me))
    case Dial(x, peer, addr, eph, timestamp, payload, idx) =>
      if x !in s.nodes || idx in s.nodes[x].m.store then s
      else WithManager(s, x, CreateHello(s.nodes[x].m, peer, addr, eph, timestamp, payload, idx).0)
    case Hear(x, hello, addr, eph, payload, idx) =>
      if x !in s.nodes || idx in s.nodes[x].m.store then s else
      var (m, r) := HandleHello(s.nodes[x].m, hello, addr, eph, payload, idx);
      var s' := WithManager(s, x, m);
      if r.Good? then s'.(responses := s.responses + {r.value}) else s'
    case Agree(x, resp, addr) =>
      if x !in s.nodes || resp !in s.responses then s else
      var (m, r) := HandleResponse(s.nodes[x].m, resp, addr);
      var s' := WithManager(s, x, m);
      if r.Good? then Fire(s', x, r.value, addr.Some?) else s'
    case Seal(x, peer, payload, idx) =>
      if x !in s.nodes then s else
      var (m, r) := CreateData(s.nodes[x].m, peer, payload, idx);
      var s' := WithManager(s, x, m);
      if r.Good? then s'.(data := s.data + {r.value.0}) else s'
    case Open(x, d, lower) =>
      if x !in s.nodes || d !in s.data then s else
      var (m, r) := HandleData(s.nodes[x].m, d);
      var s' := WithManager(s, x, m);
      if r.Good? && r.value.1 then Fire(s', x, r.value.0, lower && HasAddress(m.store, d.session)) else s'
    case Again(x, j, lower) =>
      if x !in s.nodes || j !in s.nodes[x].m.store || s.nodes[x].m.store[j].stage != 3 then s
      else Fire(s, x, s.nodes[x].m.store[j].peer, lower && HasAddress(s.nodes[x].m.store, j))
    case Teach(path, route, back) =>
      if 2 <= |route| <= 13 && Trail(NetIn(s.nodes), path, route, back) && path[|route|] in s.nodes
      then WithRoute(s, path[|route|], path[0], Rev(back))
      else s
  }

  predicate HasAddress(st: map<Index, Session>, j: Index) {
    j in st && st[j].addr.Some?
  }

  /** No accepted response lands on a session that has its keys. */
  ghost predicate LandsFreely(s: Overlay, events: seq<Event>)
    decreases |events|
  {
    events != [] ==> Lands(s, events[0]) && LandsFreely(Apply(s, events[0]), events[1..])
  }

  ghost predicate Lands(s: Overlay, e: Event) {
    e.Agree? && e.x in s.nodes && e.resp in s.responses && HandleResponse(s.nodes[e.x].m, e.resp, e.addr).1.Good? ==>
      LandsFree(s.nodes[e.x].m, e.resp)
  }

  ghost function Run(s: Overlay, events: seq<Event>): Overlay
    decreases |events|
  {
    if events == [] then s else Run(Apply(s, events[0]), events[1..])
  }

  /** No nodes yet; `ip` gives the IPv6 address of a peer. */
  function Empty(ip: PeerID -> Address): Overlay {
    Overlay(ip, map[], {}, {})
  }

  // ---------------------------------------------------------------- the invariant

  /** A connected session with that peer. */
  predicate Session3(st: map<Index, Session>, j: Index, p: PeerID) {
    j in st && st[j].stage == 3 && st[j].peer == p
  }

  /** And with an address. */
  predicate Near3(st: map<Index, Session>, j: Index, p: PeerID) {
    Session3(st, j, p) && st[j].addr.Some?
  }

  /** Every slot of a link belongs to a peer with a connected session that has an address. */
  ghost predicate SlotsHeld(p: Party) {
    forall b :: 0 <= b < 256 && p.tables.slots[b].Entry? && p.tables.slots[b].sink == Link ==>
      exists j :: Near3(p.m.store, j, p.tables.slots[b].peer)
  }

  ghost predicate Way(net: Net, x: PeerID, y: PeerID, path: seq<PeerID>, route: seq<byte>, back: seq<byte>) {
    Trail(net, path, route, back) && path[0] == x && path[|route|] == y
  }

  /** A route of one hop is a slot to the peer, a longer one a trail of at most 13 hops to it. */
  ghost predicate LeadsTo(net: Net, x: PeerID, y: PeerID, route: seq<byte>) {
    || (|route| == 1 && Leads(net, x, route[0], y))
    || (2 <= |route| <= 13 && exists path, back :: Way(net, x, y, path, route, back))
  }

  ghost predicate RoutesLead(net: Net, x: PeerID, routes: Table) {
    forall y <- routes :: routes[y] != [] && forall i :: 0 <= i < |routes[y]| ==> LeadsTo(net, x, y, routes[y][i])
  }

  ghost predicate Wired(nodes: Parties) {
    && SoundNet(NetIn(nodes))
    && (forall x <- nodes :: SlotsHeld(nodes[x]))
    && (forall x <- nodes :: RoutesLead(NetIn(nodes), x, nodes[x].routes))
  }

  ghost predicate Sound(s: Overlay) {
    SessionsAgree(ManagersOf(s.nodes), s.responses, s.data) && Wired(s.nodes)
  }

  lemma LeadsToStays(net: Net, later: Net, x: PeerID, y: PeerID, route: seq<byte>)
    requires Grows(net, later) && LeadsTo(net, x, y, route)
    ensures LeadsTo(later, x, y, route)
  {
    if |route| != 1 {
      var path, back :| Way(net, x, y, path, route, back);
      GrowsKeepsTrails(net, later, path, route, back);
      assert Way(later, x, y, path, route, back);
    }
  }

  lemma RoutesLeadStays(net: Net, later: Net, x: PeerID, routes: Table)
    requires Grows(net, later) && RoutesLead(net, x, routes)
    ensures RoutesLead(later, x, routes)
  {
    forall y <- routes, i | 0 <= i < |routes[y]|
      ensures LeadsTo(later, x, y, routes[y][i])
    {
      LeadsToStays(net, later, x, y, routes[y][i]);
    }
  }

  lemma AddedLeads(net: Net, x: PeerID, routes: Table, y: PeerID, route: seq<byte>)
    requires RoutesLead(net, x, routes) && LeadsTo(net, x, y, route)
    ensures RoutesLead(net, x, Added(routes, y, route))
  {
  }

  lemma SlotsStay(p: Party, m: Manager)
    requires SlotsHeld(p) && Stay(p.m.store, m.store)
    ensures SlotsHeld(p.(m := m))
  {
    forall b | 0 <= b < 256 && p.tables.slots[b].Entry? && p.tables.slots[b].sink == Link
      ensures exists j :: Near3(m.store, j, p.tables.slots[b].peer)
    {
      var j :| Near3(p.m.store, j, p.tables.slots[b].peer);
      assert Near3(m.store, j, p.tables.slots[b].peer);
    }
  }

  lemma SlotAdded(ip: PeerID -> Address, p: Party, peer: PeerID, lower: bool, j: Index)
    requires SlotsHeld(p) && Near3(p.m.store, j, peer)
    ensures SlotsHeld(Connected(ip, p, peer, lower))
  {
  }

  // ---------------------------------------------------------------- every step keeps it

  lemma ManagersPut(nodes: Parties, x: PeerID, p: Party)
    ensures ManagersOf(nodes[x := p]) == ManagersOf(nodes)[x := p.m]
    ensures NetIn(nodes[x := p]) == NetIn(nodes)[x := p.tables]
  {
  }

  lemma RoutesPut(nodes: Parties, x: PeerID, p: Party, net: Net, nodes': Parties)
    requires Grows(NetIn(nodes), net) && RoutesLead(net, x, p.routes) && nodes' == nodes[x := p]
    requires forall y <- nodes :: RoutesLead(NetIn(nodes), y, nodes[y].routes)
    ensures forall y <- nodes' :: RoutesLead(net, y, nodes'[y].routes)
  {
    forall y <- nodes'
      ensures RoutesLead(net, y, nodes'[y].routes)
    {
      if y != x {
        RoutesLeadStays(NetIn(nodes), net, y, nodes[y].routes);
      }
    }
  }

  /** Node `x` is new or goes on to `p`: its tables grow, its slots and routes are good. */
  lemma PutWired(nodes: Parties, x: PeerID, p: Party, net: Net)
    requires Wired(nodes) && net == NetIn(nodes)[x := p.tables] && SoundNet(net) && Grows(NetIn(nodes), net)
    requires SlotsHeld(p) && RoutesLead(net, x, p.routes)
    ensures Wired(nodes[x := p])
  {
    ManagersPut(nodes, x, p);
    RoutesPut(nodes, x, p, net, nodes[x := p]);
  }

  lemma PutSound(s: Overlay, x: PeerID, p: Party, net: Net)
    requires Sound(s) && x in s.nodes && Evolves(ManagersOf(s.nodes), x, p.m)
    requires net == NetIn(s.nodes)[x := p.tables] && SoundNet(net) && Grows(NetIn(s.nodes), net)
    requires SlotsHeld(p) && RoutesLead(net, x, p.routes)
    ensures Sound(WithParty(s, x, p))
  {
    ManagersPut(s.nodes, x, p);
    AgreeStays(ManagersOf(s.nodes), s.responses, s.data, x, p.m);
    PutWired(s.nodes, x, p, net);
  }

  lemma SameNet(s: Overlay, x: PeerID)
    requires x in s.nodes
    ensures NetIn(s.nodes)[x := s.nodes[x].tables] == NetIn(s.nodes) && Grows(NetIn(s.nodes), NetIn(s.nodes))
  {
  }

  /** Only the sessions change. */
  lemma SessionsPut(s: Overlay, x: PeerID, m: Manager)
    requires Sound(s) && x in s.nodes && Evolves(ManagersOf(s.nodes), x, m)
    ensures Sound(WithManager(s, x, m))
  {
    SlotsStay(s.nodes[x], m);
    SameNet(s, x);
    PutSound(s, x, s.nodes[x].(m := m), NetIn(s.nodes));
  }

  /** A route is added that leads to its peer. */
  lemma RoutePut(s: Overlay, x: PeerID, y: PeerID, route: seq<byte>)
    requires Sound(s) && x in s.nodes && LeadsTo(NetIn(s.nodes), x, y, route)
    ensures Sound(WithRoute(s, x, y, route))
  {
    var p := s.nodes[x];
    AddedLeads(NetIn(s.nodes), x, p.routes, y, route);
    SameNet(s, x);
    SameEvolves(ManagersOf(s.nodes), x, p.m);
    PutSound(s, x, RouteAdded(s.ip, p, y, route), NetIn(s.nodes));
  }

  lemma ResponseAdded(s: Overlay, y: PeerID, r: ResponseMsg)
    requires Sound(s) && Owned(ManagersOf(s.nodes), y, r)
    ensures Sound(s.(responses := s.responses + {r}))
  {
    ResponseMade(ManagersOf(s.nodes), s.responses, y, r);
  }

  lemma DataAdded(s: Overlay, x: PeerID, d: DataMsg)
    requires Sound(s) && Sender(ManagersOf(s.nodes), x, d)
    ensures Sound(s.(data := s.data + {d}))
  {
    DataMade(ManagersOf(s.nodes), s.data, x, d);
  }

  /** A connected session's peer is a node, so not the zero PeerID. */
  lemma PeerIsNode(ms: Managers, x: PeerID, j: Index, p: PeerID)
    requires NodesOk(ms) && CallersMatched(ms) && AnswerersMatched(ms)
    requires x in ms && Session3(ms[x].store, j, p)
    ensures p in ms && p != EMPTY_PEER
  {
    var y := ConnectedPaired(ms, x, j);
  }

  /** The network with the new slot, and the route of that slot. */
  lemma SlotLeads(net: Net, x: PeerID, peer: PeerID, slot: byte, routes: Table, later: Net)
    requires SoundNet(net) && x in net && slot == FirstNull(net[x].slots, 0) && peer != EMPTY_PEER
    requires RoutesLead(net, x, routes) && later == net[x := Attached(net[x], peer, Link)]
    ensures SoundNet(later) && Grows(net, later) && RoutesLead(later, x, Added(routes, peer, [slot]))
  {
    AttachSound(net, x, peer);
    RoutesLeadStays(net, later, x, routes);
    AddedLeads(later, x, routes, peer, [slot]);
  }

  /** A node that attaches a peer it has a connected session with. */
  lemma AttachGood(ip: PeerID -> Address, nodes: Parties, x: PeerID, j: Index, peer: PeerID, p: Party, later: Net)
    requires Wired(nodes) && x in nodes && Near3(nodes[x].m.store, j, peer) && peer != EMPTY_PEER
    requires FirstNull(nodes[x].tables.slots, 0) < 256 && p == Connected(ip, nodes[x], peer, true)
    requires later == NetIn(nodes)[x := p.tables]
    ensures p.m == nodes[x].m && SoundNet(later) && Grows(NetIn(nodes), later)
    ensures SlotsHeld(p) && RoutesLead(later, x, p.routes)
  {
    var q := nodes[x];
    SlotAdded(ip, q, peer, true, j);
    SlotLeads(NetIn(nodes), x, peer, FirstNull(q.tables.slots, 0), q.routes, later);
  }

  lemma AttachPeer(s: Overlay, x: PeerID, j: Index, peer: PeerID, p: Party)
    requires Sound(s) && x in s.nodes && Near3(s.nodes[x].m.store, j, peer) && peer != EMPTY_PEER
    requires FirstNull(s.nodes[x].tables.slots, 0) < 256 && p == Connected(s.ip, s.nodes[x], peer, true)
    ensures Sound(WithParty(s, x, p))
  {
    AttachGood(s.ip, s.nodes, x, j, peer, p, NetIn(s.nodes)[x := p.tables]);
    SameEvolves(ManagersOf(s.nodes), x, p.m);
    PutSound(s, x, p, NetIn(s.nodes)[x := p.tables]);
  }

  /** A session has been connected: the callback attaches its peer. */
  lemma ConnectSound(s: Overlay, x: PeerID, j: Index, peer: PeerID, lower: bool)
    requires Sound(s) && x in s.nodes && Session3(s.nodes[x].m.store, j, peer)
    requires lower ==> HasAddress(s.nodes[x].m.store, j)
    ensures Sound(Fire(s, x, peer, lower))
  {
    if lower && FirstNull(s.nodes[x].tables.slots, 0) < 256 {
      PeerIsNode(ManagersOf(s.nodes), x, j, peer);
      AttachPeer(s, x, j, peer, Connected(s.ip, s.nodes[x], peer, true));
    } else {
      assert s.nodes[x := s.nodes[x]] == s.nodes;
    }
  }

  lemma EnterSound(s: Overlay, me: nat)
    requires Sound(s)
    ensures Sound(Apply(s, Enter(me)))
  {
    var x, p := PeerID(Point(me)), Entered(me);
    if x !in s.nodes {
      ManagersPut(s.nodes, x, p);
      EnterAgrees(ManagersOf(s.nodes), s.responses, s.data, x, p.m);
      JoinSound(NetIn(s.nodes), x);
      EnteredSlots(me);
      PutWired(s.nodes, x, p, NetIn(s.nodes)[x := p.tables]);
    }
  }

  lemma EnteredSlots(me: nat)
    ensures SlotsHeld(Entered(me))
  {
    assert FirstNull(EmptyTables().slots, 0) == 0;
  }

  lemma DialSound(s: Overlay, x: PeerID, peer: PeerID, addr: Addr, eph: nat, timestamp: Term, payload: Term, idx: Index)
    requires Sound(s)
    ensures Sound(Apply(s, Dial(x, peer, addr, eph, timestamp, payload, idx)))
  {
    if x in s.nodes && idx !in s.nodes[x].m.store {
      CallEvolves(ManagersOf(s.nodes), x, peer, addr, eph, timestamp, payload, idx);
      SessionsPut(s, x, CreateHello(s.nodes[x].m, peer, addr, eph, timestamp, payload, idx).0);
    }
  }

  lemma HearSound(s: Overlay, x: PeerID, hello: HelloMsg, addr: Addr, eph: nat, payload: Term, idx: Index)
    requires Sound(s)
    ensures Sound(Apply(s, Hear(x, hello, addr, eph, payload, idx)))
  {
    if x in s.nodes && idx !in s.nodes[x].m.store {
      var (m, r) := HandleHello(s.nodes[x].m, hello, addr, eph, payload, idx);
      HelloEvolves(ManagersOf(s.nodes), x, hello, addr, eph, payload, idx);
      SessionsPut(s, x, m);
      if r.Good? {
        ManagersPut(s.nodes, x, s.nodes[x].(m := m));
        ResponseAdded(WithManager(s, x, m), x, r.value);
      }
    }
  }

  lemma SealSound(s: Overlay, x: PeerID, peer: PeerID, payload: Term, idx: Index)
    requires Sound(s)
    ensures Sound(Apply(s, Event.Seal(x, peer, payload, idx)))
  {
    if x in s.nodes {
      var (m, r) := CreateData(s.nodes[x].m, peer, payload, idx);
      SealEvolves(ManagersOf(s.nodes), x, peer, payload, idx);
      SessionsPut(s, x, m);
      if r.Good? {
        ManagersPut(s.nodes, x, s.nodes[x].(m := m));
        DataAdded(WithManager(s, x, m), x, r.value.0);
      }
    }
  }

  lemma AcceptedStage(s: Session, resp: ResponseMsg, addr: Addr)
    ensures
      var (s', r) := AcceptResponse(s, resp, addr);
      r.Good? ==> s'.stage == 3 && (addr.Some? ==> s'.addr.Some?)
  {
  }

  /** What a response leaves: a connected session with the peer that the callback is for. */
  lemma AgreedSession(m: Manager, resp: ResponseMsg, addr: Addr)
    ensures
      var (m', r) := HandleResponse(m, resp, addr);
      && (r.Good? ==> Session3(m'.store, resp.session, r.value))
      && (r.Good? && addr.Some? ==> HasAddress(m'.store, resp.session))
  {
    if resp.sender in m.store {
      ResponseStore(m, resp, addr);
      AcceptedStage(m.store[resp.sender], resp, addr);
    }
  }

  /** And what first data leaves. */
  lemma OpenedSession(m: Manager, d: DataMsg)
    ensures
      var (m', r) := HandleData(m, d);
      r.Good? && r.value.1 ==> Session3(m'.store, d.session, r.value.0)
  {
  }

  lemma AgreeSound(s: Overlay, x: PeerID, resp: ResponseMsg, addr: Addr)
    requires Sound(s) && Lands(s, Agree(x, resp, addr))
    ensures Sound(Apply(s, Agree(x, resp, addr)))
  {
    if x in s.nodes && resp in s.responses {
      var ms, m0 := ManagersOf(s.nodes), s.nodes[x].m;
      var (m, r) := HandleResponse(m0, resp, addr);
      var y :| Owned(ms, y, resp);
      ResponseEvolves(ms, y, x, resp, addr);
      SessionsPut(s, x, m);
      if r.Good? {
        AgreedSession(m0, resp, addr);
        ConnectSound(WithManager(s, x, m), x, resp.session, r.value, addr.Some?);
      }
    }
  }

  lemma OpenSound(s: Overlay, x: PeerID, d: DataMsg, lower: bool)
    requires Sound(s)
    ensures Sound(Apply(s, Event.Open(x, d, lower)))
  {
    if x in s.nodes && d in s.data {
      var ms, m0 := ManagersOf(s.nodes), s.nodes[x].m;
      var (m, r) := HandleData(m0, d);
      var z :| Sender(ms, z, d);
      DataEvolves(ms, x, z, d);
      SessionsPut(s, x, m);
      if r.Good? && r.value.1 {
        OpenedSession(m0, d);
        ConnectSound(WithManager(s, x, m), x, d.session, r.value.0, lower && HasAddress(m.store, d.session));
      }
    }
  }

  lemma AgainSound(s: Overlay, x: PeerID, j: Index, lower: bool)
    requires Sound(s)
    ensures Sound(Apply(s, Again(x, j, lower)))
  {
    if x in s.nodes && j in s.nodes[x].m.store && s.nodes[x].m.store[j].stage == 3 {
      ConnectSound(s, x, j, s.nodes[x].m.store[j].peer, lower && HasAddress(s.nodes[x].m.store, j));
    }
  }

  lemma BackLeadsTo(net: Net, path: seq<PeerID>, route: seq<byte>, back: seq<byte>)
    requires Trail(net, path, route, back) && 2 <= |route| <= 13
    ensures LeadsTo(net, path[|route|], path[0], Rev(back))
  {
    TrailReverses(net, path, route, back);
    assert Way(net, path[|route|], path[0], Rev(path), Rev(back), Rev(route));
  }

  lemma TeachSound(s: Overlay, path: seq<PeerID>, route: seq<byte>, back: seq<byte>)
    requires Sound(s)
    ensures Sound(Apply(s, Teach(path, route, back)))
  {
    if 2 <= |route| <= 13 && Trail(NetIn(s.nodes), path, route, back) && path[|route|] in s.nodes {
      BackLeadsTo(NetIn(s.nodes), path, route, back);
      RoutePut(s, path[|route|], path[0], Rev(back));
    }
  }

  lemma StepSound(s: Overlay, e: Event)
    requires Sound(s) && Lands(s, e)
    ensures Sound(Apply(s, e))
  {
    match e
    case Enter(me) => EnterSound(s, me);
    case Dial(x, peer, addr, eph, timestamp, payload, idx) => DialSound(s, x, peer, addr, eph, timestamp, payload, idx);
    case Hear(x, hello, addr, eph, payload, idx) => HearSound(s, x, hello, addr, eph, payload, idx);
    case Agree(x, resp, addr) => AgreeSound(s, x, resp, addr);
    case Seal(x, peer, payload, idx) => SealSound(s, x, peer, payload, idx);
    case Open(x, d, lower) => OpenSound(s, x, d, lower);
    case Again(x, j, lower) => AgainSound(s, x, j, lower);
    case Teach(path, route, back) => TeachSound(s, path, route, back);
  }

  /** At every state of every run whose landings are free: sessions agree, forwarders are well formed, slots belong to
      connected peers, and every known route leads to its peer. */
  lemma {:induction false} RunSound(s: Overlay, events: seq<Event>)
    requires Sound(s) && LandsFreely(s, events)
    ensures Sound(Run(s, events))
    decreases |events|
  {
    if events != [] {
      StepSound(s, events[0]);
      RunSound(Apply(s, events[0]), events[1..]);
    }
  }

  lemma EmptySound(ip: PeerID -> Address)
    ensures Sound(Empty(ip))
  {
  }

  // ---------------------------------------------------------------- addresses

  /** Every node finds the peers in its table by their addresses. */
  ghost predicate AllResolve(s: Overlay) {
    forall x <- s.nodes :: Resolves(s.nodes[x].routes, s.nodes[x].names, s.ip)
  }

  lemma ResolvePut(s: Overlay, x: PeerID, p: Party)
    requires AllResolve(s) && Resolves(p.routes, p.names, s.ip)
    ensures AllResolve(WithParty(s, x, p))
  {
  }

  lemma RouteResolves(ip: PeerID -> Address, p: Party, peer: PeerID, route: seq<byte>)
    requires Resolves(p.routes, p.names, ip)
    ensures
      var p' := RouteAdded(ip, p, peer, route);
      Resolves(p'.routes, p'.names, ip)
  {
  }

  lemma ConnectResolves(ip: PeerID -> Address, p: Party, peer: PeerID, lower: bool)
    requires Resolves(p.routes, p.names, ip)
    ensures
      var p' := Connected(ip, p, peer, lower);
      Resolves(p'.routes, p'.names, ip)
  {
    RouteResolves(ip, p.(tables := Attached(p.tables, peer, Link)), peer, [FirstNull(p.tables.slots, 0) % 256]);
  }

  lemma FireResolves(s: Overlay, x: PeerID, m: Manager, peer: PeerID, lower: bool)
    requires AllResolve(s) && x in s.nodes
    ensures AllResolve(Fire(WithManager(s, x, m), x, peer, lower))
  {
    ResolvePut(s, x, s.nodes[x].(m := m));
    ConnectResolves(s.ip, s.nodes[x].(m := m), peer, lower);
    ResolvePut(WithManager(s, x, m), x, Connected(s.ip, s.nodes[x].(m := m), peer, lower));
  }

  lemma AgreeResolves(s: Overlay, x: PeerID, resp: ResponseMsg, addr: Addr)
    requires AllResolve(s)
    ensures AllResolve(Apply(s, Agree(x, resp, addr)))
  {
    if x in s.nodes && resp in s.responses {
      var (m, r) := HandleResponse(s.nodes[x].m, resp, addr);
      ResolvePut(s, x, s.nodes[x].(m := m));
      if r.Good? {
        FireResolves(s, x, m, r.value, addr.Some?);
      }
    }
  }

  lemma OpenResolves(s: Overlay, x: PeerID, d: DataMsg, lower: bool)
    requires AllResolve(s)
    ensures AllResolve(Apply(s, Event.Open(x, d, lower)))
  {
    if x in s.nodes && d in s.data {
      var (m, r) := HandleData(s.nodes[x].m, d);
      ResolvePut(s, x, s.nodes[x].(m := m));
      if r.Good? && r.value.1 {
        FireResolves(s, x, m, r.value.0, lower && HasAddress(m.store, d.session));
      }
    }
  }

  lemma AgainResolves(s: Overlay, x: PeerID, j: Index, lower: bool)
    requires AllResolve(s)
    ensures AllResolve(Apply(s, Again(x, j, lower)))
  {
    if x in s.nodes && j in s.nodes[x].m.store && s.nodes[x].m.store[j].stage == 3 {
      var peer, near := s.nodes[x].m.store[j].peer, lower && HasAddress(s.nodes[x].m.store, j);
      ConnectResolves(s.ip, s.nodes[x], peer, near);
      ResolvePut(s, x, Connected(s.ip, s.nodes[x], peer, near));
    }
  }

  lemma TeachResolves(s: Overlay, path: seq<PeerID>, route: seq<byte>, back: seq<byte>)
    requires AllResolve(s)
    ensures AllResolve(Apply(s, Teach(path, route, back)))
  {
    if 2 <= |route| <= 13 && Trail(NetIn(s.nodes), path, route, back) && path[|route|] in s.nodes {
      var x := path[|route|];
      RouteResolves(s.ip, s.nodes[x], path[0], Rev(back));
      ResolvePut(s, x, RouteAdded(s.ip, s.nodes[x], path[0], Rev(back)));
    }
  }

  lemma StepResolves(s: Overlay, e: Event)
    requires AllResolve(s)
    ensures AllResolve(Apply(s, e)) && Apply(s, e).ip == s.ip
  {
    match e
    case Agree(x, resp, addr) => AgreeResolves(s, x, resp, addr);
    case Open(x, d, lower) => OpenResolves(s, x, d, lower);
    case Again(x, j, lower) => AgainResolves(s, x, j, lower);
    case Teach(path, route, back) => TeachResolves(s, path, route, back);
    case _ =>
  }

  lemma {:induction false} RunResolves(s: Overlay, events: seq<Event>)
    requires AllResolve(s)
    ensures AllResolve(Run(s, events)) && Run(s, events).ip == s.ip
    decreases |events|
  {
    if events != [] {
      StepResolves(s, events[0]);
      RunResolves(Apply(s, events[0]), events[1..]);
    }
  }

  /** At every state of every run, whatever lands where: a node finds each peer in its table by address as it does by
      name, if no other peer there has the same address. */
  lemma EveryAddressResolves(ip: PeerID -> Address, events: seq<Event>, x: PeerID)
    requires x in Run(Empty(ip), events).nodes
    ensures
      var w := WorldOf(Run(Empty(ip), events));
      Addressed(w, ip, x) && forall y :: OwnAddress(w, ip, x, y) ==> RouteTo(w, x, ip(y)) == GetRoute(w[x].routes, y)
  {
    RunResolves(Empty(ip), events);
    var w := WorldOf(Run(Empty(ip), events));
    forall y | OwnAddress(w, ip, x, y)
      ensures RouteTo(w, x, ip(y)) == GetRoute(w[x].routes, y)
    {
      RouteByAddress(w, ip, x, y);
    }
  }

  // ---------------------------------------------------------------- what it comes to

  lemma NetOfWorld(s: Overlay)
    ensures NetOf(WorldOf(s)) == NetIn(s.nodes)
  {
  }

  /** A connected session is a link to its peer and back, whatever the nonces. */
  lemma SessionLinked(s: Overlay, x: PeerID, j: Index, y: PeerID, nonce: seq<byte>)
    requires Sound(s) && x in s.nodes && Session3(s.nodes[x].m.store, j, y) && |nonce| == 8
    ensures y in s.nodes
    ensures Linked(WorldOf(s), x, y, Pick(j, nonce)) && Linked(WorldOf(s), y, x, Pick(j, nonce))
    ensures HasAddress(s.nodes[x].m.store, j) ==> Adjacent(WorldOf(s), x, y, Pick(j, nonce))
  {
    var ms := ManagersOf(s.nodes);
    var z := ConnectedPaired(ms, x, j);
    assert x == Self(ms[x]) && y == Self(ms[y]);
    PairedIsLinked(WorldOf(s), ms[x], ms[y], j, nonce);
  }

  /** Every slot that leads to a peer has a link there and back. */
  lemma SlotLinked(s: Overlay, x: PeerID, b: byte, y: PeerID, nonce: seq<byte>) returns (pick: Pick)
    requires Sound(s) && Leads(NetIn(s.nodes), x, b, y) && |nonce| == 8
    ensures Adjacent(WorldOf(s), x, y, pick) && Linked(WorldOf(s), y, x, pick)
  {
    assert SlotsHeld(s.nodes[x]);
    var j :| Near3(s.nodes[x].m.store, j, y);
    SessionLinked(s, x, j, y, nonce);
    pick := Pick(j, nonce);
  }

  /** Every slot of the world is a link. */
  ghost predicate AllLinked(w: World) {
    forall x, b, y :: Leads(NetOf(w), x, b, y) ==> exists pick :: Adjacent(w, x, y, pick)
  }

  const NONCE: seq<byte> := [0, 0, 0, 0, 0, 0, 0, 1]

  lemma WorldLinked(s: Overlay)
    requires Sound(s)
    ensures SoundNet(NetOf(WorldOf(s))) && AllLinked(WorldOf(s))
  {
    NetOfWorld(s);
    var w := WorldOf(s);
    forall x, b, y | Leads(NetOf(w), x, b, y)
      ensures exists pick :: Adjacent(w, x, y, pick)
    {
      var pick := SlotLinked(s, x, b, y, NONCE);
    }
  }

  /** Links for the hops of a trail. */
  lemma {:induction false} TrailLinked(w: World, path: seq<PeerID>, route: seq<byte>, back: seq<byte>, k: nat)
    returns (picks: seq<Pick>)
    requires AllLinked(w) && Trail(NetOf(w), path, route, back) && k <= |route|
    ensures |picks| == k && forall i :: 0 <= i < k ==> Adjacent(w, path[i], path[i + 1], picks[i])
  {
    if k == 0 {
      return [];
    }
    picks := TrailLinked(w, path, route, back, k - 1);
    assert Leads(NetOf(w), path[k - 1], route[k - 1], path[k - 1 + 1]);
    var pick :| Adjacent(w, path[k - 1], path[k - 1 + 1], pick);
    picks := picks + [pick];
  }

  /** Node.Send over one hop. */
  lemma NeighbourSends(c: Aead, w: World, x: PeerID, y: PeerID, codec: nat, payload: seq<byte>, route: seq<byte>)
    returns (picks: seq<Pick>)
    requires Correct(c) && codec < 0x1000_0000 && |payload| <= 1364
    requires AllLinked(w) && |route| == 1 && Leads(NetOf(w), x, route[0], y)
    ensures picks != []
    ensures SendAlong(c, w, x, y, codec, payload, route, picks[0], picks) == Some(Delivery(y, codec, payload, x))
  {
    var pick :| Adjacent(w, x, y, pick);
    DirectDelivers(c, w, x, y, codec, payload, route, pick);
    picks := [pick];
  }

  /** Node.Send over more hops, to a peer with a connected session. */
  lemma FarSends(c: Aead, w: World, x: PeerID, y: PeerID, codec: nat, payload: seq<byte>, route: seq<byte>, up: Pick)
    returns (picks: seq<Pick>)
    requires Correct(c) && codec < 0x1000_0000 && |payload| <= 1364
    requires SoundNet(NetOf(w)) && AllLinked(w) && Linked(w, x, y, up)
    requires 2 <= |route| <= 13 && exists path, back :: Way(NetOf(w), x, y, path, route, back)
    ensures picks != []
    ensures SendAlong(c, w, x, y, codec, payload, route, up, picks) == Some(Delivery(y, codec, payload, x))
  {
    var path, back :| Way(NetOf(w), x, y, path, route, back);
    picks := TrailLinked(w, path, route, back, |route|);
    Delivers(c, w, path, route, back, codec, payload, up, picks);
  }

  /** A node whose first route for a peer leads there reaches it. */
  lemma KnownPeerReached(c: Aead, w: World, x: PeerID, y: PeerID, codec: nat, payload: seq<byte>, route: seq<byte>,
                         up: Pick)
    returns (picks: seq<Pick>)
    requires Correct(c) && codec < 0x1000_0000 && |payload| <= 1364
    requires SoundNet(NetOf(w)) && AllLinked(w) && LeadsTo(NetOf(w), x, y, route)
    requires x in w && GetRoute(w[x].routes, y) == Some(route) && (|route| == 1 || Linked(w, x, y, up))
    ensures picks != []
    ensures EndToEnd.Send(c, w, x, y, codec, payload, if |route| == 1 then picks[0] else up, picks)
         == Some(Delivery(y, codec, payload, x))
  {
    if |route| == 1 {
      picks := NeighbourSends(c, w, x, y, codec, payload, route);
    } else {
      picks := FarSends(c, w, x, y, codec, payload, route, up);
    }
  }

  lemma RouteKnown(s: Overlay, x: PeerID, y: PeerID)
    requires Sound(s) && x in s.nodes && y in s.nodes[x].routes && s.nodes[x].routes[y] != []
    ensures
      var w, route := WorldOf(s), s.nodes[x].routes[y][0];
      x in w && GetRoute(w[x].routes, y) == Some(route) && LeadsTo(NetOf(w), x, y, route)
  {
    NetOfWorld(s);
    assert RoutesLead(NetIn(s.nodes), x, s.nodes[x].routes);
  }

  lemma KnownPeerReachedIn(s: Overlay, c: Aead, x: PeerID, y: PeerID, codec: nat, payload: seq<byte>)
    returns (up: Pick, picks: seq<Pick>)
    requires Correct(c) && codec < 0x1000_0000 && |payload| <= 1364
    requires Sound(s) && x in s.nodes && y in s.nodes[x].routes && s.nodes[x].routes[y] != []
    requires |s.nodes[x].routes[y][0]| == 1 || Joined(s, x, y)
    ensures picks != []
    ensures EndToEnd.Send(c, WorldOf(s), x, y, codec, payload, up, picks) == Some(Delivery(y, codec, payload, x))
  {
    var w, route := WorldOf(s), s.nodes[x].routes[y][0];
    WorldLinked(s);
    RouteKnown(s, x, y);
    var pick := if |route| == 1 then Pick(0, NONCE) else UpFor(s, x, y);
    picks := KnownPeerReached(c, w, x, y, codec, payload, route, pick);
    up := if |route| == 1 then picks[0] else pick;
  }

  /** The two nodes have a connected session. */
  ghost predicate Joined(s: Overlay, x: PeerID, y: PeerID) {
    x in s.nodes && exists j :: Session3(s.nodes[x].m.store, j, y)
  }

  /** One to seal for the peer with. */
  ghost function UpFor(s: Overlay, x: PeerID, y: PeerID): (up: Pick)
    requires Sound(s) && Joined(s, x, y)
    ensures Linked(WorldOf(s), x, y, up)
  {
    var j :| Session3(s.nodes[x].m.store, j, y);
    SessionLinked(s, x, j, y, NONCE);
    Pick(j, NONCE)
  }

  /** At every state of every run with free landings, a payload for any peer in a node's routing table is delivered to
      it by Node.Send: there are sessions, which Find may return, over which it gets there with codec, payload and
      source intact.  Over more than one hop the two ends must have a connected session. */
  lemma EveryKnownPeerIsReached(ip: PeerID -> Address, events: seq<Event>, c: Aead, x: PeerID, y: PeerID,
                                codec: nat, payload: seq<byte>)
    returns (up: Pick, picks: seq<Pick>)
    requires LandsFreely(Empty(ip), events) && Correct(c) && codec < 0x1000_0000 && |payload| <= 1364
    requires
      var s := Run(Empty(ip), events);
      && x in s.nodes && y in s.nodes[x].routes && s.nodes[x].routes[y] != []
      && (|s.nodes[x].routes[y][0]| == 1 || Joined(s, x, y))
    ensures picks != []
    ensures EndToEnd.Send(c, WorldOf(Run(Empty(ip), events)), x, y, codec, payload, up, picks)
         == Some(Delivery(y, codec, payload, x))
  {
    EmptySound(ip);
    RunSound(Empty(ip), events);
    up, picks := KnownPeerReachedIn(Run(Empty(ip), events), c, x, y, codec, payload);
  }

  // ---------------------------------------------------------------- whichever sessions are found

  lemma KeysNameIn(s: Overlay)
    requires Sound(s)
    ensures KeysName(WorldOf(s))
  {
    var w := WorldOf(s);
    forall x, y, j | CanSeal(w, x, j) && CanOpen(w, y, j)
      ensures w[y].store[j].hs.receive == w[x].store[j].hs.send ==> w[y].store[j].peer == x && w[x].store[j].peer == y
    {
      if w[y].store[j].hs.receive == w[x].store[j].hs.send {
        KeysNameAt(ManagersOf(s.nodes), x, y, j);
      }
    }
  }

  lemma KeysNameAt(ms: Managers, x: PeerID, y: PeerID, j: Index)
    requires NodesOk(ms) && CallersMatched(ms) && x in ms && y in ms && j in ms[x].store && j in ms[y].store
    requires ms[x].store[j].hs.send.Some? && ms[y].store[j].hs.receive == ms[x].store[j].hs.send
    ensures ms[x].store[j].peer == y && ms[y].store[j].peer == x
  {
    assert SessionOk(ms[x].me, ms[x].store[j]);
    KeysByStage(ms[x].me, ms[x].store[j]);
    SameKeyPaired(ms, x, y, j);
  }

  /** A way to the peer: the neighbour itself, or a trail. */
  ghost predicate Towards(net: Net, path: seq<PeerID>, route: seq<byte>, back: seq<byte>) {
    |path| == |route| + 1 && (|route| == 1 || (2 <= |route| <= 13 && Trail(net, path, route, back)))
  }

  /** At every state of every run with free landings, and for every choice of the sessions that Find may return along
      the way: the payload is delivered if each link's is paired and has an address and, over more than one hop, that of
      the two ends is paired, and is lost otherwise. */
  lemma FoundSessionsDeliverIff(ip: PeerID -> Address, events: seq<Event>, c: Aead, path: seq<PeerID>,
                                route: seq<byte>, back: seq<byte>, codec: nat, payload: seq<byte>, up: Pick,
                                picks: seq<Pick>)
    requires LandsFreely(Empty(ip), events) && Correct(c) && Separates(c, WorldOf(Run(Empty(ip), events)))
    requires codec < 0x1000_0000 && |payload| <= 1364
    requires
      var w := WorldOf(Run(Empty(ip), events));
      && Towards(NetOf(w), path, route, back) && |picks| == |route|
      && (forall i :: 0 <= i < |route| ==> Found(w, path[i], path[i + 1], picks[i]))
      && Found(w, path[0], path[|route|], up) && GetRoute(w[path[0]].routes, path[|route|]) == Some(route)
    ensures
      var w := WorldOf(Run(Empty(ip), events));
      EndToEnd.Send(c, w, path[0], path[|route|], codec, payload, up, picks)
        == if AllGood(w, path, route, up, picks) then Some(Delivery(path[|route|], codec, payload, path[0])) else None
  {
    var s := Run(Empty(ip), events);
    EmptySound(ip);
    RunSound(Empty(ip), events);
    WorldLinked(s);
    KeysNameIn(s);
    SendFoundIff(c, WorldOf(s), path, route, back, codec, payload, up, picks);
  }

  lemma SendFoundIff(c: Aead, w: World, path: seq<PeerID>, route: seq<byte>, back: seq<byte>,
                     codec: nat, payload: seq<byte>, up: Pick, picks: seq<Pick>)
    requires Correct(c) && Separates(c, w) && KeysName(w) && SoundNet(NetOf(w))
    requires codec < 0x1000_0000 && |payload| <= 1364 && Towards(NetOf(w), path, route, back)
    requires |picks| == |route| && forall i :: 0 <= i < |route| ==> Found(w, path[i], path[i + 1], picks[i])
    requires Found(w, path[0], path[|route|], up) && GetRoute(w[path[0]].routes, path[|route|]) == Some(route)
    ensures EndToEnd.Send(c, w, path[0], path[|route|], codec, payload, up, picks)
         == if AllGood(w, path, route, up, picks) then Some(Delivery(path[|route|], codec, payload, path[0])) else None
  {
    if |route| == 1 {
      assert Found(w, path[0], path[0 + 1], picks[0]);
      DirectIff(c, w, path[0], path[1], codec, payload, route, picks[0]);
      assert Adjacent(w, path[0], path[0 + 1], picks[0]) ==> AllGood(w, path, route, up, picks);
    } else {
      DeliversIff(c, w, path, route, back, codec, payload, up, picks);
    }
  }

  // ---------------------------------------------------------------- sessions and slots

  /** At every state of every run with free landings, whoever is attached is linked: a slot has a session with an
      address there, and it is one back as well. */
  lemma EverySlotIsLinked(ip: PeerID -> Address, events: seq<Event>, x: PeerID, b: byte, y: PeerID, nonce: seq<byte>)
    returns (pick: Pick)
    requires LandsFreely(Empty(ip), events)
    requires Leads(NetOf(WorldOf(Run(Empty(ip), events))), x, b, y) && |nonce| == 8
    ensures
      var w := WorldOf(Run(Empty(ip), events));
      Adjacent(w, x, y, pick) && Linked(w, y, x, pick)
  {
    var s := Run(Empty(ip), events);
    EmptySound(ip);
    RunSound(Empty(ip), events);
    NetOfWorld(s);
    pick := SlotLinked(s, x, b, y, nonce);
  }

  /** At every state of every run with free landings, a connected session has its other end, with mirrored keys, under
      the same index at the node it names. */
  lemma EveryConnectedSessionIsPaired(ip: PeerID -> Address, events: seq<Event>, x: PeerID, j: Index)
    requires LandsFreely(Empty(ip), events)
    requires
      var s := Run(Empty(ip), events);
      x in s.nodes && j in s.nodes[x].m.store && s.nodes[x].m.store[j].stage == 3
    ensures
      var s := Run(Empty(ip), events);
      var y := s.nodes[x].m.store[j].peer;
      y in s.nodes && Paired(s.nodes[x].m, s.nodes[y].m, j)
  {
    var s := Run(Empty(ip), events);
    EmptySound(ip);
    RunSound(Empty(ip), events);
    var y := ConnectedPaired(ManagersOf(s.nodes), x, j);
  }

  /** At every state of every run with free landings, whichever session with keys Find returns: data sealed in it opens
      at the node it names if and only if that node holds its other end; and it does if the session is connected. */
  lemma FoundSessionOpensIff(ip: PeerID -> Address, events: seq<Event>, x: PeerID, j: Index, payload: Term)
    requires LandsFreely(Empty(ip), events)
    requires
      var s := Run(Empty(ip), events);
      && x in s.nodes && j in s.nodes[x].m.store && s.nodes[x].m.store[j].stage != 1
      && s.nodes[x].m.store[j].peer in s.nodes
    ensures
      var s := Run(Empty(ip), events);
      var y := s.nodes[x].m.store[j].peer;
      var made := CreateData(s.nodes[x].m, y, payload, j).1;
      && made.Good?
      && (HandleData(s.nodes[y].m, made.value.0).1.Good? <==> Paired(s.nodes[x].m, s.nodes[y].m, j))
      && (s.nodes[x].m.store[j].stage == 3 ==> HandleData(s.nodes[y].m, made.value.0).1.Good?)
  {
    var s := Run(Empty(ip), events);
    EmptySound(ip);
    RunSound(Empty(ip), events);
    OpensIffPaired(ManagersOf(s.nodes), x, j, payload);
    if s.nodes[x].m.store[j].stage == 3 {
      EveryConnectedSessionIsPaired(ip, events, x, j);
    }
  }
}
