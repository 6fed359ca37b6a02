/** Runs of the overlay that are made on purpose: any two nodes can link up, and linking up in the wrong order has the
    consequences that the other modules describe. */
module Scenarios {
  import opened Bytes
  import opened Crypto
  import opened Handshake
  import opened Forwarder
  import opened Network
  import opened Sessions
  import opened Honest
  import opened Routing
  import opened Layout
  import opened EndToEnd
  import opened Overlay
  import O = Overlay
  import opened Fcnet
  import opened Traceroute

  const HERE: Addr := Some(0)

  lemma {:induction false} RunAppend(s: Overlay, a: seq<Event>, b: seq<Event>)
    ensures O.Run(s, a + b) == O.Run(O.Run(s, a), b)
    ensures LandsFreely(s, a + b) <==> LandsFreely(s, a) && LandsFreely(O.Run(s, a), b)
    decreases |a|
  {
    if a == [] {
      assert a + b == b;
    } else {
      assert (a + b)[1..] == a[1..] + b;
      RunAppend(O.Apply(s, a[0]), a[1..], b);
    }
  }

  lemma RunOne(s: Overlay, e: Event)
    ensures O.Run(s, [e]) == O.Apply(s, e) && (LandsFreely(s, [e]) <==> Lands(s, e))
  {
    assert [e][1..] == [];
  }

  // ---------------------------------------------------------------- linking up

  lemma EnterIs(s: Overlay, me: nat)
    requires PeerID(Point(me)) !in s.nodes
    ensures O.Run(s, [Enter(me)]) == WithParty(s, PeerID(Point(me)), Entered(me)) && LandsFreely(s, [Enter(me)])
  {
    RunOne(s, Enter(me));
  }

  lemma DialIs(s: Overlay, at: Addr, x: PeerID, y: PeerID, i: Index, e: Exchange)
    requires x in s.nodes && i !in s.nodes[x].m.store
    requires CreateHello(s.nodes[x].m, y, at, 1, NOTHING, NOTHING, i) == (e.a, Good(e.hello))
    ensures
      var dial := Dial(x, y, at, 1, NOTHING, NOTHING, i);
      O.Run(s, [dial]) == WithManager(s, x, e.a) && LandsFreely(s, [dial])
  {
    RunOne(s, Dial(x, y, at, 1, NOTHING, NOTHING, i));
  }

  lemma HearIs(s: Overlay, at: Addr, y: PeerID, j: Index, e: Exchange)
    requires y in s.nodes && j !in s.nodes[y].m.store
    requires HandleHello(s.nodes[y].m, e.hello, at, 2, NOTHING, j) == (e.b, Good(e.resp))
    ensures
      var hear := Hear(y, e.hello, at, 2, NOTHING, j);
      && O.Run(s, [hear]) == WithManager(s, y, e.b).(responses := s.responses + {e.resp})
      && LandsFreely(s, [hear])
  {
    RunOne(s, Hear(y, e.hello, at, 2, NOTHING, j));
  }

  /** A call and its answer. */
  lemma DialHear(s: Overlay, at: Addr, x: PeerID, y: PeerID, i: Index, j: Index, e: Exchange)
    returns (events: seq<Event>)
    requires x in s.nodes && y in s.nodes && x != y && i !in s.nodes[x].m.store && j !in s.nodes[y].m.store
    requires CreateHello(s.nodes[x].m, y, at, 1, NOTHING, NOTHING, i) == (e.a, Good(e.hello))
    requires HandleHello(s.nodes[y].m, e.hello, at, 2, NOTHING, j) == (e.b, Good(e.resp))
    ensures LandsFreely(s, events) && O.Run(s, events).ip == s.ip
    ensures
      var s' := O.Run(s, events);
      && s'.nodes == s.nodes[x := s.nodes[x].(m := e.a)][y := s.nodes[y].(m := e.b)] && e.resp in s'.responses
  {
    var dial, hear := Dial(x, y, at, 1, NOTHING, NOTHING, i), Hear(y, e.hello, at, 2, NOTHING, j);
    DialIs(s, at, x, y, i, e);
    HearIs(WithManager(s, x, e.a), at, y, j, e);
    RunAppend(s, [dial], [hear]);
    events := [dial] + [hear];
  }

  /** The three messages at the two managers. */
  lemma ManagersPair(at: Addr, m: Manager, k: Manager, i: Index, j: Index) returns (e: Exchange, a: Manager)
    requires i !in m.store && j !in m.store && j !in k.store && i != j
    ensures CreateHello(m, Self(k), at, 1, NOTHING, NOTHING, i) == (e.a, Good(e.hello))
    ensures HandleHello(k, e.hello, at, 2, NOTHING, j) == (e.b, Good(e.resp))
    ensures HandleResponse(e.a, e.resp, at) == (a, Good(Self(k)))
    ensures e.resp.session == j && j !in e.a.store && a.me == m.me && e.b.me == k.me
    ensures Paired(a, e.b, j) && a.store[j].stage == 3 && a.store[j].addr == at
    ensures a.store.Keys == m.store.Keys + {j} && e.b.store.Keys == k.store.Keys + {j}
    ensures e.b.store[j].stage == 2 && e.b.store[j].addr == at
  {
    e := CallAnswered(m, k, 1, 2, NOTHING, NOTHING, NOTHING, at, at, i, j);
    HandshakePairs(m, k, 1, 2, NOTHING, NOTHING, NOTHING, at, at, at, i, j, e.a);
    a := HandleResponse(e.a, e.resp, at).0;
    KeysAfter(e.a, e.resp, i, j, a);
  }

  /** The caller dials, the other end hears, the caller agrees, and attaches it if there is an address. */
  lemma CallerAttaches(s: Overlay, at: Addr, x: PeerID, y: PeerID, i: Index, j: Index)
    returns (events: seq<Event>, a: Manager, b: Manager)
    requires x in s.nodes && y in s.nodes && x != y && x == Self(s.nodes[x].m) && y == Self(s.nodes[y].m)
    requires i !in s.nodes[x].m.store && j !in s.nodes[x].m.store && j !in s.nodes[y].m.store && i != j
    ensures LandsFreely(s, events)
    ensures O.Run(s, events).nodes
         == s.nodes[y := s.nodes[y].(m := b)][x := Connected(s.ip, s.nodes[x].(m := a), y, at.Some?)]
    ensures a.me == s.nodes[x].m.me && b.me == s.nodes[y].m.me && Paired(a, b, j)
    ensures a.store[j].stage == 3 && a.store[j].addr == at
    ensures a.store.Keys == s.nodes[x].m.store.Keys + {j} && b.store.Keys == s.nodes[y].m.store.Keys + {j}
    ensures b.store[j].stage == 2 && b.store[j].addr == at
  {
    var e: Exchange;
    e, a := ManagersPair(at, s.nodes[x].m, s.nodes[y].m, i, j);
    b := e.b;
    events := ThreeEvents(s, at, x, y, i, j, e, a);
  }

  lemma ThreeEvents(s: Overlay, at: Addr, x: PeerID, y: PeerID, i: Index, j: Index, e: Exchange, a: Manager)
    returns (events: seq<Event>)
    requires x in s.nodes && y in s.nodes && x != y
    requires i !in s.nodes[x].m.store && j !in s.nodes[y].m.store
    requires CreateHello(s.nodes[x].m, y, at, 1, NOTHING, NOTHING, i) == (e.a, Good(e.hello))
    requires HandleHello(s.nodes[y].m, e.hello, at, 2, NOTHING, j) == (e.b, Good(e.resp))
    requires HandleResponse(e.a, e.resp, at) == (a, Good(y))
    ensures e.resp.session !in e.a.store ==> LandsFreely(s, events)
    ensures O.Run(s, events).nodes
         == s.nodes[y := s.nodes[y].(m := e.b)][x := Connected(s.ip, s.nodes[x].(m := a), y, at.Some?)]
  {
    var first := DialHear(s, at, x, y, i, j, e);
    var s2, agree := O.Run(s, first), Agree(x, e.resp, at);
    AgreesSo(s2, at, x, e.resp, y, a);
    RunOne(s2, agree);
    RunAppend(s, first, [agree]);
    events := first + [agree];
    ReorderPuts(s.nodes, x, y, s.nodes[x].(m := e.a), s.nodes[y].(m := e.b),
                Connected(s.ip, s.nodes[x].(m := a), y, at.Some?));
  }

  lemma ReorderPuts(nodes: Parties, x: PeerID, y: PeerID, p: Party, q: Party, p': Party)
    requires x != y
    ensures nodes[x := p][y := q][x := p'] == nodes[y := q][x := p']
  {
  }

  lemma AgreesSo(s: Overlay, at: Addr, x: PeerID, resp: ResponseMsg, y: PeerID, a: Manager)
    requires x in s.nodes && resp in s.responses && HandleResponse(s.nodes[x].m, resp, at) == (a, Good(y))
    ensures O.Apply(s, Agree(x, resp, at)).nodes == s.nodes[x := Connected(s.ip, s.nodes[x].(m := a), y, at.Some?)]
    ensures resp.session !in s.nodes[x].m.store ==> Lands(s, Agree(x, resp, at))
  {
  }

  lemma KeysAfter(m: Manager, resp: ResponseMsg, i: Index, j: Index, a: Manager)
    requires resp.sender == i && resp.session == j && i in m.store && i != j && j in a.store
    requires a.store == Swapped(m.store[i := a.store[j]], i, j)
    ensures a.store.Keys == m.store.Keys - {i} + {j}
  {
  }

  /** The caller seals, the other end opens and attaches it. */
  lemma AnswererAttaches(s: Overlay, x: PeerID, y: PeerID, j: Index)
    returns (events: seq<Event>, a: Manager, b: Manager)
    requires x in s.nodes && y in s.nodes && x != y && x == Self(s.nodes[x].m) && y == Self(s.nodes[y].m)
    requires Paired(s.nodes[x].m, s.nodes[y].m, j)
    requires s.nodes[y].m.store[j].stage == 2 && s.nodes[y].m.store[j].addr.Some?
    ensures LandsFreely(s, events)
    ensures O.Run(s, events).nodes
         == s.nodes[x := s.nodes[x].(m := a)][y := Connected(s.ip, s.nodes[y].(m := b), x, true)]
    ensures a.me == s.nodes[x].m.me && b.me == s.nodes[y].m.me
    ensures a.store.Keys == s.nodes[x].m.store.Keys && b.store.Keys == s.nodes[y].m.store.Keys
  {
    var m, k := s.nodes[x].m, s.nodes[y].m;
    PairedDataOpens(m, k, j, NOTHING);
    var made := CreateData(m, y, NOTHING, j).1;
    var d := made.value.0;
    a, b := CreateData(m, y, NOTHING, j).0, HandleData(k, d).0;
    var seal, open := Event.Seal(x, y, NOTHING, j), Event.Open(y, d, true);
    var s1 := O.Apply(s, seal);
    assert s1.nodes == s.nodes[x := s.nodes[x].(m := a)] && d in s1.data;
    DataStore(k, d);
    events := [seal] + [open];
    RunOne(s, seal);
    RunOne(s1, open);
    RunAppend(s, [seal], [open]);
  }

  /** What linking up leaves of a node: one more session, slot and route. */
  predicate Extended(p: Party, p': Party, peer: PeerID, j: Index) {
    var slot := FirstNull(p.tables.slots, 0);
    && p'.m.me == p.m.me && p'.m.store.Keys == p.m.store.Keys + {j}
    && p'.tables == (if slot == 256 then p.tables else Attached(p.tables, peer, Link))
    && p'.routes == (if slot == 256 then p.routes else Added(p.routes, peer, [slot]))
  }

  /** Any two nodes can link up, under any index that is free at both. */
  lemma LinkUp(s: Overlay, x: PeerID, y: PeerID, i: Index, j: Index) returns (events: seq<Event>)
    requires x in s.nodes && y in s.nodes && x != y && x == Self(s.nodes[x].m) && y == Self(s.nodes[y].m)
    requires i !in s.nodes[x].m.store && j !in s.nodes[x].m.store && j !in s.nodes[y].m.store && i != j
    ensures LandsFreely(s, events)
    ensures
      var s' := O.Run(s, events);
      && s'.nodes.Keys == s.nodes.Keys
      && Extended(s.nodes[x], s'.nodes[x], y, j) && Extended(s.nodes[y], s'.nodes[y], x, j)
      && forall z <- s.nodes :: z != x && z != y ==> s'.nodes[z] == s.nodes[z]
  {
    var first, a, b := CallerAttaches(s, HERE, x, y, i, j);
    var s1 := O.Run(s, first);
    var second, a', b' := AnswererAttaches(s1, x, y, j);
    RunAppend(s, first, second);
    events := first + second;
  }

  // ---------------------------------------------------------------- a session that does not open

  /** A session with keys whose data does not open at the node it names. */
  ghost predicate Orphan(s: Overlay, y: PeerID, j: Index, x: PeerID, payload: Term) {
    && x in s.nodes && y in s.nodes && j in s.nodes[y].m.store && s.nodes[y].m.store[j].peer == x
    && var made := CreateData(s.nodes[y].m, x, payload, j).1;
    made.Good? && HandleData(s.nodes[x].m, made.value.0).1.Bad?
  }

  /** A response that is lost leaves one, wherever a node answers under an index that the caller does not use. */
  lemma LostResponse(s: Overlay, x: PeerID, y: PeerID, i: Index, j: Index, payload: Term) returns (events: seq<Event>)
    requires x in s.nodes && y in s.nodes && x != y && x == Self(s.nodes[x].m) && y == Self(s.nodes[y].m)
    requires i !in s.nodes[x].m.store && j !in s.nodes[x].m.store && j !in s.nodes[y].m.store && i != j
    ensures LandsFreely(s, events) && Orphan(O.Run(s, events), y, j, x, payload)
  {
    var e := CallAnswered(s.nodes[x].m, s.nodes[y].m, 1, 2, NOTHING, NOTHING, NOTHING, HERE, HERE, i, j);
    events := DialHear(s, HERE, x, y, i, j, e);
    DataOpensIff(e.b, e.a, j, payload);
  }

  lemma TwoNodes(ip: PeerID -> Address, a: nat, b: nat) returns (events: seq<Event>)
    requires a != b
    ensures LandsFreely(Empty(ip), events)
    ensures
      var x, y := PeerID(Point(a)), PeerID(Point(b));
      O.Run(Empty(ip), events).nodes == map[x := Entered(a), y := Entered(b)]
  {
    EnterIs(Empty(ip), a);
    EnterIs(WithParty(Empty(ip), PeerID(Point(a)), Entered(a)), b);
    RunAppend(Empty(ip), [Enter(a)], [Enter(b)]);
    events := [Enter(a)] + [Enter(b)];
  }

  /** Such a state is reachable, between any two nodes. */
  lemma OrphanReachable(ip: PeerID -> Address, a: nat, b: nat, i: Index, j: Index, payload: Term)
    returns (events: seq<Event>)
    requires a != b && i != j
    ensures LandsFreely(Empty(ip), events)
    ensures Orphan(O.Run(Empty(ip), events), PeerID(Point(b)), j, PeerID(Point(a)), payload)
  {
    var first := TwoNodes(ip, a, b);
    var second := LostResponse(O.Run(Empty(ip), first), PeerID(Point(a)), PeerID(Point(b)), i, j, payload);
    RunAppend(Empty(ip), first, second);
    events := first + second;
  }

  // ---------------------------------------------------------------- a session over the upper layer

  /** Two sessions of x for y: over one of them packets get through, over the other, which is as good but was made
      without an address, none does. */
  ghost predicate Shadowed(w: World, x: PeerID, y: PeerID, near: Pick, far: Pick) {
    && Adjacent(w, x, y, near) && Found(w, x, y, far) && Linked(w, x, y, far)
    && forall c, b, len :: Cross(c, w, x, y, b, len, far) == None
  }

  /** Neighbours that also shake hands over the upper layer come to that. */
  lemma ShadowReachable(ip: PeerID -> Address, a: nat, b: nat) returns (events: seq<Event>, near: Pick, far: Pick)
    requires a != b
    ensures LandsFreely(Empty(ip), events)
    ensures
      var w, x, y := WorldOf(O.Run(Empty(ip), events)), PeerID(Point(a)), PeerID(Point(b));
      Leads(NetOf(w), x, 1, y) && Shadowed(w, x, y, near, far)
  {
    var x, y := PeerID(Point(a)), PeerID(Point(b));
    var ma, mb;
    events, ma, mb := TwicePaired(ip, a, b);
    near := EverySlotIsLinked(ip, events, x, 1, y, NONCE);
    far := Pick(2, NONCE);
    FarLoses(WorldOf(O.Run(Empty(ip), events)), ma, mb, far);
  }

  /** Two nodes that enter and link up. */
  lemma Neighbours(ip: PeerID -> Address, a: nat, b: nat) returns (events: seq<Event>)
    requires a != b
    ensures LandsFreely(Empty(ip), events)
    ensures
      var s, x, y := O.Run(Empty(ip), events), PeerID(Point(a)), PeerID(Point(b));
      && x in s.nodes && y in s.nodes && Self(s.nodes[x].m) == x && Self(s.nodes[y].m) == y
      && s.nodes[x].m.store.Keys == {1} && s.nodes[y].m.store.Keys == {1}
      && s.nodes[x].tables.slots[1] == Entry(y, Link)
  {
    var x, y := PeerID(Point(a)), PeerID(Point(b));
    var first := TwoNodes(ip, a, b);
    var s1 := O.Run(Empty(ip), first);
    var second := LinkUp(s1, x, y, 0, 1);
    var s2 := O.Run(s1, second);
    EnteredFilled(a);
    ExtendedFilled(s1.nodes[x], s2.nodes[x], y, 1, 1);
    RunAppend(Empty(ip), first, second);
    events := first + second;
  }

  /** They shake hands again without an address. */
  lemma TwicePaired(ip: PeerID -> Address, a: nat, b: nat) returns (events: seq<Event>, ma: Manager, mb: Manager)
    requires a != b
    ensures LandsFreely(Empty(ip), events)
    ensures
      var s, x, y := O.Run(Empty(ip), events), PeerID(Point(a)), PeerID(Point(b));
      && x in s.nodes && y in s.nodes && s.nodes[x].m == ma && s.nodes[y].m == mb && Self(ma) == x && Self(mb) == y
      && Leads(NetOf(WorldOf(s)), x, 1, y) && Paired(ma, mb, 2) && ma.store[2].addr.None?
  {
    var first := Neighbours(ip, a, b);
    var second;
    second, ma, mb := CallerAttaches(O.Run(Empty(ip), first), None, PeerID(Point(a)), PeerID(Point(b)), 0, 2);
    RunAppend(Empty(ip), first, second);
    events := first + second;
  }

  /** A pair whose one end has no address. */
  lemma FarLoses(w: World, m: Manager, k: Manager, pick: Pick)
    requires Paired(m, k, pick.idx) && |pick.nonce| == 8 && m.store[pick.idx].addr.None?
    requires Self(m) in w && w[Self(m)].store == m.store && Self(k) in w && w[Self(k)].store == k.store
    ensures Found(w, Self(m), Self(k), pick) && Linked(w, Self(m), Self(k), pick)
    ensures forall c, b, len :: Cross(c, w, Self(m), Self(k), b, len, pick) == None
  {
    PairedIsLinked(w, m, k, pick.idx, pick.nonce);
    forall c, b, len
      ensures Cross(c, w, Self(m), Self(k), b, len, pick) == None
    {
      NoAddressNoLink(c, w, Self(m), Self(k), b, len, pick);
    }
  }

  // ---------------------------------------------------------------- a landing that is not free

  /** A connected session whose node names a peer that holds no other end of it. */
  ghost predicate Widowed(s: Overlay, v: PeerID, j: Index, x: PeerID) {
    && v in s.nodes && x in s.nodes && Session3(s.nodes[v].m.store, j, x)
    && !Paired(s.nodes[v].m, s.nodes[x].m, j)
  }

  /** Node y answers x under the index of x's session with v, and x accepts. */
  lemma LandsOn(s: Overlay, v: PeerID, x: PeerID, y: PeerID, i: Index, j: Index) returns (events: seq<Event>)
    requires v in s.nodes && x in s.nodes && y in s.nodes && x != y && v != x && v != y
    requires v == Self(s.nodes[v].m) && x == Self(s.nodes[x].m) && y == Self(s.nodes[y].m)
    requires i !in s.nodes[x].m.store && j !in s.nodes[y].m.store && i != j
    requires Paired(s.nodes[v].m, s.nodes[x].m, j) && Session3(s.nodes[v].m.store, j, x)
    ensures Widowed(O.Run(s, events), v, j, x)
  {
    var a, b := s.nodes[x].m, s.nodes[y].m;
    var e := CallAnswered(a, b, 1, 2, NOTHING, NOTHING, NOTHING, HERE, HERE, i, j);
    LandingBreaksPair(s.nodes[v].m, a, b, 1, 2, NOTHING, NOTHING, NOTHING, HERE, HERE, HERE, i, j);
    events := ThreeEvents(s, HERE, x, y, i, j, e, HandleResponse(e.a, e.resp, HERE).0);
  }

  /** So the guard on landings is needed: any three nodes can come to such a state. */
  lemma LandingReachable(ip: PeerID -> Address, a: nat, b: nat, v: nat, j: Index) returns (events: seq<Event>)
    requires a != b && a != v && b != v && j != 0
    ensures Widowed(O.Run(Empty(ip), events), PeerID(Point(v)), j, PeerID(Point(a)))
    ensures !LandsFreely(Empty(ip), events)
  {
    var x, y, z := PeerID(Point(a)), PeerID(Point(b)), PeerID(Point(v));
    var e1 := ThreeNodes(ip, a, b, v);
    var s1 := O.Run(Empty(ip), e1);
    var e2, mv, ma := CallerAttaches(s1, HERE, z, x, 0, j);
    var s2 := O.Run(s1, e2);
    var e3 := LandsOn(s2, z, x, y, 0, j);
    RunAppend(Empty(ip), e1, e2);
    RunAppend(Empty(ip), e1 + e2, e3);
    events := e1 + e2 + e3;
    if LandsFreely(Empty(ip), events) {
      EveryConnectedSessionIsPaired(ip, events, z, j);
    }
  }

  lemma ThreeNodes(ip: PeerID -> Address, a: nat, b: nat, c: nat) returns (events: seq<Event>)
    requires a != b && a != c && b != c
    ensures
      var x, y, z := PeerID(Point(a)), PeerID(Point(b)), PeerID(Point(c));
      O.Run(Empty(ip), events).nodes == map[x := Entered(a), y := Entered(b), z := Entered(c)]
  {
    var first := TwoNodes(ip, a, b);
    EnterIs(O.Run(Empty(ip), first), c);
    RunAppend(Empty(ip), first, [Enter(c)]);
    events := first + [Enter(c)];
  }

  // ---------------------------------------------------------------- tables one slot after the other

  /** The first `k` slots are taken, the others free. */
  predicate Filled(t: Tables, k: nat) {
    k <= 256 && (forall i :: 0 <= i < k ==> t.slots[i].Entry?) && (forall i :: k <= i < 256 ==> t.slots[i] == Null)
  }

  lemma FilledFirst(t: Tables, k: nat)
    requires Filled(t, k)
    ensures FirstNull(t.slots, 0) == k
  {
    if k < 256 {
      assert t.slots[k] == Null;
    }
  }

  lemma EnteredFilled(me: nat)
    ensures Filled(Entered(me).tables, 1) && Entered(me).tables.slots[0] == Entry(PeerID(Point(me)), Local)
  {
    assert FirstNull(EmptyTables().slots, 0) == 0;
  }

  /** A node with `k` slots taken that is linked up has one more, and a route of it. */
  lemma ExtendedFilled(p: Party, p': Party, peer: PeerID, j: Index, k: nat)
    requires Extended(p, p', peer, j) && Filled(p.tables, k) && k < 256
    ensures Filled(p'.tables, k + 1) && p'.tables.slots == p.tables.slots[k := Entry(peer, Link)]
    ensures p'.tables.bypeer == p.tables.bypeer[peer := k] && p'.routes == Added(p.routes, peer, [k])
  {
    FilledFirst(p.tables, k);
  }

  /** A node that has linked up with `peers`, in that order, and holds sessions under those indices. */
  predicate Like(p: Party, me: nat, keys: set<Index>, peers: seq<PeerID>) {
    && p.m.me == me && p.m.store.Keys == keys && |peers| < 255 && Filled(p.tables, |peers| + 1)
    && forall i :: 0 <= i < |peers| ==>
         && p.tables.slots[i + 1] == Entry(peers[i], Link)
         && peers[i] in p.tables.bypeer && p.tables.bypeer[peers[i]] == i + 1
  }

  lemma EnteredLike(me: nat)
    ensures Like(Entered(me), me, {}, []) && Entered(me).routes == map[]
  {
    EnteredFilled(me);
  }

  lemma ExtendedLike(p: Party, p': Party, peer: PeerID, j: Index, me: nat, keys: set<Index>, peers: seq<PeerID>)
    requires Extended(p, p', peer, j) && Like(p, me, keys, peers) && peer !in peers && |peers| < 254
    ensures Like(p', me, keys + {j}, peers + [peer]) && p'.routes == Added(p.routes, peer, [|peers| + 1])
  {
    ExtendedFilled(p, p', peer, j, |peers| + 1);
    var all := peers + [peer];
    forall i | 0 <= i < |all|
      ensures p'.tables.slots[i + 1] == Entry(all[i], Link)
      ensures all[i] in p'.tables.bypeer && p'.tables.bypeer[all[i]] == i + 1
    {
      if i < |peers| {
        assert peers[i] != peer;
      }
    }
  }

  /** What is known of a node: its scalar, its sessions' indices, its neighbours and its routes. */
  datatype Known = Known(me: nat, keys: set<Index>, peers: seq<PeerID>, routes: Table)

  predicate Knowing(s: Overlay, x: PeerID, n: Known) {
    x in s.nodes && x == PeerID(Point(n.me)) && Like(s.nodes[x], n.me, n.keys, n.peers) && s.nodes[x].routes == n.routes
  }

  function More(n: Known, peer: PeerID, j: Index): Known {
    Known(n.me, n.keys + {j}, n.peers + [peer], Added(n.routes, peer, [(|n.peers| + 1) % 256]))
  }

  /** A node that an event does not touch. */
  ghost predicate Bystanders(s: Overlay, s': Overlay, x: PeerID, y: PeerID) {
    forall z, n :: z != x && z != y && Knowing(s, z, n) ==> Knowing(s', z, n)
  }

  lemma LinkLike(s: Overlay, x: PeerID, y: PeerID, n: Known, m: Known, j: Index) returns (events: seq<Event>)
    requires Knowing(s, x, n) && Knowing(s, y, m) && x != y && 0 !in n.keys
    requires j !in n.keys && j !in m.keys && j != 0 && y !in n.peers && x !in m.peers
    requires |n.peers| < 254 && |m.peers| < 254
    ensures LandsFreely(s, events)
    ensures
      var s' := O.Run(s, events);
      Knowing(s', x, More(n, y, j)) && Knowing(s', y, More(m, x, j)) && Bystanders(s, s', x, y)
  {
    events := LinkUp(s, x, y, 0, j);
    var s' := O.Run(s, events);
    KnowingMore(s, s', x, y, n, j);
    KnowingMore(s, s', y, x, m, j);
    KnowingStill(s, s', x, y);
  }

  lemma KnowingMore(s: Overlay, s': Overlay, x: PeerID, y: PeerID, n: Known, j: Index)
    requires Knowing(s, x, n) && x in s'.nodes && Extended(s.nodes[x], s'.nodes[x], y, j)
    requires y !in n.peers && |n.peers| < 254
    ensures Knowing(s', x, More(n, y, j))
  {
    ExtendedLike(s.nodes[x], s'.nodes[x], y, j, n.me, n.keys, n.peers);
  }

  lemma KnowingStill(s: Overlay, s': Overlay, x: PeerID, y: PeerID)
    requires s'.nodes.Keys == s.nodes.Keys && forall z <- s.nodes :: z != x && z != y ==> s'.nodes[z] == s.nodes[z]
    ensures Bystanders(s, s', x, y)
  {
  }

  lemma KnownLeads(s: Overlay, x: PeerID, n: Known, i: nat)
    requires Knowing(s, x, n) && i < |n.peers| && n.peers[i] != EMPTY_PEER
    ensures Leads(NetIn(s.nodes), x, i + 1, n.peers[i])
  {
  }

  // ---------------------------------------------------------------- a callback that fires again

  /** A callback that fires again for a session, as in module Receivers, attaches its peer a second time. */
  lemma TwiceAttached(ip: PeerID -> Address, a: nat, b: nat) returns (events: seq<Event>)
    requires a != b
    ensures LandsFreely(Empty(ip), events)
    ensures
      var net, x, y := NetIn(O.Run(Empty(ip), events).nodes), PeerID(Point(a)), PeerID(Point(b));
      Leads(net, x, 1, y) && Leads(net, x, 2, y)
  {
    var x, y := PeerID(Point(a)), PeerID(Point(b));
    var e1 := TwoNodes(ip, a, b);
    var s1 := O.Run(Empty(ip), e1);
    var e2, ma, mb := CallerAttaches(s1, HERE, x, y, 0, 1);
    var s2, again := O.Run(s1, e2), Again(x, 1, true);
    RunAppend(Empty(ip), e1, e2);
    RunAppend(Empty(ip), e1 + e2, [again]);
    RunOne(s2, again);
    events := e1 + e2 + [again];
    EnteredFilled(a);
    AttachedTwice(Entered(a).tables, 1, y);
    AgainFires(s2, x, 1, y);
  }

  lemma AgainFires(s: Overlay, x: PeerID, j: Index, y: PeerID)
    requires x in s.nodes && Near3(s.nodes[x].m.store, j, y)
    ensures O.Apply(s, Again(x, j, true)).nodes == s.nodes[x := Connected(s.ip, s.nodes[x], y, true)]
    ensures Lands(s, Again(x, j, true))
  {
  }

  lemma AttachedTwice(t: Tables, k: nat, y: PeerID)
    requires Filled(t, k) && k < 255
    ensures
      var t' := Attached(t, y, Link);
      && FirstNull(t.slots, 0) == k && FirstNull(t'.slots, 0) == k + 1
      && Attached(t', y, Link).slots[k] == Entry(y, Link) && Attached(t', y, Link).slots[k + 1] == Entry(y, Link)
  {
    FilledFirst(t, k);
    FilledFirst(Attached(t, y, Link), k + 1);
  }

  // ---------------------------------------------------------------- a route learned before the link

  function Newcomer(me: nat): Known {
    Known(me, {}, [], map[])
  }

  lemma EnterKnown(s: Overlay, me: nat)
    requires PeerID(Point(me)) !in s.nodes
    ensures LandsFreely(s, [Enter(me)])
    ensures
      var s', x := O.Run(s, [Enter(me)]), PeerID(Point(me));
      Knowing(s', x, Newcomer(me)) && s'.nodes.Keys == s.nodes.Keys + {x} && Bystanders(s, s', x, x)
  {
    EnterIs(s, me);
    EnteredLike(me);
  }

  lemma FourNodes(ip: PeerID -> Address, a: nat, p: nat, z: nat, d: nat) returns (events: seq<Event>)
    requires a != p && a != z && a != d && p != z && p != d && z != d
    ensures LandsFreely(Empty(ip), events)
    ensures
      var s := O.Run(Empty(ip), events);
      && Knowing(s, PeerID(Point(a)), Newcomer(a)) && Knowing(s, PeerID(Point(p)), Newcomer(p))
      && Knowing(s, PeerID(Point(z)), Newcomer(z)) && Knowing(s, PeerID(Point(d)), Newcomer(d))
  {
    EnterKnown(Empty(ip), a);
    var s1 := O.Run(Empty(ip), [Enter(a)]);
    EnterKnown(s1, p);
    var s2 := O.Run(s1, [Enter(p)]);
    EnterKnown(s2, z);
    var s3 := O.Run(s2, [Enter(z)]);
    EnterKnown(s3, d);
    RunAppend(Empty(ip), [Enter(a)], [Enter(p)]);
    RunAppend(Empty(ip), [Enter(a)] + [Enter(p)], [Enter(z)]);
    RunAppend(Empty(ip), [Enter(a)] + [Enter(p)] + [Enter(z)], [Enter(d)]);
    events := [Enter(a)] + [Enter(p)] + [Enter(z)] + [Enter(d)];
  }

  /** Four nodes and what is known of each. */
  datatype Quad = Quad(a: PeerID, p: PeerID, z: PeerID, d: PeerID, na: Known, np: Known, nz: Known, nd: Known)

  predicate Four(s: Overlay, q: Quad) {
    && q.a != q.p && q.a != q.z && q.a != q.d && q.p != q.z && q.p != q.d && q.z != q.d
    && Knowing(s, q.a, q.na) && Knowing(s, q.p, q.np) && Knowing(s, q.z, q.nz) && Knowing(s, q.d, q.nd)
  }

  predicate AllNew(q: Quad) {
    && q.na == Newcomer(q.na.me) && q.np == Newcomer(q.np.me)
    && q.nz == Newcomer(q.nz.me) && q.nd == Newcomer(q.nd.me)
  }

  /** On a line p - a - z - d. */
  predicate Lined(q: Quad) {
    && q.na.peers == [q.p, q.z] && q.np.peers == [q.a] && q.nz.peers == [q.a, q.d] && q.nd.peers == [q.z]
    && q.np.keys == {1} && q.nd.keys == {3}
    && q.z in q.na.routes && q.na.routes[q.z] == [[2]]
  }

  lemma Linked4(s: Overlay, q: Quad, x: PeerID, y: PeerID, n: Known, m: Known, j: Index, q': Quad)
    returns (events: seq<Event>)
    requires Four(s, q) && Knowing(s, x, n) && Knowing(s, y, m) && x != y && 0 !in n.keys
    requires j !in n.keys && j !in m.keys && j != 0 && y !in n.peers && x !in m.peers
    requires |n.peers| < 254 && |m.peers| < 254
    requires SameNodes(q, q')
    requires q'.na == (if x == q.a then More(n, y, j) else if y == q.a then More(m, x, j) else q.na)
    requires q'.np == (if x == q.p then More(n, y, j) else if y == q.p then More(m, x, j) else q.np)
    requires q'.nz == (if x == q.z then More(n, y, j) else if y == q.z then More(m, x, j) else q.nz)
    requires q'.nd == (if x == q.d then More(n, y, j) else if y == q.d then More(m, x, j) else q.nd)
    ensures LandsFreely(s, events) && Four(O.Run(s, events), q')
  {
    events := LinkLike(s, x, y, n, m, j);
  }

  predicate SameNodes(q: Quad, q': Quad) {
    q'.a == q.a && q'.p == q.p && q'.z == q.z && q'.d == q.d
  }

  lemma FirstLinkOf(s: Overlay, q: Quad) returns (events: seq<Event>, q': Quad)
    requires Four(s, q) && AllNew(q)
    ensures LandsFreely(s, events) && Four(O.Run(s, events), q') && SameNodes(q, q')
    ensures q'.na.peers == [q.p] && q'.na.keys == {1} && q'.na.routes.Keys == {q.p}
    ensures q'.np.peers == [q.a] && q'.np.keys == {1} && q'.nz == Newcomer(q'.nz.me) && q'.nd == Newcomer(q'.nd.me)
  {
    q' := q.(na := More(q.na, q.p, 1), np := More(q.np, q.a, 1));
    events := Linked4(s, q, q.a, q.p, q.na, q.np, 1, q');
  }

  lemma SecondLinkOf(s: Overlay, q: Quad) returns (events: seq<Event>, q': Quad)
    requires Four(s, q) && q.na.peers == [q.p] && q.na.keys == {1} && q.na.routes.Keys == {q.p}
    requires q.np.peers == [q.a] && q.np.keys == {1} && q.nz == Newcomer(q.nz.me) && q.nd == Newcomer(q.nd.me)
    ensures LandsFreely(s, events) && Four(O.Run(s, events), q') && SameNodes(q, q')
    ensures q'.na.peers == [q.p, q.z] && q.z in q'.na.routes && q'.na.routes[q.z] == [[2]]
    ensures q'.np.peers == [q.a] && q'.np.keys == {1}
    ensures q'.nz.peers == [q.a] && q'.nz.keys == {2} && q'.nd == Newcomer(q'.nd.me)
  {
    var a, z := More(q.na, q.z, 2), More(q.nz, q.a, 2);
    q' := Quad(q.a, q.p, q.z, q.d, a, q.np, z, q.nd);
    events := Linked4(s, q, q.a, q.z, q.na, q.nz, 2, q');
  }

  lemma ThirdLinkOf(s: Overlay, q: Quad) returns (events: seq<Event>, q': Quad)
    requires Four(s, q) && q.na.peers == [q.p, q.z] && q.z in q.na.routes && q.na.routes[q.z] == [[2]]
    requires q.np.peers == [q.a] && q.np.keys == {1}
    requires q.nz.peers == [q.a] && q.nz.keys == {2} && q.nd == Newcomer(q.nd.me)
    ensures LandsFreely(s, events) && Four(O.Run(s, events), q') && SameNodes(q, q')
    ensures Lined(q') && q'.nd.routes.Keys == {q.z}
  {
    q' := q.(nz := More(q.nz, q.d, 3), nd := More(q.nd, q.z, 3));
    events := Linked4(s, q, q.z, q.d, q.nz, q.nd, 3, q');
  }

  lemma OnALine(s: Overlay, q: Quad) returns (events: seq<Event>, q': Quad)
    requires Four(s, q) && AllNew(q)
    ensures LandsFreely(s, events) && Four(O.Run(s, events), q') && SameNodes(q, q')
    ensures Lined(q') && q'.nd.routes.Keys == {q.z}
  {
    var e1, q1 := FirstLinkOf(s, q);
    var s1 := O.Run(s, e1);
    var e2, q2 := SecondLinkOf(s1, q1);
    var s2 := O.Run(s1, e2);
    var e3, q3 := ThirdLinkOf(s2, q2);
    RunAppend(s, e1, e2);
    RunAppend(s, e1 + e2, e3);
    events, q' := e1 + e2 + e3, q3;
  }

  /** A packet along the line teaches its last node a way back to its first. */
  lemma TeachKnown(s: Overlay, path: seq<PeerID>, route: seq<byte>, back: seq<byte>, n: Known)
    requires 2 <= |route| <= 13 && Trail(NetIn(s.nodes), path, route, back) && Knowing(s, path[|route|], n)
    ensures LandsFreely(s, [Teach(path, route, back)])
    ensures
      var s', x := O.Run(s, [Teach(path, route, back)]), path[|route|];
      && Knowing(s', x, n.(routes := Added(n.routes, path[0], Rev(back)))) && Bystanders(s, s', x, x)
  {
    RunOne(s, Teach(path, route, back));
  }

  lemma LineTrail(s: Overlay, q: Quad)
    requires Four(s, q) && Lined(q)
    ensures Trail(NetIn(s.nodes), [q.p, q.a, q.z, q.d], [1, 2, 2], [1, 1, 1])
  {
    KnownLeads(s, q.p, q.np, 0);
    KnownLeads(s, q.a, q.na, 0);
    KnownLeads(s, q.a, q.na, 1);
    KnownLeads(s, q.z, q.nz, 0);
    KnownLeads(s, q.z, q.nz, 1);
    KnownLeads(s, q.d, q.nd, 0);
    var path, route, back := [q.p, q.a, q.z, q.d], [1, 2, 2], [1, 1, 1];
    forall i | 0 <= i < 3
      ensures Leads(NetIn(s.nodes), path[i], route[i], path[i + 1])
      ensures Leads(NetIn(s.nodes), path[i + 1], back[i], path[i])
    {
    }
  }

  /** Node d learns a route to p over the line. */
  lemma Taught(s: Overlay, q: Quad) returns (events: seq<Event>, q': Quad)
    requires Four(s, q) && Lined(q) && q.nd.routes.Keys == {q.z}
    ensures LandsFreely(s, events) && Four(O.Run(s, events), q') && Lined(q')
    ensures q'.p in q'.nd.routes && q'.nd.routes[q'.p] == [[1, 1, 1]]
    ensures SameNodes(q, q')
  {
    LineTrail(s, q);
    var path: seq<PeerID>, route: seq<byte>, back: seq<byte> := [q.p, q.a, q.z, q.d], [1, 2, 2], [1, 1, 1];
    assert Rev(back) == [1, 1, 1];
    TeachKnown(s, path, route, back, q.nd);
    events := [Teach(path, route, back)];
    q' := q.(nd := q.nd.(routes := Added(q.nd.routes, q.p, Rev(back))));
  }

  /** And links up with p only then. */
  predicate Late(q: Quad) {
    && q.na.peers == [q.p, q.z] && q.np.peers == [q.a, q.d] && q.nz.peers == [q.a, q.d] && q.nd.peers == [q.z, q.p]
    && q.z in q.na.routes && q.na.routes[q.z] == [[2]]
    && q.p in q.nd.routes && q.nd.routes[q.p] == [[1, 1, 1], [2]]
  }

  lemma LinksLate(s: Overlay, q: Quad) returns (events: seq<Event>, q': Quad)
    requires Four(s, q) && Lined(q) && q.p in q.nd.routes && q.nd.routes[q.p] == [[1, 1, 1]]
    ensures LandsFreely(s, events) && Four(O.Run(s, events), q') && Late(q')
    ensures SameNodes(q, q')
  {
    var p, d := More(q.np, q.d, 4), More(q.nd, q.p, 4);
    assert d.routes[q.p] == [[1, 1, 1], [2]];
    q' := Quad(q.a, q.p, q.z, q.d, q.na, p, q.nz, d);
    events := Linked4(s, q, q.p, q.d, q.np, q.nd, 4, q');
  }

  /** A run that ends so, for any four nodes. */
  lemma LearnsFirst(ip: PeerID -> Address, a: nat, p: nat, z: nat, d: nat) returns (events: seq<Event>, q: Quad)
    requires a != p && a != z && a != d && p != z && p != d && z != d
    ensures LandsFreely(Empty(ip), events) && Four(O.Run(Empty(ip), events), q) && Late(q)
    ensures q.a == PeerID(Point(a)) && q.p == PeerID(Point(p)) && q.z == PeerID(Point(z)) && q.d == PeerID(Point(d))
  {
    var e1 := FourNodes(ip, a, p, z, d);
    var s1 := O.Run(Empty(ip), e1);
    var q1 := Quad(PeerID(Point(a)), PeerID(Point(p)), PeerID(Point(z)), PeerID(Point(d)),
                   Newcomer(a), Newcomer(p), Newcomer(z), Newcomer(d));
    var e2, q2 := OnALine(s1, q1);
    var s2 := O.Run(s1, e2);
    var e3, q3 := Taught(s2, q2);
    var s3 := O.Run(s2, e3);
    var e4, q4 := LinksLate(s3, q3);
    RunAppend(Empty(ip), e1, e2);
    RunAppend(Empty(ip), e1 + e2, e3);
    RunAppend(Empty(ip), e1 + e2 + e3, e4);
    events, q := e1 + e2 + e3 + e4, q4;
  }

  /** From this state on, x never answers y's pings over their own link, whatever slots and routes are added. */
  ghost predicate AwayFrom(w: World, x: PeerID, y: PeerID) {
    forall later: World, adds ::
      x in w && x in later && Grows(NetOf(w), NetOf(later)) && later[x].routes == AddedAll(w[x].routes, adds) ==>
        !KnowsSlot(later, x, y)
  }

  lemma AwayOf(s: Overlay, q: Quad)
    requires Four(s, q) && Late(q) && forall r <- s.nodes[q.d].routes :: s.nodes[q.d].routes[r] != []
    ensures AwayFrom(WorldOf(s), q.d, q.p)
  {
    var w := WorldOf(s);
    assert w[q.d].tables.slots[0 + 1] == Entry(q.nd.peers[0], Link);
    forall later: World, adds | q.d in later && Grows(NetOf(w), NetOf(later))
                                && later[q.d].routes == AddedAll(w[q.d].routes, adds)
      ensures !KnowsSlot(later, q.d, q.p)
    {
      AwayForGood(w, later, q.d, q.p, adds);
    }
  }

  /** Two nodes that are linked up, of which one is away from the other for good. */
  lemma AwayReachable(ip: PeerID -> Address, a: nat, p: nat, z: nat, d: nat) returns (events: seq<Event>)
    requires a != p && a != z && a != d && p != z && p != d && z != d
    ensures LandsFreely(Empty(ip), events)
    ensures
      var w, x, y := WorldOf(O.Run(Empty(ip), events)), PeerID(Point(d)), PeerID(Point(p));
      Leads(NetOf(w), x, 2, y) && Leads(NetOf(w), y, 2, x) && AwayFrom(w, x, y)
  {
    var q;
    events, q := LearnsFirst(ip, a, p, z, d);
    var s := O.Run(Empty(ip), events);
    NetOfWorld(s);
    KnownLeads(s, q.d, q.nd, 1);
    KnownLeads(s, q.p, q.np, 1);
    EmptySound(ip);
    RunSound(Empty(ip), events);
    assert RoutesLead(NetIn(s.nodes), q.d, s.nodes[q.d].routes);
    AwayOf(s, q);
  }

  /** The way out over p, and the way home over z. */
  lemma LateTrails(s: Overlay, q: Quad)
    requires Four(s, q) && Late(q)
    ensures Trail(NetIn(s.nodes), [q.a, q.p, q.d], [1, 2], [1, 2])
    ensures Leads(NetIn(s.nodes), q.d, 1, q.z) && Leads(NetIn(s.nodes), q.z, 1, q.a)
  {
    KnownLeads(s, q.a, q.na, 0);
    KnownLeads(s, q.p, q.np, 0);
    KnownLeads(s, q.p, q.np, 1);
    KnownLeads(s, q.d, q.nd, 0);
    KnownLeads(s, q.d, q.nd, 1);
    KnownLeads(s, q.z, q.nz, 0);
    var path, route, back := [q.a, q.p, q.d], [1, 2], [1, 2];
    forall i | 0 <= i < 2
      ensures Leads(NetIn(s.nodes), path[i], route[i], path[i + 1])
      ensures Leads(NetIn(s.nodes), path[i + 1], back[i], path[i])
    {
    }
  }

  lemma LateLookups(s: Overlay, q: Quad)
    requires Four(s, q) && Late(q)
    ensures
      var w := WorldOf(s);
      && PrevSlot(NetOf(w), q.p, q.a) == 1 && q.z in w && q.d in w[q.z].tables.bypeer
      && PrevByte(w, q.d, q.p) == Some(1) && PrevByte(w, q.a, q.z) == Some(2)
  {
    var w := WorldOf(s);
    assert w[q.p].tables.bypeer[q.np.peers[0]] == 1 && q.nz.peers[1] in w[q.z].tables.bypeer;
  }

  lemma DetourOf(s: Overlay, q: Quad)
    requires Four(s, q) && Late(q) && SoundNet(NetOf(WorldOf(s)))
    ensures
      var w := WorldOf(s);
      && Trail(NetOf(w), [q.a, q.p, q.d], [1, 2], [1, 2]) && PrevByte(w, q.d, q.p) == Some(1)
      && !KnowsSlot(w, q.d, q.p)
      && AnswerWalk(NetOf(w), [q.a, q.p, q.d], 1) == [q.d, q.z, q.a] && Homes(w, [q.d, q.z, q.a], q.a)
      && Leads(NetOf(w), q.d, 1, q.z) && Leads(NetOf(w), q.z, 1, q.a)
  {
    var w := WorldOf(s);
    NetOfWorld(s);
    LateTrails(s, q);
    LateLookups(s, q);
    Detour(w, q.a, q.p, q.z, q.d, 1, 2, 2, 1);
  }

  /** What d answers to a over p comes home over z: there are sessions of those links over which it is shown. */
  lemma DetourReachable(ip: PeerID -> Address, c: Aead, n: Names, a: nat, p: nat, z: nat, d: nat, orig: seq<byte>,
                        shown: seq<byte>)
    returns (events: seq<Event>, picks: seq<Pick>, picks': seq<Pick>)
    requires a != p && a != z && a != d && p != z && p != d && z != d
    requires Correct(c) && OwnPacket(orig, n.ip(n.key(PeerID(Point(a)))))
    requires IsTimeExceeded(shown, orig, n.ip(n.key(PeerID(Point(d)))), n.ip(n.key(PeerID(Point(a)))))
    ensures LandsFreely(Empty(ip), events)
    ensures
      var w := WorldOf(O.Run(Empty(ip), events));
      var x, y, v, u := PeerID(Point(a)), PeerID(Point(p)), PeerID(Point(z)), PeerID(Point(d));
      && Trail(NetOf(w), [x, y, u], [1, 2], [1, 2]) && !KnowsSlot(w, u, y)
      && PrevByte(w, u, y) == Some(1) && AnswerWalk(NetOf(w), [x, y, u], 1) == [u, v, x]
      && Traceroute.Traceroute(c, w, n, x, [1, 2], orig, picks, picks') == Some(shown)
  {
    var q;
    events, q := LearnsFirst(ip, a, p, z, d);
    var s := O.Run(Empty(ip), events);
    EmptySound(ip);
    RunSound(Empty(ip), events);
    WorldLinked(s);
    DetourOf(s, q);
    picks, picks' := DetourShown(c, n, WorldOf(s), q.a, q.p, q.z, q.d, orig, shown);
  }

  lemma DetourShown(c: Aead, n: Names, w: World, a: PeerID, p: PeerID, z: PeerID, d: PeerID, orig: seq<byte>,
                    shown: seq<byte>)
    returns (picks: seq<Pick>, picks': seq<Pick>)
    requires Correct(c) && OwnPacket(orig, n.ip(n.key(a))) && SoundNet(NetOf(w)) && AllLinked(w)
    requires Trail(NetOf(w), [a, p, d], [1, 2], [1, 2]) && PrevByte(w, d, p) == Some(1)
    requires AnswerWalk(NetOf(w), [a, p, d], 1) == [d, z, a] && Homes(w, [d, z, a], a)
    requires Leads(NetOf(w), d, 1, z) && Leads(NetOf(w), z, 1, a)
    requires IsTimeExceeded(shown, orig, n.ip(n.key(d)), n.ip(n.key(a)))
    ensures Traceroute.Traceroute(c, w, n, a, [1, 2], orig, picks, picks') == Some(shown)
  {
    picks := TrailLinked(w, [a, p, d], [1, 2], [1, 2], 2);
    picks' := HomePicks(w, d, z, a);
    ProbeReturnsIff(c, w, n, [a, p, d], [1, 2], [1, 2], orig, picks, picks', shown);
  }

  lemma HomePicks(w: World, d: PeerID, z: PeerID, a: PeerID) returns (picks: seq<Pick>)
    requires AllLinked(w) && Leads(NetOf(w), d, 1, z) && Leads(NetOf(w), z, 1, a)
    ensures PicksFor(w, [d, z, a], picks)
  {
    var first :| Adjacent(w, d, z, first);
    var second :| Adjacent(w, z, a, second);
    picks := [first, second];
  }
}
