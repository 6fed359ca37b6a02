/** Forwarders joined into a network: whole journeys of a packet, and all interleavings of joining, attaching,
    sending and hopping.  A packet in flight is never taken out of `flights`, so every run also covers loss,
    duplication and reordering by the links. */
module Network {
  import opened Bytes
  import opened Crypto
  import opened Forwarder

  type Net = map<PeerID, Tables>

  /** Slot `b` of node `x` sends to `y`.  Packets for the zero PeerID are dropped by the send queue. */
  predicate Leads(net: Net, x: PeerID, b: byte, y: PeerID) {
    x in net && net[x].slots[b] == Entry(y, Link) && y != EMPTY_PEER
  }

  /** Tables of a node `n` that attached itself first, as NewNode does, and then only links. */
  ghost predicate SoundNode(n: PeerID, t: Tables) {
    && n != EMPTY_PEER
    && Indexed(t) && Listed(t)
    && t.slots[0] == Entry(n, Local)
    && (forall i :: 1 <= i < 256 && t.slots[i].Entry? ==> t.slots[i].sink == Link)
    && (t.bypeer[n] == 0 ==> forall i :: 1 <= i < 256 && t.slots[i].Entry? ==> t.slots[i].peer != n)
  }

  ghost predicate SoundNet(net: Net) {
    forall n <- net :: SoundNode(n, net[n])
  }

  /** `fwd` walks `path` from its first node to its last, and `back` holds a slot back for each hop. */
  ghost predicate Trail(net: Net, path: seq<PeerID>, fwd: seq<byte>, back: seq<byte>) {
    && |path| == |fwd| + 1 == |back| + 1
    && forall i :: 0 <= i < |fwd| ==>
         Leads(net, path[i], fwd[i], path[i + 1]) && Leads(net, path[i + 1], back[i], path[i])
  }

  lemma TrailReverses(net: Net, path: seq<PeerID>, fwd: seq<byte>, back: seq<byte>)
    requires Trail(net, path, fwd, back)
    ensures Trail(net, Rev(path), Rev(back), Rev(fwd))
  {
    var n := |fwd|;
    forall i | 0 <= i < n
      ensures Leads(net, Rev(path)[i], Rev(back)[i], Rev(path)[i + 1])
      ensures Leads(net, Rev(path)[i + 1], Rev(fwd)[i], Rev(path)[i])
    {
      assert fwd[n - 1 - i] == Rev(fwd)[i] && back[n - 1 - i] == Rev(back)[i];
    }
  }

  /** Where a received packet's previous hop can be looked up, its label byte leads back to that hop. */
  lemma PrevSlotLeadsBack(net: Net, x: PeerID, fwd: byte, y: PeerID)
    requires SoundNet(net) && Leads(net, x, fwd, y) && y in net && x in net[y].bypeer
    ensures Leads(net, y, net[y].bypeer[x], x)
  {
    assert SoundNode(x, net[x]) && SoundNode(y, net[y]);
  }

  // ---------------------------------------------------------------- one packet in a fixed network

  datatype End = Arrived(hdr: Header) | Stopped | Faulted

  datatype Journey = Journey(nodes: seq<PeerID>, end: End)

  /** All hops of a packet that `from` sent to `at`. */
  function Drive(net: Net, from: PeerID, at: PeerID, h: Header): (j: Journey)
    ensures |j.nodes| >= 1 && j.nodes[0] == at
    decreases if h[0] > h[1] then 0 else h[1] as nat + 1 - h[0]
  {
    if at !in net then Journey([at], Stopped) else
    match Handle(net[at], h, from)
    case Refused(_) => Journey([at], Stopped)
    case Fault => Journey([at], Faulted)
    case Emit(slot, hdr, dst) =>
      if slot.Null? then Journey([at], Stopped)
      else if slot.sink == Local then Journey([at], Arrived(hdr))
      else if dst == EMPTY_PEER then Journey([at], Stopped)
      else
        var rest := Drive(net, at, dst, hdr);
        Journey([at] + rest.nodes, rest.end)
  }

  /** Whatever the tables and the header hold, a packet at position p of a label of n bytes is at n - p more nodes,
      at two if p is n and at one if p is past n. */
  lemma {:induction false} HopsBounded(net: Net, from: PeerID, at: PeerID, h: Header)
    ensures |Drive(net, from, at, h).nodes| <= if h[0] < h[1] then h[1] - h[0] else if h[0] == h[1] then 2 else 1
    decreases if h[0] > h[1] then 0 else h[1] as nat + 1 - h[0]
  {
    if at in net {
      var v := Handle(net[at], h, from);
      if v.Emit? && v.slot.Entry? && v.slot.sink == Link && v.dst != EMPTY_PEER {
        HopsBounded(net, at, v.dst, v.hdr);
      }
    }
  }

  /** A packet's whole journey from the node that sends it. */
  function Travel(net: Net, a: PeerID, route: seq<byte>): Journey
    requires a in net
  {
    match Originate(net[a], route)
    case Emit(slot, hdr, dst) =>
      if slot.Null? then Journey([a], Stopped)
      else if slot.sink == Local then Journey([a], Arrived(hdr))
      else if dst == EMPTY_PEER then Journey([a], Stopped)
      else
        var rest := Drive(net, a, dst, hdr);
        Journey([a] + rest.nodes, rest.end)
    case _ => Journey([a], Stopped)
  }

  /** The slot node `y` looks up for a packet from `x`. */
  function PrevSlot(net: Net, y: PeerID, x: PeerID): byte {
    if y in net && x in net[y].bypeer then net[y].bypeer[x] else 0
  }

  /** What the nodes of `path` write into a label as a packet passes. */
  function BackLabel(net: Net, path: seq<PeerID>): (back: seq<byte>)
    requires |path| >= 1
    ensures |back| == |path| - 1
    ensures forall i :: 0 <= i < |back| ==> back[i] == PrevSlot(net, path[i + 1], path[i])
  {
    seq(|path| - 1, i requires 0 <= i < |path| - 1 => PrevSlot(net, path[i + 1], path[i]))
  }

  /** A header at position `pos` with the label `done + rest`. */
  function Framed(pos: byte, done: seq<byte>, rest: seq<byte>): Header
    requires |done| + |rest| <= 14
  {
    [pos, |done| + |rest|] + done + rest + Zeros(14 - |done| - |rest|)
  }

  lemma FramedStep(pos: byte, done: seq<byte>, rest: seq<byte>, b: byte)
    requires |done| + |rest| <= 14 && rest != []
    ensures
      var h := Framed(pos, done, rest);
      && h[0] == pos && h[1] == |done| + |rest| && h[2 + |done|] == rest[0]
      && (|rest| > 1 ==> h[2 + |done| + 1] == rest[1])
      && h[2 + |done| := b] == Framed(pos, done + [b], rest[1..])
  {
  }

  lemma FramedLabel(pos: byte, done: seq<byte>)
    requires |done| <= 14
    ensures Framed(pos, done, [])[1] == |done| && Framed(pos, done, [])[2..2 + |done|] == done
  {
    var h := Framed(pos, done, []);
    forall i | 0 <= i < |done|
      ensures h[2 + i] == done[i]
    {
    }
  }

  lemma FramedAdvance(pos: byte, next: byte, done: seq<byte>, rest: seq<byte>)
    requires |done| + |rest| <= 14
    ensures Framed(pos, done, rest)[0 := next] == Framed(next, done, rest)
  {
  }

  /** Header of a packet between path[k] and path[k+1]: k slots back, then the rest of the route. */
  function MidHeader(net: Net, path: seq<PeerID>, fwd: seq<byte>, k: nat): Header
    requires |path| == |fwd| + 1 && k <= |fwd| <= 14
  {
    Framed(k, BackLabel(net, path)[..k], fwd[k..])
  }

  /** The label of a packet that has gone all the way. */
  function LastHeader(net: Net, path: seq<PeerID>): Header
    requires 2 <= |path| <= 15
  {
    Framed(|path| - 2, BackLabel(net, path), [])
  }

  lemma BackLabelLeadsBack(net: Net, path: seq<PeerID>, fwd: seq<byte>, back: seq<byte>)
    requires SoundNet(net) && Trail(net, path, fwd, back)
    ensures Trail(net, path, fwd, BackLabel(net, path))
  {
    forall i | 0 <= i < |fwd|
      ensures Leads(net, path[i + 1], BackLabel(net, path)[i], path[i])
    {
      assert Leads(net, path[i], fwd[i], path[i + 1]) && Leads(net, path[i + 1], back[i], path[i]);
      assert SoundNode(path[i + 1], net[path[i + 1]]);
      PrevSlotLeadsBack(net, path[i], fwd[i], path[i + 1]);
    }
  }

  /** One more byte of the label written. */
  lemma MidHeaderWrite(net: Net, path: seq<PeerID>, fwd: seq<byte>, k: nat)
    requires |path| == |fwd| + 1 && k < |fwd| <= 14
    ensures
      var h, b := MidHeader(net, path, fwd, k), PrevSlot(net, path[k + 1], path[k]);
      && h[0] == k && h[1] == |fwd| && h[2 + k] == fwd[k]
      && (k < |fwd| - 1 ==> h[2 + k + 1] == fwd[k + 1])
      && h[2 + k := b] == Framed(k, BackLabel(net, path)[..k + 1], fwd[k + 1..])
  {
    var b, back := PrevSlot(net, path[k + 1], path[k]), BackLabel(net, path);
    FramedStep(k, back[..k], fwd[k..], b);
    assert back[..k] + [b] == back[..k + 1];
    assert fwd[k..][1..] == fwd[k + 1..];
  }

  lemma MidHeaderSteps(net: Net, path: seq<PeerID>, fwd: seq<byte>, k: nat)
    requires |path| == |fwd| + 1 && k < |fwd| <= 14
    ensures
      var h, b := MidHeader(net, path, fwd, k), PrevSlot(net, path[k + 1], path[k]);
      && h[0] == k && h[1] == |fwd| && h[2 + k] == fwd[k]
      && (k < |fwd| - 1 ==> h[2 + k + 1] == fwd[k + 1] && h[2 + k := b][0 := k + 1] == MidHeader(net, path, fwd, k + 1))
      && (k == |fwd| - 1 ==> h[2 + k := b] == LastHeader(net, path))
  {
    MidHeaderWrite(net, path, fwd, k);
    var back := BackLabel(net, path);
    if k == |fwd| - 1 {
      assert back[..k + 1] == back && fwd[k + 1..] == [];
    } else {
      FramedAdvance(k, k + 1, back[..k + 1], fwd[k + 1..]);
    }
  }

  /** A node on the way knows the hop before it, itself and the hop after it. */
  ghost predicate Knows(net: Net, path: seq<PeerID>, fwd: seq<byte>, k: nat)
    requires |path| == |fwd| + 1 && k < |fwd|
  {
    && path[k + 1] in net && path[k] in net[path[k + 1]].bypeer
    && net[path[k + 1]].slots[0] == Entry(path[k + 1], Local)
    && (k < |fwd| - 1 ==> net[path[k + 1]].slots[fwd[k + 1]] == Entry(path[k + 2], Link) && path[k + 2] != EMPTY_PEER)
  }

  lemma TrailNode(net: Net, path: seq<PeerID>, fwd: seq<byte>, back: seq<byte>, k: nat)
    requires SoundNet(net) && Trail(net, path, fwd, back) && k < |fwd|
    ensures Knows(net, path, fwd, k)
  {
    assert Leads(net, path[k + 1], back[k], path[k]);
    assert SoundNode(path[k + 1], net[path[k + 1]]);
    if k < |fwd| - 1 {
      assert Leads(net, path[k + 1], fwd[k + 1], path[k + 2]);
    }
  }

  /** Handle on a header whose position and length are known. */
  lemma HandleAt(t: Tables, h: Header, src: PeerID, k: nat, length: nat)
    requires k < length <= 14 && h[0] == k && h[1] == length && src in t.bypeer
    ensures k < length - 1 ==>
      Handle(t, h, src) == Emit(t.slots[h[2 + k + 1]], h[2 + k := t.bypeer[src]][0 := k + 1],
          t.slots[h[2 + k + 1]].Peer())
    ensures k == length - 1 ==>
      Handle(t, h, src) == if k < 13 then Emit(t.slots[0], h[2 + k := t.bypeer[src]], EMPTY_PEER) else Fault
  {
  }

  lemma HandleOnTrail(net: Net, path: seq<PeerID>, fwd: seq<byte>, k: nat)
    requires |path| == |fwd| + 1 && k < |fwd| <= 14 && Knows(net, path, fwd, k)
    ensures Handle(net[path[k + 1]], MidHeader(net, path, fwd, k), path[k]) ==
      if k < |fwd| - 1 then Emit(Entry(path[k + 2], Link), MidHeader(net, path, fwd, k + 1), path[k + 2])
      else if k < 13 then Emit(Entry(path[k + 1], Local), LastHeader(net, path), EMPTY_PEER)
      else Fault
  {
    MidHeaderSteps(net, path, fwd, k);
    HandleAt(net[path[k + 1]], MidHeader(net, path, fwd, k), path[k], k, |fwd|);
  }

  lemma DriveStep(net: Net, path: seq<PeerID>, fwd: seq<byte>, k: nat)
    requires |path| == |fwd| + 1 && k < |fwd| <= 14 && Knows(net, path, fwd, k)
    ensures
      var j := Drive(net, path[k], path[k + 1], MidHeader(net, path, fwd, k));
      if k < |fwd| - 1 then
        var rest := Drive(net, path[k + 1], path[k + 2], MidHeader(net, path, fwd, k + 1));
        j == Journey([path[k + 1]] + rest.nodes, rest.end)
      else
        j == Journey([path[k + 1]], if k == 13 then Faulted else Arrived(LastHeader(net, path)))
  {
    HandleOnTrail(net, path, fwd, k);
  }

  lemma RestOf(path: seq<PeerID>, k: nat)
    requires k < |path|
    ensures path[k..] == [path[k]] + path[k + 1..] && (k == |path| - 1 ==> path[k..] == [path[k]])
  {
  }

  lemma {:induction false} DriveTrail(net: Net, path: seq<PeerID>, fwd: seq<byte>, k: nat)
    requires |path| == |fwd| + 1 && k < |fwd| <= 14
    requires forall i :: k <= i < |fwd| ==> Knows(net, path, fwd, i)
    ensures Drive(net, path[k], path[k + 1], MidHeader(net, path, fwd, k))
         == Journey(path[k + 1..], if |fwd| == 14 then Faulted else Arrived(LastHeader(net, path)))
    decreases |fwd| - k
  {
    RestOf(path, k + 1);
    if k < |fwd| - 1 {
      DriveTrail(net, path, fwd, k + 1);
    }
    DriveStep(net, path, fwd, k);
  }

  lemma FirstHeader(net: Net, path: seq<PeerID>, fwd: seq<byte>)
    requires |path| == |fwd| + 1 && |fwd| <= 14
    ensures RouteHeader(fwd) == MidHeader(net, path, fwd, 0)
  {
  }

  /** The sender's own step. */
  lemma TravelStart(net: Net, path: seq<PeerID>, fwd: seq<byte>)
    requires |path| == |fwd| + 1 && 1 <= |fwd| <= 14 && Leads(net, path[0], fwd[0], path[1])
    ensures
      var rest := Drive(net, path[0], path[1], MidHeader(net, path, fwd, 0));
      Travel(net, path[0], fwd) == Journey([path[0]] + rest.nodes, rest.end)
  {
    FirstHeader(net, path, fwd);
  }

  /** A route of up to 13 hops with slots both ways is delivered at its last node, with the label of slots back;
      a route of 14 such hops, which SendPacket admits, always runs into the out-of-range read at the last one. */
  lemma TravelTrail(net: Net, path: seq<PeerID>, fwd: seq<byte>, back: seq<byte>)
    requires SoundNet(net) && Trail(net, path, fwd, back) && 1 <= |fwd| <= 14
    ensures path[0] in net
    ensures Travel(net, path[0], fwd)
         == Journey(path, if |fwd| == 14 then Faulted else Arrived(LastHeader(net, path)))
  {
    assert Leads(net, path[0], fwd[0], path[1]);
    TravelStart(net, path, fwd);
    forall k | 0 <= k < |fwd|
      ensures Knows(net, path, fwd, k)
    {
      TrailNode(net, path, fwd, back, k);
    }
    DriveTrail(net, path, fwd, 0);
    assert path == [path[0]] + path[1..];
  }

  // ---------------------------------------------------------------- all runs

  /** A packet with its history: the route it was sent along and the nodes it has been sent to. */
  datatype Flight = Flight(route: seq<byte>, path: seq<PeerID>, hdr: Header)

  datatype State = State(net: Net, flights: set<Flight>, delivered: set<Flight>)

  datatype Action =
    | Join(n: PeerID)
    | Attach(n: PeerID, p: PeerID)
    | Send(n: PeerID, route: seq<byte>)
    | Hop(f: Flight)

  const START := State(map[], {}, {})

  /** A packet handed to a slot of node `at`: into the node's upper layer, onto a link, or dropped. */
  function Handed(s: State, route: seq<byte>, path: seq<PeerID>, v: Verdict): State {
    match v
    case Emit(Entry(_, Local), hdr, _) => s.(delivered := s.delivered + {Flight(route, path, hdr)})
    case Emit(Entry(_, Link), hdr, dst) =>
      if dst == EMPTY_PEER then s else s.(flights := s.flights + {Flight(route, path + [dst], hdr)})
    case _ => s
  }

  function Apply(s: State, a: Action): State {
    match a
    case Join(n) =>
      if n in s.net || n == EMPTY_PEER then s else s.(net := s.net[n := Attached(EmptyTables(), n, Local)])
    case Attach(n, p) =>
      if n in s.net then s.(net := s.net[n := Attached(s.net[n], p, Link)]) else s
    case Send(n, route) =>
      if n in s.net then Handed(s, route, [n], Originate(s.net[n], route)) else s
    case Hop(f) =>
      if f in s.flights && |f.path| >= 2 && f.path[|f.path| - 1] in s.net then
        var at, from := f.path[|f.path| - 1], f.path[|f.path| - 2];
        Handed(s, f.route, f.path, Handle(s.net[at], f.hdr, from))
      else s
  }

  function Run(s: State, actions: seq<Action>): State
    decreases |actions|
  {
    if actions == [] then s else Run(Apply(s, actions[0]), actions[1..])
  }

  /** The first `h` label bytes lead back along the path, the others are still the route. */
  ghost predicate LabelSplit(net: Net, f: Flight, h: nat) {
    && h <= |f.route| <= 14 && h < |f.path| && f.hdr[1] == |f.route|
    && Trail(net, f.path[..h + 1], f.route[..h], f.hdr[2..2 + h])
    && f.hdr[2 + h..2 + |f.route|] == f.route[h..]
  }

  ghost predicate FlightOk(net: Net, f: Flight) {
    && |f.path| >= 2 && |f.path| - 2 < |f.route|
    && var pos := |f.path| - 2;
    && f.hdr[0] == pos
    && LabelSplit(net, f, pos)
    && Leads(net, f.path[pos], f.route[pos], f.path[pos + 1])
  }

  /** A delivered packet went the whole route, at most 13 hops, or met a slot 0 on the way. */
  ghost predicate DeliveredOk(net: Net, f: Flight) {
    && |f.path| >= 1 && f.path[0] in net
    && LabelSplit(net, f, |f.path| - 1)
    && (|f.path| - 1 == |f.route| ==> |f.route| <= 13)
    && (|f.path| - 1 < |f.route| ==> f.route[|f.path| - 1] == 0)
  }

  ghost predicate Invariant(s: State) {
    && SoundNet(s.net)
    && (forall f <- s.flights :: FlightOk(s.net, f))
    && (forall f <- s.delivered :: DeliveredOk(s.net, f))
  }

  /** Every node of `net` is in `later` with the same occupied slots. */
  ghost predicate Grows(net: Net, later: Net) {
    forall n <- net :: n in later && Extends(net[n], later[n])
  }

  lemma GrowsKeepsTrails(net: Net, later: Net, path: seq<PeerID>, fwd: seq<byte>, back: seq<byte>)
    requires Grows(net, later) && Trail(net, path, fwd, back)
    ensures Trail(later, path, fwd, back)
  {
    forall i | 0 <= i < |fwd|
      ensures Leads(later, path[i], fwd[i], path[i + 1]) && Leads(later, path[i + 1], back[i], path[i])
    {
      assert Leads(net, path[i], fwd[i], path[i + 1]) && Leads(net, path[i + 1], back[i], path[i]);
    }
  }

  lemma GrowsKeepsLabel(net: Net, later: Net, f: Flight, h: nat)
    requires Grows(net, later) && LabelSplit(net, f, h)
    ensures LabelSplit(later, f, h)
  {
    GrowsKeepsTrails(net, later, f.path[..h + 1], f.route[..h], f.hdr[2..2 + h]);
  }

  lemma GrowsKeepsFlight(net: Net, later: Net, f: Flight)
    requires Grows(net, later)
    ensures FlightOk(net, f) ==> FlightOk(later, f)
    ensures DeliveredOk(net, f) ==> DeliveredOk(later, f)
  {
    if FlightOk(net, f) {
      GrowsKeepsLabel(net, later, f, |f.path| - 2);
    }
    if DeliveredOk(net, f) {
      GrowsKeepsLabel(net, later, f, |f.path| - 1);
    }
  }

  lemma GrowsKeepsFlights(s: State, later: Net)
    requires Invariant(s) && Grows(s.net, later) && SoundNet(later)
    ensures Invariant(s.(net := later))
  {
    forall f <- s.flights
      ensures FlightOk(later, f)
    {
      GrowsKeepsFlight(s.net, later, f);
    }
    forall f <- s.delivered
      ensures DeliveredOk(later, f)
    {
      GrowsKeepsFlight(s.net, later, f);
    }
  }

  lemma AttachSound(net: Net, n: PeerID, p: PeerID)
    requires SoundNet(net) && n in net
    ensures
      var later := net[n := Attached(net[n], p, Link)];
      SoundNet(later) && Grows(net, later)
  {
    AttachKeeps(net[n], p, Link);
    assert SoundNode(n, net[n]);
  }

  lemma JoinSound(net: Net, n: PeerID)
    requires SoundNet(net) && n !in net && n != EMPTY_PEER
    ensures
      var later := net[n := Attached(EmptyTables(), n, Local)];
      SoundNet(later) && Grows(net, later)
  {
    assert FirstNull(EmptyTables().slots, 0) == 0;
  }

  lemma AddFlight(s: State, f: Flight)
    requires Invariant(s) && FlightOk(s.net, f)
    ensures Invariant(s.(flights := s.flights + {f}))
  {
  }

  lemma AddDelivered(s: State, f: Flight)
    requires Invariant(s) && DeliveredOk(s.net, f)
    ensures Invariant(s.(delivered := s.delivered + {f}))
  {
  }

  /** The three cases of Handed. */
  lemma HandedCases(s: State, route: seq<byte>, path: seq<PeerID>, v: Verdict)
    ensures v.Emit? && v.slot.Entry? && v.slot.sink == Local ==>
      Handed(s, route, path, v) == State(s.net, s.flights, s.delivered + {Flight(route, path, v.hdr)})
    ensures v.Emit? && v.slot.Entry? && v.slot.sink == Link && v.dst != EMPTY_PEER ==>
      Handed(s, route, path, v) == State(s.net, s.flights + {Flight(route, path + [v.dst], v.hdr)}, s.delivered)
    ensures !(v.Emit? && v.slot.Entry?) || (v.slot.sink == Link && v.dst == EMPTY_PEER) ==>
      Handed(s, route, path, v) == s
  {
  }

  /** Handing a packet on keeps the invariant when what is handed on does. */
  lemma HandedSound(s: State, route: seq<byte>, path: seq<PeerID>, v: Verdict)
    requires Invariant(s)
    requires v.Emit? && v.slot.Entry? && v.slot.sink == Local ==> DeliveredOk(s.net, Flight(route, path, v.hdr))
    requires v.Emit? && v.slot.Entry? && v.slot.sink == Link && v.dst != EMPTY_PEER ==>
      FlightOk(s.net, Flight(route, path + [v.dst], v.hdr))
    ensures Invariant(Handed(s, route, path, v)) && Handed(s, route, path, v).net == s.net
  {
    HandedCases(s, route, path, v);
    if v.Emit? && v.slot.Entry? {
      if v.slot.sink == Local {
        AddDelivered(s, Flight(route, path, v.hdr));
      } else if v.dst != EMPTY_PEER {
        AddFlight(s, Flight(route, path + [v.dst], v.hdr));
      }
    }
  }

  /** A label nobody has touched yet. */
  lemma FreshLabel(net: Net, route: seq<byte>, path: seq<PeerID>)
    requires 1 <= |route| <= 14 && |path| >= 1
    ensures LabelSplit(net, Flight(route, path, RouteHeader(route)), 0)
  {
    var h := RouteHeader(route);
    assert h[2..2 + |route|] == route[0..];
    assert Trail(net, path[..1], route[..0], h[2..2]);
  }

  lemma SendSound(net: Net, n: PeerID, route: seq<byte>)
    requires SoundNet(net) && n in net
    ensures
      var v := Originate(net[n], route);
      && (v.Emit? && v.slot.Entry? && v.slot.sink == Local ==> DeliveredOk(net, Flight(route, [n], v.hdr)))
      && (v.Emit? && v.slot.Entry? && v.slot.sink == Link && v.dst != EMPTY_PEER ==>
            FlightOk(net, Flight(route, [n] + [v.dst], v.hdr)))
  {
    if 1 <= |route| <= 14 {
      assert SoundNode(n, net[n]);
      FreshLabel(net, route, [n]);
      FreshLabel(net, route, [n] + [Originate(net[n], route).dst]);
    }
  }

  lemma TrailExtends(net: Net, path: seq<PeerID>, fwd: seq<byte>, back: seq<byte>, out: byte, home: byte, y: PeerID)
    requires Trail(net, path, fwd, back)
    requires Leads(net, path[|fwd|], out, y) && Leads(net, y, home, path[|fwd|])
    ensures Trail(net, path + [y], fwd + [out], back + [home])
  {
    var p, r, b := path + [y], fwd + [out], back + [home];
    forall i | 0 <= i < |r|
      ensures Leads(net, p[i], r[i], p[i + 1]) && Leads(net, p[i + 1], b[i], p[i])
    {
      if i < |fwd| {
        assert Leads(net, path[i], fwd[i], path[i + 1]) && Leads(net, path[i + 1], back[i], path[i]);
      }
    }
  }

  /** A label with one more slot back written. */
  lemma WrittenLabel(net: Net, f: Flight, hdr: Header, home: byte)
    requires FlightOk(net, f) && Leads(net, f.path[|f.path| - 1], home, f.path[|f.path| - 2])
    requires forall i :: 1 <= i < 16 ==> hdr[i] == if i == |f.path| then home else f.hdr[i]
    ensures LabelSplit(net, f.(hdr := hdr), |f.path| - 1)
  {
    var pos := |f.path| - 2;
    TrailExtends(net, f.path[..pos + 1], f.route[..pos], f.hdr[2..2 + pos], f.route[pos], home, f.path[pos + 1]);
    assert f.path[..pos + 2] == f.path[..pos + 1] + [f.path[pos + 1]];
    assert f.route[..pos + 1] == f.route[..pos] + [f.route[pos]];
    assert hdr[2..2 + pos + 1] == f.hdr[2..2 + pos] + [home];
    assert hdr[2 + pos + 1..2 + |f.route|] == f.hdr[2 + pos..2 + |f.route|][1..] == f.route[pos + 1..];
  }

  /** A flight with that label, sent on along the route. */
  lemma SentOn(net: Net, f: Flight, hdr: Header, y: PeerID)
    requires 1 <= |f.path| <= |f.route| && LabelSplit(net, f.(hdr := hdr), |f.path| - 1)
    requires hdr[0] == |f.path| - 1 && Leads(net, f.path[|f.path| - 1], f.route[|f.path| - 1], y)
    ensures FlightOk(net, Flight(f.route, f.path + [y], hdr))
  {
    assert (f.path + [y])[..|f.path|] == f.path[..|f.path|];
  }

  /** The label after one more hop: one more slot back. */
  lemma HopLabel(net: Net, f: Flight)
    requires SoundNet(net) && FlightOk(net, f) && f.path[|f.path| - 1] in net
    requires Handle(net[f.path[|f.path| - 1]], f.hdr, f.path[|f.path| - 2]).Emit?
    ensures
      var v := Handle(net[f.path[|f.path| - 1]], f.hdr, f.path[|f.path| - 2]);
      LabelSplit(net, f.(hdr := v.hdr), |f.path| - 1)
  {
    var pos := |f.path| - 2;
    var from, at := f.path[pos], f.path[pos + 1];
    PrevSlotLeadsBack(net, from, f.route[pos], at);
    WrittenLabel(net, f, Handle(net[at], f.hdr, from).hdr, net[at].bypeer[from]);
  }

  /** The slot HandlePacket hands a flight to: number 0 at the end of the route, the route's next byte before it. */
  lemma HopSlot(net: Net, f: Flight)
    requires FlightOk(net, f) && f.path[|f.path| - 1] in net
    requires Handle(net[f.path[|f.path| - 1]], f.hdr, f.path[|f.path| - 2]).Emit?
    ensures
      var pos, here := |f.path| - 2, net[f.path[|f.path| - 1]];
      var v := Handle(here, f.hdr, f.path[pos]);
      if pos == |f.route| - 1 then pos < 13 && v.slot == here.slots[0] && v.dst == EMPTY_PEER
      else v.slot == here.slots[f.route[pos + 1]] && v.dst == v.slot.Peer() && v.hdr[0] == pos + 1
  {
    var pos := |f.path| - 2;
    if pos < |f.route| - 1 {
      assert f.hdr[2 + pos + 1] == f.hdr[2 + pos..2 + |f.route|][1] == f.route[pos + 1];
    }
  }

  lemma OriginInNet(net: Net, f: Flight)
    requires FlightOk(net, f)
    ensures f.path[0] in net
  {
    var pos := |f.path| - 2;
    if pos > 0 {
      assert Leads(net, f.path[..pos + 1][0], f.route[..pos][0], f.path[..pos + 1][1]);
    }
  }

  lemma HopArrives(net: Net, f: Flight)
    requires SoundNet(net) && FlightOk(net, f) && f.path[|f.path| - 1] in net
    ensures
      var at := f.path[|f.path| - 1];
      var v := Handle(net[at], f.hdr, f.path[|f.path| - 2]);
      v.Emit? && v.slot.Entry? && v.slot.sink == Local ==> DeliveredOk(net, f.(hdr := v.hdr))
  {
    var at := f.path[|f.path| - 1];
    if Handle(net[at], f.hdr, f.path[|f.path| - 2]).Emit? {
      HopLabel(net, f);
      HopSlot(net, f);
      OriginInNet(net, f);
      assert SoundNode(at, net[at]);
    }
  }

  lemma HopForwards(net: Net, f: Flight)
    requires SoundNet(net) && FlightOk(net, f) && f.path[|f.path| - 1] in net
    ensures
      var at := f.path[|f.path| - 1];
      var v := Handle(net[at], f.hdr, f.path[|f.path| - 2]);
      v.Emit? && v.slot.Entry? && v.slot.sink == Link && v.dst != EMPTY_PEER ==>
        FlightOk(net, Flight(f.route, f.path + [v.dst], v.hdr))
  {
    var at, pos := f.path[|f.path| - 1], |f.path| - 2;
    var v := Handle(net[at], f.hdr, f.path[pos]);
    if v.Emit? && v.slot.Entry? && v.slot.sink == Link && v.dst != EMPTY_PEER {
      HopLabel(net, f);
      HopSlot(net, f);
      SentOn(net, f, v.hdr, v.dst);
    }
  }

  lemma JoinStep(s: State, n: PeerID)
    requires Invariant(s)
    ensures Invariant(Apply(s, Join(n))) && Grows(s.net, Apply(s, Join(n)).net)
  {
    if n !in s.net && n != EMPTY_PEER {
      JoinSound(s.net, n);
      GrowsKeepsFlights(s, s.net[n := Attached(EmptyTables(), n, Local)]);
    }
  }

  lemma AttachStep(s: State, n: PeerID, p: PeerID)
    requires Invariant(s)
    ensures Invariant(Apply(s, Attach(n, p))) && Grows(s.net, Apply(s, Attach(n, p)).net)
  {
    if n in s.net {
      AttachSound(s.net, n, p);
      GrowsKeepsFlights(s, s.net[n := Attached(s.net[n], p, Link)]);
    }
  }

  lemma SendStep(s: State, n: PeerID, route: seq<byte>)
    requires Invariant(s)
    ensures Invariant(Apply(s, Send(n, route))) && Apply(s, Send(n, route)).net == s.net
  {
    if n in s.net {
      SendSound(s.net, n, route);
      HandedSound(s, route, [n], Originate(s.net[n], route));
    }
  }

  lemma HopStep(s: State, f: Flight)
    requires Invariant(s)
    ensures Invariant(Apply(s, Hop(f))) && Apply(s, Hop(f)).net == s.net
  {
    if f in s.flights && |f.path| >= 2 && f.path[|f.path| - 1] in s.net {
      HopArrives(s.net, f);
      HopForwards(s.net, f);
      HandedSound(s, f.route, f.path, Handle(s.net[f.path[|f.path| - 1]], f.hdr, f.path[|f.path| - 2]));
    }
  }

  lemma StepSound(s: State, a: Action)
    requires Invariant(s)
    ensures Invariant(Apply(s, a)) && Grows(s.net, Apply(s, a).net)
  {
    match a
    case Join(n) => JoinStep(s, n);
    case Attach(n, p) => AttachStep(s, n, p);
    case Send(n, route) => SendStep(s, n, route);
    case Hop(f) => HopStep(s, f);
  }

  /** At every state of every run each packet's label is a way back followed by the untouched rest of the route,
      and no later step takes a slot away from it. */
  lemma {:induction false} RunsSound(s: State, actions: seq<Action>)
    requires Invariant(s)
    ensures Invariant(Run(s, actions)) && Grows(s.net, Run(s, actions).net)
    decreases |actions|
  {
    if actions != [] {
      StepSound(s, actions[0]);
      RunsSound(Apply(s, actions[0]), actions[1..]);
    }
  }

  // ---------------------------------------------------------------- the way back

  /** The packet was handed over at the end of its route, not at a slot 0 before it. */
  predicate Complete(f: Flight) {
    |f.path| == |f.route| + 1
  }

  /** Every node holds at most one slot per peer. */
  ghost predicate OneSlotEach(net: Net) {
    forall n <- net :: Inverse(net[n])
  }

  /** Wherever and whenever a packet is delivered, after however many later steps the slots it collected still
      take a new packet back over the same nodes to the node it came from, and the new label is a way out again. */
  lemma PrefixReturns(s: State, f: Flight, h: nat, actions: seq<Action>)
    requires Invariant(s) && LabelSplit(s.net, f, h) && 1 <= h <= 13
    ensures
      var net := Run(s, actions).net;
      var way := f.path[..h + 1];
      && Rev(way)[0] == f.path[h] && f.path[h] in net
      && Travel(net, f.path[h], Rev(f.hdr[2..2 + h])) == Journey(Rev(way), Arrived(LastHeader(net, Rev(way))))
      && Trail(net, Rev(way), Rev(f.hdr[2..2 + h]), BackLabel(net, Rev(way)))
  {
    var net := Run(s, actions).net;
    var way, fwd, back := f.path[..h + 1], f.route[..h], f.hdr[2..2 + h];
    RunsSound(s, actions);
    GrowsKeepsTrails(s.net, net, way, fwd, back);
    TrailReverses(net, way, fwd, back);
    TravelTrail(net, Rev(way), Rev(back), Rev(fwd));
    BackLabelLeadsBack(net, Rev(way), Rev(back), Rev(fwd));
  }

  /** The reverse-route theorem: the reverse of a delivered label leads back over the same nodes, at any later
      time; where each node holds one slot per peer, the label that arrives is the reverse of the first route. */
  lemma ReverseRoute(before: seq<Action>, f: Flight, after: seq<Action>)
    requires f in Run(START, before).delivered && Complete(f) && f.route != []
    ensures |f.route| <= 13 && f.hdr[1] == |f.route|
    ensures
      var net := Run(Run(START, before), after).net;
      && f.path[|f.route|] in net
      && Travel(net, f.path[|f.route|], Rev(Label(f.hdr)))
        == Journey(Rev(f.path), Arrived(LastHeader(net, Rev(f.path))))
      && (OneSlotEach(net) ==> Rev(Label(LastHeader(net, Rev(f.path)))) == f.route)
  {
    DeliveredTrail(before, f, after);
    var net, q, label' := Run(Run(START, before), after).net, Rev(f.path), Label(f.hdr);
    TrailReverses(net, f.path, f.route, label');
    TravelTrail(net, q, Rev(label'), Rev(f.route));
    LastLabel(net, q);
    if OneSlotEach(net) {
      RouteRestored(net, f.path, f.route, label');
    }
  }

  lemma OneSlotUnique(net: Net, x: PeerID, b: byte, c: byte, y: PeerID)
    requires OneSlotEach(net) && Leads(net, x, b, y) && Leads(net, x, c, y)
    ensures b == c
  {
    assert Inverse(net[x]);
  }

  lemma LastLabel(net: Net, path: seq<PeerID>)
    requires 2 <= |path| <= 14
    ensures LastHeader(net, path)[1] == |path| - 1 && Label(LastHeader(net, path)) == BackLabel(net, path)
  {
    FramedLabel(|path| - 2, BackLabel(net, path));
  }

  lemma RouteRestored(net: Net, path: seq<PeerID>, fwd: seq<byte>, back: seq<byte>)
    requires SoundNet(net) && OneSlotEach(net) && Trail(net, path, fwd, back) && 1 <= |fwd| <= 13
    ensures LastHeader(net, Rev(path))[1] <= 14
    ensures Rev(Label(LastHeader(net, Rev(path)))) == fwd
  {
    TrailReverses(net, path, fwd, back);
    BackLabelLeadsBack(net, Rev(path), Rev(back), Rev(fwd));
    LastLabel(net, Rev(path));
    var q, c, again := Rev(path), Rev(fwd), BackLabel(net, Rev(path));
    forall i | 0 <= i < |fwd|
      ensures again[i] == c[i]
    {
      OneSlotUnique(net, q[i + 1], again[i], c[i], q[i]);
    }
    assert again == c;
    RevRev(fwd);
  }

  /** At any hop, not just the last: what a node has just written leads back to the sender. */
  lemma EveryHopHoldsTheWayBack(before: seq<Action>, f: Flight, after: seq<Action>)
    requires f in Run(START, before).flights && |f.path| >= 3
    ensures f.hdr[0] == |f.path| - 2 <= 13
    ensures
      var net, pos := Run(Run(START, before), after).net, |f.path| - 2;
      && f.path[pos] in net
      && Travel(net, f.path[pos], Rev(f.hdr[2..2 + pos])).nodes == Rev(f.path[..pos + 1])
      && Travel(net, f.path[pos], Rev(f.hdr[2..2 + pos])).end.Arrived?
  {
    var s := Run(START, before);
    RunsSound(START, before);
    assert FlightOk(s.net, f);
    PrefixReturns(s, f, |f.path| - 2, after);
  }

  /** Slots are never reused while nothing is detached, so the start and the route fix the path. */
  lemma {:induction false} SameRouteSamePath(net: Net, p: seq<PeerID>, q: seq<PeerID>, r: seq<byte>, b: seq<byte>,
                                             c: seq<byte>)
    requires 1 <= |p| <= |r| + 1 && Trail(net, p, r[..|p| - 1], b)
    requires Trail(net, q, r, c) && p[0] == q[0]
    ensures p <= q
  {
    if |p| > 1 {
      var m := |p| - 2;
      assert r[..m + 1][..m] == r[..m] && p[..m + 1][0] == p[0];
      assert Trail(net, p[..m + 1], r[..m], b[..m]) by {
        forall i | 0 <= i < m
          ensures Leads(net, p[i], r[..m][i], p[i + 1]) && Leads(net, p[i + 1], b[..m][i], p[i])
        {
          assert Leads(net, p[i], r[..m + 1][i], p[i + 1]);
        }
      }
      SameRouteSamePath(net, p[..m + 1], q, r, b[..m], c);
      assert Leads(net, p[m], r[..m + 1][m], p[m + 1]) && Leads(net, q[m], r[m], q[m + 1]);
    }
  }

  /** A packet that has gone all the way has left a trail both ways, in every continuation. */
  lemma DeliveredTrail(before: seq<Action>, f: Flight, after: seq<Action>)
    requires f in Run(START, before).delivered && Complete(f)
    ensures |f.route| <= 13 && f.hdr[1] == |f.route|
    ensures
      var s := Run(Run(START, before), after);
      Invariant(s) && Trail(s.net, f.path, f.route, Label(f.hdr))
  {
    var s := Run(START, before);
    RunsSound(START, before);
    RunsSound(s, after);
    assert DeliveredOk(s.net, f);
    assert f.path[..|f.route| + 1] == f.path && f.route[..|f.route|] == f.route;
    GrowsKeepsTrails(s.net, Run(s, after).net, f.path, f.route, Label(f.hdr));
  }

  /** In every continuation, whatever joins, attaches and other packets are interleaved, a reply sent along the
      reversed label is only ever found on the reversed path, is never refused by a forwarder that has it in
      hand, and if it is delivered it has come all the way back to the first sender. */
  lemma ReplyRetraces(before: seq<Action>, f: Flight, after: seq<Action>, g: Flight)
    requires f in Run(START, before).delivered && Complete(f) && f.route != []
    requires f.hdr[1] <= 14 && g.route == Rev(Label(f.hdr)) && g.path != [] && g.path[0] == f.path[|f.route|]
    ensures
      var s := Run(Run(START, before), after);
      && (g in s.flights ==>
            && g.path <= Rev(f.path) && |g.path| >= 2 && g.path[|g.path| - 1] in s.net
            && Handle(s.net[g.path[|g.path| - 1]], g.hdr, g.path[|g.path| - 2]).Emit?)
      && (g in s.delivered ==> g.path == Rev(f.path))
  {
    var s := Run(Run(START, before), after);
    DeliveredTrail(before, f, after);
    TrailReverses(s.net, f.path, f.route, Label(f.hdr));
    var q, r, c := Rev(f.path), Rev(Label(f.hdr)), Rev(f.route);
    if g in s.flights {
      ReplyInFlight(s.net, g, q, r, c);
    }
    if g in s.delivered {
      ReplyDelivered(s.net, g, q, r, c);
    }
  }

  lemma ReplyInFlight(net: Net, g: Flight, q: seq<PeerID>, r: seq<byte>, c: seq<byte>)
    requires SoundNet(net) && Trail(net, q, r, c) && 1 <= |r| <= 13
    requires FlightOk(net, g) && g.route == r && g.path[0] == q[0]
    ensures g.path <= q && g.path[|g.path| - 1] in net
    ensures Handle(net[g.path[|g.path| - 1]], g.hdr, g.path[|g.path| - 2]).Emit?
  {
    var pos := |g.path| - 2;
    SameRouteSamePath(net, g.path[..pos + 1], q, r, g.hdr[2..2 + pos], c);
    assert Leads(net, q[pos], r[pos], q[pos + 1]);
    assert g.path == g.path[..pos + 1] + [g.path[pos + 1]];
    assert q[..pos + 2] == q[..pos + 1] + [q[pos + 1]];
    TrailNode(net, q, r, c, pos);
  }

  /** A link never has number 0, which is the node itself. */
  lemma TrailBytesNonzero(net: Net, path: seq<PeerID>, fwd: seq<byte>, back: seq<byte>)
    requires SoundNet(net) && Trail(net, path, fwd, back)
    ensures 0 !in fwd && 0 !in back
  {
    forall i | 0 <= i < |fwd|
      ensures fwd[i] != 0 && back[i] != 0
    {
      assert Leads(net, path[i], fwd[i], path[i + 1]) && Leads(net, path[i + 1], back[i], path[i]);
      assert SoundNode(path[i], net[path[i]]) && SoundNode(path[i + 1], net[path[i + 1]]);
    }
  }

  lemma ReplyDelivered(net: Net, g: Flight, q: seq<PeerID>, r: seq<byte>, c: seq<byte>)
    requires SoundNet(net) && Trail(net, q, r, c) && 1 <= |r| <= 13
    requires DeliveredOk(net, g) && g.route == r && g.path[0] == q[0]
    ensures g.path == q
  {
    TrailBytesNonzero(net, q, r, c);
    var h := |g.path| - 1;
    assert g.path[..h + 1] == g.path;
    SameRouteSamePath(net, g.path, q, r, g.hdr[2..2 + h], c);
  }

  // ---------------------------------------------------------------- slot 0 on the way

  /** A delivered packet went all the way exactly when no byte of its label is 0, which the receiver can see. */
  lemma CompleteIffNoSelfSlot(before: seq<Action>, f: Flight)
    requires f in Run(START, before).delivered
    ensures f.hdr[1] == |f.route| <= 14
    ensures Complete(f) <==> 0 !in Label(f.hdr)
  {
    var s, h := Run(START, before), |f.path| - 1;
    RunsSound(START, before);
    assert DeliveredOk(s.net, f);
    assert f.path[..h + 1] == f.path;
    TrailBytesNonzero(s.net, f.path, f.route[..h], f.hdr[2..2 + h]);
    if h < |f.route| {
      assert Label(f.hdr)[h] == f.hdr[2 + h..2 + |f.route|][0] == f.route[h];
    }
  }

  lemma CompleteNonzero(net: Net, g: Flight)
    requires SoundNet(net) && DeliveredOk(net, g) && Complete(g)
    ensures 0 !in g.route
  {
    assert g.path[..|g.route| + 1] == g.path && g.route[..|g.route|] == g.route;
    TrailBytesNonzero(net, g.path, g.route, g.hdr[2..2 + |g.route|]);
  }

  lemma RevHolds(s: seq<byte>, b: byte)
    requires b in s
    ensures b in Rev(s)
  {
    var i :| 0 <= i < |s| && s[i] == b;
    assert Rev(s)[|s| - 1 - i] == b;
  }

  /** Exactly then can the way be gone back: a delivered packet that was sent along the reverse of a delivered label
      has gone its whole route if and only if that label holds no 0. */
  lemma ReverseCompleteIff(before: seq<Action>, f: Flight, after: seq<Action>, g: Flight)
    requires f in Run(START, before).delivered && f.hdr[1] <= 14 && f.path != []
    requires g in Run(Run(START, before), after).delivered
    requires g.route == Rev(Label(f.hdr)) && g.path != [] && g.path[0] == f.path[|f.path| - 1]
    ensures Complete(g) <==> 0 !in Label(f.hdr)
  {
    var s := Run(Run(START, before), after);
    RunsSound(START, before);
    RunsSound(Run(START, before), after);
    assert DeliveredOk(s.net, g);
    if Complete(g) {
      CompleteNonzero(s.net, g);
      if 0 in Label(f.hdr) {
        RevHolds(Label(f.hdr), 0);
      }
    } else if 0 !in Label(f.hdr) {
      CompleteIffNoSelfSlot(before, f);
      ReplyRetraces(before, f, after, g);
    }
  }

  /** With a 0 in the route the packet is delivered early.  After the route [out, 0] the reverse of its whole label does
      not even leave the node: it is delivered to the node that sends it. */
  lemma SelfSlotBreaksReverse(net: Net, a: PeerID, b: PeerID, out: byte, back: byte)
    requires SoundNet(net) && Trail(net, [a, b], [out], [back])
    ensures a in net && b in net
    ensures Travel(net, a, [out, 0]).nodes == [a, b] && Travel(net, a, [out, 0]).end.Arrived?
    ensures
      var hdr := Travel(net, a, [out, 0]).end.hdr;
      && hdr[1] == 2 && Label(hdr) == [PrevSlot(net, b, a), 0]
      && Travel(net, b, Rev(Label(hdr))).nodes == [b]
  {
    TrailNode(net, [a, b], [out], [back], 0);
    var h := RouteHeader([out, 0]);
    assert h == [0, 2, out, 0, 0, 0, 0, 0, 0, 0, 0, 0, 0, 0, 0, 0];
    assert Leads(net, a, out, b);
    var hdr := h[2 := PrevSlot(net, b, a)][0 := 1];
    assert Handle(net[b], h, a) == Emit(Entry(b, Local), hdr, b);
    assert Label(hdr) == [PrevSlot(net, b, a), 0];
    assert Rev(Label(hdr))[0] == 0;
  }
}
