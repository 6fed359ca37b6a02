/** Traceroute over the overlay.  An ICMPv6 packet from the TUN device with a low hop limit becomes a ping along the
    front of the route, the node it reaches answers along the label, and the answer becomes a time-exceeded packet. */
module Traceroute {
  import opened Bytes
  import opened Crypto
  import opened Forwarder
  import opened Network
  import opened Layout
  import opened EndToEnd
  import opened Icmp
  import opened PeerIds
  import opened Routing
  import opened Fcnet

  const PING_CODEC: nat := 0x42005
  const PING_ID: seq<byte> := [0, 0, 0, 1]
  const PONG_ID: seq<byte> := [0, 0, 0, 2]
  const STUB_SIGNATURE: seq<byte> := [1, 3, 1, 2, 1, 3, 1, 2]
  const STUB_RANDOMIZER: seq<byte> := [0x42, 0x42, 0x42, 0x42, 0x42, 0x42, 0x42, 0x42]

  // ---------------------------------------------------------------- the time-exceeded packet

  function PseudoHeader(srcIp: seq<byte>, dstIp: seq<byte>, length: nat): seq<byte> {
    srcIp + dstIp + BigEndian(length, 4) + [0, 0, 0, 58]
  }

  /** Pseudo header, type 3, code 0, a zero checksum, four unused bytes, the original datagram. */
  function Covered(orig: seq<byte>, srcIp: seq<byte>, dstIp: seq<byte>): seq<byte> {
    PseudoHeader(srcIp, dstIp, |orig| + 8) + [3, 0, 0, 0] + Zeros(4) + orig
  }

  function IcmpData(orig: seq<byte>, srcIp: seq<byte>, dstIp: seq<byte>): seq<byte>
    requires |srcIp| == |dstIp| == 16
  {
    Patched(Covered(orig, srcIp, dstIp), 42)[40..]
  }

  function TimeExceeded(orig: seq<byte>, srcIp: seq<byte>, dstIp: seq<byte>): seq<byte>
    requires |srcIp| == |dstIp| == 16 && |orig| >= 4
  {
    Ipv6(orig[..4], srcIp, dstIp, IcmpData(orig, srcIp, dstIp))
  }

  /** An ICMPv6 packet with hop limit 64. */
  function Ipv6(front: seq<byte>, srcIp: seq<byte>, dstIp: seq<byte>, data: seq<byte>): seq<byte> {
    front + BigEndian(|data| % 65536, 2) + [58, 64] + srcIp + dstIp + data
  }

  lemma TwoBytesReadBack(n: nat)
    requires n < 65536
    ensures FromBigEndian(BigEndian(n, 2)) == n
  {
    assert Pow256(2) == 256 * (256 * Pow256(0));
    BigEndianReadsBack(n, 2);
  }

  lemma CoveredShape(orig: seq<byte>, srcIp: seq<byte>, dstIp: seq<byte>)
    requires |srcIp| == |dstIp| == 16
    ensures
      var b, head := Covered(orig, srcIp, dstIp), PseudoHeader(srcIp, dstIp, |orig| + 8);
      |head| == 40 && |b| == 48 + |orig| && b[..40] == head && b[42] == b[43] == 0 && b[48..] == orig
  {
  }

  lemma IcmpShape(orig: seq<byte>, srcIp: seq<byte>, dstIp: seq<byte>)
    requires |srcIp| == |dstIp| == 16
    ensures
      var icmp := IcmpData(orig, srcIp, dstIp);
      && |icmp| == |orig| + 8 && icmp[8..] == orig
      && PseudoHeader(srcIp, dstIp, |orig| + 8) + icmp == Patched(Covered(orig, srcIp, dstIp), 42)
  {
    CoveredShape(orig, srcIp, dstIp);
    var b := Covered(orig, srcIp, dstIp);
    var d := Patched(b, 42);
    assert d[..40] == b[..40] && d[48..] == b[48..];
    assert d == d[..40] + d[40..] && d[40..][8..] == d[48..];
  }

  lemma Ipv6Slices(front: seq<byte>, length: seq<byte>, srcIp: seq<byte>, dstIp: seq<byte>, data: seq<byte>)
    requires |front| == 4 && |length| == 2 && |srcIp| == |dstIp| == 16
    ensures
      var p := front + length + [58, 64] + srcIp + dstIp + data;
      && |p| == 40 + |data| && p[..4] == front && p[4..6] == length
      && p[8..24] == srcIp && p[24..40] == dstIp && p[40..] == data
  {
  }

  lemma Ipv6Fields(front: seq<byte>, srcIp: seq<byte>, dstIp: seq<byte>, data: seq<byte>)
    requires |front| == 4 && |srcIp| == |dstIp| == 16 && |data| < 65536
    ensures
      var p := Ipv6(front, srcIp, dstIp, data);
      && |p| == 40 + |data| && p[..4] == front && FromBigEndian(p[4..6]) == |data|
      && p[8..24] == srcIp && p[24..40] == dstIp && p[40..] == data
  {
    var n := |data| % 65536;
    TwoBytesReadBack(n);
    Ipv6Slices(front, BigEndian(n, 2), srcIp, dstIp, data);
  }

  lemma IcmpVerifies(orig: seq<byte>, srcIp: seq<byte>, dstIp: seq<byte>)
    requires |srcIp| == |dstIp| == 16 && |orig| <= 1364
    ensures Checksum(PseudoHeader(srcIp, dstIp, |orig| + 8) + IcmpData(orig, srcIp, dstIp)) == 0
  {
    CoveredShape(orig, srcIp, dstIp);
    IcmpShape(orig, srcIp, dstIp);
    PatchedVerifies(Covered(orig, srcIp, dstIp), 42);
  }

  /** The packet built from any datagram that was sent passes every check of the receiving side, carries the
      datagram, and its checksum with the pseudo header is 0. */
  lemma TimeExceededAccepted(orig: seq<byte>, srcIp: seq<byte>, dstIp: seq<byte>)
    requires |srcIp| == |dstIp| == 16 && 4 <= |orig| <= 1364 && orig[0] / 16 == 6
    ensures Accepted(TimeExceeded(orig, srcIp, dstIp), srcIp, dstIp)
    ensures Checksum(PseudoHeader(srcIp, dstIp, |orig| + 8) + TimeExceeded(orig, srcIp, dstIp)[40..]) == 0
    ensures TimeExceeded(orig, srcIp, dstIp)[40..][8..] == orig
  {
    IcmpShape(orig, srcIp, dstIp);
    var p := TimeExceeded(orig, srcIp, dstIp);
    Ipv6Fields(orig[..4], srcIp, dstIp, IcmpData(orig, srcIp, dstIp));
    IcmpVerifies(orig, srcIp, dstIp);
    LengthField(p);
    assert p[0] == p[..4][0] == orig[..4][0];
  }

  /** The pseudo header of section 8.1 of RFC 8200: two addresses, the upper-layer length, zeros, the next header. */
  function UpperLayerHeader(srcIp: seq<byte>, dstIp: seq<byte>, length: nat, next: byte): seq<byte> {
    srcIp + dstIp + BigEndian(length, 4) + [0, 0, 0] + [next]
  }

  /** Every byte of a time-exceeded packet: an IPv6 header with next header ICMPv6 and hop limit 64, a message of type 3
      and code 0 as in section 3.3 of RFC 4443, four unused bytes, and the datagram; the checksum is that of RFC 1071
      over the pseudo header and the message with a zero field. */
  predicate IsTimeExceeded(p: seq<byte>, orig: seq<byte>, srcIp: seq<byte>, dstIp: seq<byte>)
    requires |orig| >= 4
  {
    && |p| == 48 + |orig| && Whole(p) && p[..4] == orig[..4] && p[6] == 58 && p[7] == 64
    && p[8..24] == srcIp && p[24..40] == dstIp
    && p[40] == 3 && p[41] == 0 && p[44..48] == [0, 0, 0, 0] && p[48..] == orig
    && p[42..44] == BigEndian(MessageSum(orig, srcIp, dstIp), 2)
  }

  /** The message as the checksum finds it. */
  function Message(orig: seq<byte>): seq<byte> {
    [3, 0, 0, 0] + [0, 0, 0, 0] + orig
  }

  function MessageSum(orig: seq<byte>, srcIp: seq<byte>, dstIp: seq<byte>): nat {
    InternetChecksum(UpperLayerHeader(srcIp, dstIp, |Message(orig)|, 58) + Message(orig))
  }

  lemma CoveredIs(orig: seq<byte>, srcIp: seq<byte>, dstIp: seq<byte>)
    ensures Covered(orig, srcIp, dstIp) == UpperLayerHeader(srcIp, dstIp, |Message(orig)|, 58) + Message(orig)
  {
    var head := srcIp + dstIp + BigEndian(|orig| + 8, 4);
    assert head + [0, 0, 0] + [58] == head + [0, 0, 0, 58];
    assert Message(orig) == [3, 0, 0, 0] + (Zeros(4) + orig);
  }

  lemma PatchAt(head: seq<byte>, front: seq<byte>, tail: seq<byte>, lo: byte, hi: byte)
    requires |head| == 40 && |front| == 2
    ensures (head + front + [0, 0] + tail)[42 := lo][43 := hi][40..] == front + [lo, hi] + tail
  {
    assert (head + front + [0, 0] + tail)[42 := lo][43 := hi] == head + front + [lo, hi] + tail;
  }

  lemma PatchMessage(b: seq<byte>, head: seq<byte>, tail: seq<byte>, sum: nat, internet: nat)
    requires |head| == 40 && b == head + [3, 0] + [0, 0] + tail && sum == Checksum(b)
    requires [sum % 256, sum / 256 % 256] == BigEndian(internet, 2)
    ensures Patched(b, 42)[40..] == [3, 0] + BigEndian(internet, 2) + tail
  {
    PatchAt(head, [3, 0], tail, sum % 256, sum / 256);
  }

  lemma MessageSplit(head: seq<byte>, orig: seq<byte>)
    ensures head + Message(orig) == head + [3, 0] + [0, 0] + ([0, 0, 0, 0] + orig)
  {
    var tail := [0, 0, 0, 0] + orig;
    assert Message(orig) == [3, 0] + ([0, 0] + tail);
  }

  /** The two checksum bytes and what is around them. */
  lemma PatchedBytes(orig: seq<byte>, srcIp: seq<byte>, dstIp: seq<byte>)
    requires |srcIp| == |dstIp| == 16 && |orig| <= 1364
    ensures IcmpData(orig, srcIp, dstIp)
         == [3, 0] + BigEndian(MessageSum(orig, srcIp, dstIp), 2) + ([0, 0, 0, 0] + orig)
  {
    var b, head := Covered(orig, srcIp, dstIp), UpperLayerHeader(srcIp, dstIp, |Message(orig)|, 58);
    CoveredIs(orig, srcIp, dstIp);
    MatchesInternetChecksum(b);
    MessageSplit(head, orig);
    PatchMessage(b, head, [0, 0, 0, 0] + orig, Checksum(b), MessageSum(orig, srcIp, dstIp));
  }

  lemma MessageIff(m: seq<byte>, sum: seq<byte>, orig: seq<byte>)
    requires |sum| == 2
    ensures m == [3, 0] + sum + ([0, 0, 0, 0] + orig)
       <==> |m| == 8 + |orig| && m[0] == 3 && m[1] == 0 && m[2..4] == sum && m[4..8] == [0, 0, 0, 0] && m[8..] == orig
  {
    if |m| == 8 + |orig| {
      assert m == m[..2] + m[2..4] + (m[4..8] + m[8..]);
    }
    var q := [3, 0] + sum + ([0, 0, 0, 0] + orig);
    assert q[2..4] == sum && q[4..8] == [0, 0, 0, 0] && q[8..] == orig;
  }

  lemma PacketIff(p: seq<byte>, front: seq<byte>, srcIp: seq<byte>, dstIp: seq<byte>, data: seq<byte>)
    requires |front| == 4 && |srcIp| == |dstIp| == 16 && |data| < 65536
    ensures p == Ipv6(front, srcIp, dstIp, data)
       <==> && |p| == 40 + |data| && Whole(p) && p[..4] == front && p[6] == 58 && p[7] == 64
            && p[8..24] == srcIp && p[24..40] == dstIp && p[40..] == data
  {
    var q := Ipv6(front, srcIp, dstIp, data);
    Ipv6Fields(front, srcIp, dstIp, data);
    LengthField(q);
    if |p| == 40 + |data| && Whole(p) && p[..4] == front && p[6] == 58 && p[7] == 64
       && p[8..24] == srcIp && p[24..40] == dstIp && p[40..] == data {
      assert p[4] == q[4] && p[5] == q[5];
      assert p == p[..4] + [p[4], p[5]] + [p[6], p[7]] + p[8..24] + p[24..40] + p[40..];
      assert q == q[..4] + [q[4], q[5]] + [q[6], q[7]] + q[8..24] + q[24..40] + q[40..];
    }
  }

  lemma Tail(p: seq<byte>, n: nat)
    requires |p| == 48 + n
    ensures
      var m := p[40..];
      && |m| == 8 + n && m[0] == p[40] && m[1] == p[41]
      && m[2..4] == p[42..44] && m[4..8] == p[44..48] && m[8..] == p[48..]
  {
  }

  /** The packet that is built is one, and the only one. */
  lemma TimeExceededIff(p: seq<byte>, orig: seq<byte>, srcIp: seq<byte>, dstIp: seq<byte>)
    requires |srcIp| == |dstIp| == 16 && 4 <= |orig| <= 1364
    ensures IsTimeExceeded(p, orig, srcIp, dstIp) <==> p == TimeExceeded(orig, srcIp, dstIp)
  {
    var icmp, sum := IcmpData(orig, srcIp, dstIp), BigEndian(MessageSum(orig, srcIp, dstIp), 2);
    PatchedBytes(orig, srcIp, dstIp);
    PacketIff(p, orig[..4], srcIp, dstIp, icmp);
    if |p| == 48 + |orig| {
      Tail(p, |orig|);
      MessageIff(p[40..], sum, orig);
    }
  }

  lemma TimeExceededPasses(orig: seq<byte>, srcIp: seq<byte>, dstIp: seq<byte>)
    requires |srcIp| == |dstIp| == 16 && 4 <= |orig| <= 1364 && orig[0] / 16 == 6
    ensures
      var p := TimeExceeded(orig, srcIp, dstIp);
      Accepted(p, srcIp, dstIp) && HandleFcnet(p, srcIp, dstIp) == Written(p)
  {
    TimeExceededAccepted(orig, srcIp, dstIp);
    FcnetActs(TimeExceeded(orig, srcIp, dstIp), srcIp, dstIp);
  }

  // ---------------------------------------------------------------- ping packets

  /** Lower codec, label, sender key, signature, request id, randomizer and payload; None where the payload does
      not fit into the buffer. */
  function ComposePing(route: seq<byte>, sender: seq<byte>, id: seq<byte>, payload: seq<byte>): Option<Buf>
    requires |route| <= 14 && |sender| == 32 && |id| == 4
  {
    if 88 + |payload| > TPT_MTU then None
    else
      var all := RouteHeader(route) + sender + STUB_SIGNATURE + id + STUB_RANDOMIZER + payload;
      SetCodec(Put(Zeros(TPT_MTU), 20, all), 16, PING_CODEC)
  }

  /** The part of a ping packet behind the label. */
  function PingBody(sender: seq<byte>, id: seq<byte>, payload: seq<byte>): seq<byte> {
    sender + STUB_SIGNATURE + id + STUB_RANDOMIZER + payload
  }

  /** IsDestination */
  predicate IsDestination(h: Header) {
    h[0] + 1 >= h[1] as int
  }

  /** A ping is handed on exactly while its label has a hop left, whatever the label says: the forwarder never takes it
      for a packet at its end, and never leaves its position behind the length. */
  lemma PingHopsLeft(t: Tables, h: Header, src: PeerID)
    ensures IsDestination(h) <==> h[1] as int <= h[0] as int + 1
    ensures !IsDestination(h) && Handle(t, h, src).Emit? ==>
      && Handle(t, h, src).slot == t.slots[h[3 + h[0]]]
      && Handle(t, h, src).hdr[0] as int == h[0] as int + 1 < h[1] as int
  {
    HandleActs(t, h, src);
  }

  datatype PingTransit = AtDestination(node: PeerID, src: PeerID, buf: Buf) | PingLost

  /** NewPingPacket writes the fixed signature and randomizer into every buffer it is given. */
  function Stubbed(b: Buf): Buf {
    Put(Put(b, 68, STUB_SIGNATURE), 80, STUB_RANDOMIZER)
  }

  /** A ping that `x` sends to `y`, and all its further hops: forwarded until it is at its destination. */
  function PingRelay(c: Aead, w: World, x: PeerID, y: PeerID, b: Buf, len: nat, picks: seq<Pick>): PingTransit
    decreases |picks|
  {
    if picks == [] then PingLost else
    match Cross(c, w, x, y, b, len, picks[0])
    case None => PingLost
    case Some((src, raw)) =>
      var got := Stubbed(raw);
      if y !in w || LowerMux(raw) != Handled(PING_CODEC) then PingLost
      else if IsDestination(got[20..36]) then AtDestination(y, src, got)
      else
        match Handle(w[y].tables, got[20..36], src)
        case Emit(Entry(_, Link), hdr, dst) => PingRelay(c, w, y, dst, Put(got, 20, hdr), len, picks[1..])
        case _ => PingLost
  }

  /** SendRaw of a ping that starts at `a`. */
  function SendPing(c: Aead, w: World, a: PeerID, route: seq<byte>, b: Option<Buf>, len: nat,
                    picks: seq<Pick>): PingTransit {
    if a !in w || route == [] || b.None? then PingLost else
    match w[a].tables.slots[route[0]]
    case Entry(dst, Link) => PingRelay(c, w, a, dst, b.value, len, picks)
    case _ => PingLost
  }

  /** The way back from a destination: its own first slot for the previous hop goes into the label. */
  function PingBack(h: Header, first: byte): seq<byte>
    requires h[0] <= 13
  {
    Rev(h[2 + h[0] := first][2..2 + h[0] + 1])
  }

  datatype PingAction = Answer(route: seq<byte>, buf: Option<Buf>) | Show(packet: seq<byte>) | PingRefused

  /** The first byte of GetRoute for the previous hop; None also where that route is empty. */
  function PrevByte(w: World, me: PeerID, src: PeerID): Option<byte> {
    if me !in w then None else
    match GetRoute(w[me].routes, src)
    case None => None
    case Some(route) => if route == [] then None else Some(route[0])
  }

  /** What handleFcnetPacket lets through. */
  function Shown(r: Reception): PingAction {
    match r
    case Written(p) => Show(p)
    case _ => PingRefused
  }

  /** handlePingPacket at a destination; `first` is PrevByte for the hop the ping came from. */
  function PingArrives(n: Names, me: PeerID, first: Option<byte>, b: Buf, len: nat): PingAction {
    if first.None? || b[20] > 13 || !(88 <= len - 16 <= TPT_MTU) then PingRefused else
    var payload := b[88..len - 16];
    if b[76..80] == PONG_ID then
      var srcIp, dstIp := n.ip(b[36..68]), n.ip(n.key(me));
      if b[96..112] != dstIp then PingRefused else
      var p := Ipv6(b[88..92], srcIp, dstIp, IcmpData(payload, srcIp, dstIp));
      Shown(HandleFcnet(p, srcIp, dstIp))
    else
      var route := PingBack(b[20..36], first.value);
      Answer(route, ComposePing(route, n.key(me), PONG_ID, payload))
  }

  // ---------------------------------------------------------------- relaying

  ghost predicate PingReady(net: Net, path: seq<PeerID>, fwd: seq<byte>, k: nat, b: Buf) {
    && |path| == |fwd| + 1 && k < |fwd| <= 14
    && CodecAt(b, 16) == Some(PING_CODEC)
    && b[20..36] == MidHeader(net, path, fwd, k)
    && HasStubs(b)
  }

  predicate HasStubs(b: Buf) {
    b[68..76] == STUB_SIGNATURE && b[80..88] == STUB_RANDOMIZER
  }

  lemma StubbedSame(b: Buf)
    requires HasStubs(b)
    ensures Stubbed(b) == b
  {
    PutSame(b, 68, 8);
    PutSame(b, 80, 8);
  }

  lemma StubsKept(b: Buf, r: Buf, end: nat)
    requires HasStubs(b) && 88 <= end <= TPT_MTU && r[36..end] == b[36..end]
    ensures HasStubs(r)
  {
    SubSlice(r, b, 36, end, 68, 76);
    SubSlice(r, b, 36, end, 80, 88);
  }

  /** A link hands a ping over with label and body as they were. */
  lemma PingCrosses(c: Aead, w: World, x: PeerID, y: PeerID, b: Buf, len: nat, pick: Pick)
    requires Correct(c) && Adjacent(w, x, y, pick) && HasStubs(b) && 104 <= len <= TPT_MTU
    ensures
      var r := Cross(c, w, x, y, b, len, pick);
      && r.Some? && r.value.0 == x && Stubbed(r.value.1) == r.value.1
      && CodecAt(r.value.1, 16) == CodecAt(b, 16) && r.value.1[20..36] == b[20..36]
        && r.value.1[36..len - 16] == b[36..len - 16]
  {
    CrossKeeps(c, w, x, y, b, len, pick);
    var got := Cross(c, w, x, y, b, len, pick).value.1;
    SubSlice(got, b, 16, len - 16, 16, 20);
    SubSlice(got, b, 16, len - 16, 20, 36);
    SubSlice(got, b, 16, len - 16, 36, len - 16);
    StubsKept(b, got, len - 16);
    StubbedSame(got);
  }

  /** A new label leaves codec and body alone. */
  lemma PingRelabelled(b: Buf, hdr: Header, end: nat)
    requires HasStubs(b) && 88 <= end <= TPT_MTU
    ensures
      var r := Put(b, 20, hdr);
      r[20..36] == hdr && CodecAt(r, 16) == CodecAt(b, 16) && HasStubs(r) && r[36..end] == b[36..end]
  {
    PutOutside(b, 20, hdr, 16, 20);
    PutOutside(b, 20, hdr, 36, end);
    StubsKept(b, Put(b, 20, hdr), end);
  }

  /** What a node does with a ping that a link hands it. */
  lemma PingRelayed(c: Aead, w: World, x: PeerID, y: PeerID, b: Buf, len: nat, picks: seq<Pick>, got: Buf)
    requires picks != [] && y in w && Cross(c, w, x, y, b, len, picks[0]) == Some((x, got))
    requires Stubbed(got) == got && CodecAt(got, 16) == Some(PING_CODEC)
    ensures PingRelay(c, w, x, y, b, len, picks) ==
      if IsDestination(got[20..36]) then AtDestination(y, x, got)
      else
        match Handle(w[y].tables, got[20..36], x)
        case Emit(Entry(_, Link), hdr, dst) => PingRelay(c, w, y, dst, Put(got, 20, hdr), len, picks[1..])
        case _ => PingLost
  {
  }

  lemma PingHop(c: Aead, w: World, path: seq<PeerID>, fwd: seq<byte>, k: nat, b: Buf, len: nat, picks: seq<Pick>)
    returns (b': Buf)
    requires Correct(c) && PingReady(NetOf(w), path, fwd, k, b) && 104 <= len <= TPT_MTU
    requires Knows(NetOf(w), path, fwd, k) && picks != [] && Adjacent(w, path[k], path[k + 1], picks[0])
    ensures b'[36..len - 16] == b[36..len - 16]
    ensures k < |fwd| - 1 ==>
      && PingReady(NetOf(w), path, fwd, k + 1, b')
      && PingRelay(c, w, path[k], path[k + 1], b, len, picks)
        == PingRelay(c, w, path[k + 1], path[k + 2], b', len, picks[1..])
    ensures k == |fwd| - 1 ==>
      && b'[20..36] == MidHeader(NetOf(w), path, fwd, k)
      && PingRelay(c, w, path[k], path[k + 1], b, len, picks) == AtDestination(path[k + 1], path[k], b')
  {
    var x, y, net := path[k], path[k + 1], NetOf(w);
    PingCrosses(c, w, x, y, b, len, picks[0]);
    var got := Cross(c, w, x, y, b, len, picks[0]).value.1;
    PingRelayed(c, w, x, y, b, len, picks, got);
    MidHeaderSteps(net, path, fwd, k);
    if k < |fwd| - 1 {
      HandleOnTrail(net, path, fwd, k);
      b' := Put(got, 20, MidHeader(net, path, fwd, k + 1));
      StubsKept(b, got, len - 16);
      PingRelabelled(got, MidHeader(net, path, fwd, k + 1), len - 16);
    } else {
      b' := got;
    }
  }

  lemma {:induction false} PingTrail(c: Aead, w: World, path: seq<PeerID>, fwd: seq<byte>, k: nat, b: Buf,
                                     len: nat, picks: seq<Pick>)
    requires Correct(c) && Prepared(w, path, fwd, picks)
    requires PingReady(NetOf(w), path, fwd, k, b) && 104 <= len <= TPT_MTU
    ensures
      var r := PingRelay(c, w, path[k], path[k + 1], b, len, picks[k..]);
      && r.AtDestination? && r.node == path[|fwd|] && r.src == path[|fwd| - 1]
      && r.buf[20..36] == MidHeader(NetOf(w), path, fwd, |fwd| - 1) && r.buf[36..len - 16] == b[36..len - 16]
    decreases |fwd| - k
  {
    assert picks[k..][0] == picks[k] && picks[k..][1..] == picks[k + 1..];
    var b' := PingHop(c, w, path, fwd, k, b, len, picks[k..]);
    if k < |fwd| - 1 {
      PingTrail(c, w, path, fwd, k + 1, b', len, picks);
    }
  }

  lemma BodyParts(sender: seq<byte>, id: seq<byte>, payload: seq<byte>)
    requires |sender| == 32 && |id| == 4
    ensures
      var body := PingBody(sender, id, payload);
      && |body| == 52 + |payload| && body[..32] == sender && body[32..40] == STUB_SIGNATURE
      && body[40..44] == id && body[44..52] == STUB_RANDOMIZER && body[52..] == payload
  {
  }

  lemma BodyFields(b: Buf, sender: seq<byte>, id: seq<byte>, payload: seq<byte>)
    requires |sender| == 32 && |id| == 4 && 88 + |payload| <= TPT_MTU
    requires b[36..88 + |payload|] == PingBody(sender, id, payload)
    ensures b[36..68] == sender && b[76..80] == id && b[88..88 + |payload|] == payload && HasStubs(b)
  {
    var body := PingBody(sender, id, payload);
    BodyParts(sender, id, payload);
    Nested(b, 36, 88 + |payload|, 0, 32);
    Nested(b, 36, 88 + |payload|, 32, 40);
    Nested(b, 36, 88 + |payload|, 44, 52);
    Nested(b, 36, 88 + |payload|, 40, 44);
    Nested(b, 36, 88 + |payload|, 52, 52 + |payload|);
  }

  lemma PingComposed(route: seq<byte>, sender: seq<byte>, id: seq<byte>, payload: seq<byte>)
    requires |route| <= 14 && |sender| == 32 && |id| == 4 && 88 + |payload| <= TPT_MTU
    ensures
      var b := ComposePing(route, sender, id, payload);
      && b.Some? && CodecAt(b.value, 16) == Some(PING_CODEC)
      && b.value[20..36] == RouteHeader(route) && b.value[36..88 + |payload|] == PingBody(sender, id, payload)
  {
    var h, body := RouteHeader(route), PingBody(sender, id, payload);
    var all := h + sender + STUB_SIGNATURE + id + STUB_RANDOMIZER + payload;
    assert all == h + body;
    var b0 := Put(Zeros(TPT_MTU), 20, all);
    PutInside(Zeros(TPT_MTU), 20, all, 20, 36);
    PutInside(Zeros(TPT_MTU), 20, all, 36, 88 + |payload|);
    CodecReadsBack(b0, 16, PING_CODEC);
    var b := SetCodec(b0, 16, PING_CODEC).value;
    CodecKeeps(b0, 16, PING_CODEC, 20, 36);
    CodecKeeps(b0, 16, PING_CODEC, 36, 88 + |payload|);
  }

  lemma PingStarts(c: Aead, w: World, path: seq<PeerID>, route: seq<byte>, back: seq<byte>, b: Buf, len: nat,
                   picks: seq<Pick>)
    requires Trail(NetOf(w), path, route, back) && route != []
    ensures SendPing(c, w, path[0], route, Some(b), len, picks) == PingRelay(c, w, path[0], path[1], b, len, picks)
  {
    assert Leads(NetOf(w), path[0], route[0], path[1]);
  }

  lemma PingAlong(c: Aead, w: World, path: seq<PeerID>, route: seq<byte>, back: seq<byte>, b: Buf, len: nat,
                  picks: seq<Pick>)
    requires Correct(c) && SoundNet(NetOf(w)) && Trail(NetOf(w), path, route, back)
    requires PingReady(NetOf(w), path, route, 0, b) && 104 <= len <= TPT_MTU
    requires |picks| == |route| && forall i :: 0 <= i < |route| ==> Adjacent(w, path[i], path[i + 1], picks[i])
    ensures
      var r := SendPing(c, w, path[0], route, Some(b), len, picks);
      && r.AtDestination? && r.node == path[|route|] && r.src == path[|route| - 1]
      && r.buf[20..36] == MidHeader(NetOf(w), path, route, |route| - 1) && r.buf[36..len - 16] == b[36..len - 16]
  {
    forall k | 0 <= k < |route|
      ensures Knows(NetOf(w), path, route, k)
    {
      TrailNode(NetOf(w), path, route, back, k);
    }
    assert picks[0..] == picks;
    PingStarts(c, w, path, route, back, b, len, picks);
    PingTrail(c, w, path, route, 0, b, len, picks);
  }

  /** A ping along a trail of up to 14 hops arrives at its last node with sender, request id and payload intact. */
  lemma PingDelivers(c: Aead, w: World, path: seq<PeerID>, route: seq<byte>, back: seq<byte>,
                     sender: seq<byte>, id: seq<byte>, payload: seq<byte>, picks: seq<Pick>)
    requires Correct(c) && SoundNet(NetOf(w)) && Trail(NetOf(w), path, route, back) && 1 <= |route| <= 14
    requires |picks| == |route| && forall i :: 0 <= i < |route| ==> Adjacent(w, path[i], path[i + 1], picks[i])
    requires |sender| == 32 && |id| == 4 && |payload| <= 1348
    ensures
      var r := SendPing(c, w, path[0], route, ComposePing(route, sender, id, payload), 104 + |payload|, picks);
      && r.AtDestination? && r.node == path[|route|] && r.src == path[|route| - 1]
      && r.buf[20..36] == MidHeader(NetOf(w), path, route, |route| - 1)
      && r.buf[36..68] == sender && r.buf[76..80] == id && r.buf[88..88 + |payload|] == payload
  {
    PingComposed(route, sender, id, payload);
    var b := ComposePing(route, sender, id, payload).value;
    BodyFields(b, sender, id, payload);
    FirstHeader(NetOf(w), path, route);
    PingAlong(c, w, path, route, back, b, 104 + |payload|, picks);
    BodyFields(SendPing(c, w, path[0], route, Some(b), 104 + |payload|, picks).buf, sender, id, payload);
  }

  /** 1348 bytes is the exact limit: a ping with a longer payload reaches no node. */
  lemma PingTooLong(c: Aead, w: World, a: PeerID, route: seq<byte>, sender: seq<byte>, id: seq<byte>,
                    payload: seq<byte>, picks: seq<Pick>)
    requires Correct(c) && |route| <= 14 && |sender| == 32 && |id| == 4 && |payload| > 1348
    ensures SendPing(c, w, a, route, ComposePing(route, sender, id, payload), 104 + |payload|, picks) == PingLost
  {
    var len := 104 + |payload|;
    forall y, b, pick
      ensures Cross(c, w, a, y, b, len, pick).None?
    {
      TooLongForLink(c, w, a, y, b, len, pick);
    }
  }

  // ---------------------------------------------------------------- there and back

  /** The whole exchange for an ICMPv6 packet whose route is cut to `route`: the packet shown to the sender. */
  function Traceroute(c: Aead, w: World, n: Names, a: PeerID, route: seq<byte>, orig: seq<byte>, picks: seq<Pick>,
                      picks': seq<Pick>): Option<seq<byte>>
    requires |route| <= 14
  {
    var len := 104 + |orig|;
    match SendPing(c, w, a, route, ComposePing(route, n.key(a), PING_ID, orig), len, picks)
    case PingLost => None
    case AtDestination(node, src, got) =>
      match PingArrives(n, node, PrevByte(w, node, src), got, len)
      case Show(_) => None
      case PingRefused => None
      case Answer(back, answer) => Homeward(c, w, n, a, node, back, answer, len, picks')
  }

  /** The way of an answer from `node` to `a`, and the packet shown there. */
  function Homeward(c: Aead, w: World, n: Names, a: PeerID, node: PeerID, back: seq<byte>, answer: Option<Buf>,
                    len: nat, picks: seq<Pick>): Option<seq<byte>> {
    match SendPing(c, w, node, back, answer, len, picks)
    case PingLost => None
    case AtDestination(home, src, got) =>
      if home != a then None else
      match PingArrives(n, home, PrevByte(w, home, src), got, len)
      case Show(p) => Some(p)
      case _ => None
  }

  /** The label a destination answers with, read from its last byte to its first. */
  lemma PingBackLabel(net: Net, path: seq<PeerID>, route: seq<byte>, first: byte)
    requires |path| == |route| + 1 && 1 <= |route| <= 14
    ensures MidHeader(net, path, route, |route| - 1)[0] == |route| - 1
    ensures PingBack(MidHeader(net, path, route, |route| - 1), first)
      == Rev(BackLabel(net, path)[..|route| - 1] + [first])
  {
    var m := |route| - 1;
    FramedStep(m, BackLabel(net, path)[..m], route[m..], first);
    var label' := BackLabel(net, path)[..m] + [first];
    assert route[m..][1..] == [];
    var h := MidHeader(net, path, route, m)[2 + m := first];
    assert h == Framed(m, label', []);
    FramedLabel(m, label');
  }

  /** Any slots that lead back make a trail. */
  lemma TrailWithLast(net: Net, path: seq<PeerID>, route: seq<byte>, back: seq<byte>, first: byte)
    requires Trail(net, path, route, back) && 1 <= |route|
    requires Leads(net, path[|route|], first, path[|route| - 1])
    ensures Trail(net, path, route, back[..|route| - 1] + [first])
  {
    var m := |route| - 1;
    var label' := back[..m] + [first];
    forall i | 0 <= i < |route|
      ensures Leads(net, path[i], route[i], path[i + 1]) && Leads(net, path[i + 1], label'[i], path[i])
    {
      assert Leads(net, path[i], route[i], path[i + 1]) && Leads(net, path[i + 1], back[i], path[i]);
    }
  }

  /** That label is a way back along the path exactly when the first byte leads to the previous hop. */
  lemma PingBackLeadsIff(net: Net, path: seq<PeerID>, route: seq<byte>, back: seq<byte>, first: byte)
    requires SoundNet(net) && Trail(net, path, route, back) && 1 <= |route| <= 14
    ensures MidHeader(net, path, route, |route| - 1)[0] == |route| - 1
    ensures
      var label' := PingBack(MidHeader(net, path, route, |route| - 1), first);
      && |label'| == |route| && label'[0] == first
      && (Trail(net, Rev(path), label', Rev(route)) <==> Leads(net, path[|route|], first, path[|route| - 1]))
  {
    BackLabelLeadsBack(net, path, route, back);
    PingBackLabel(net, path, route, first);
    if Leads(net, path[|route|], first, path[|route| - 1]) {
      TrailWithLast(net, path, route, BackLabel(net, path), first);
      TrailReverses(net, path, route, BackLabel(net, path)[..|route| - 1] + [first]);
    } else {
      assert Rev(path)[0] == path[|route|] && Rev(path)[0 + 1] == path[|route| - 1];
    }
  }

  lemma FrontOfTrail(net: Net, path: seq<PeerID>, route: seq<byte>, back: seq<byte>, k: nat)
    requires Trail(net, path, route, back) && k <= |route|
    ensures Trail(net, path[..k + 1], route[..k], back[..k])
  {
    forall i | 0 <= i < k
      ensures Leads(net, path[..k + 1][i], route[..k][i], path[..k + 1][i + 1])
      ensures Leads(net, path[..k + 1][i + 1], back[..k][i], path[..k + 1][i])
    {
      assert Leads(net, path[i], route[i], path[i + 1]) && Leads(net, path[i + 1], back[i], path[i]);
    }
  }

  /** An IPv6 packet of this node that fits into a ping. */
  predicate OwnPacket(orig: seq<byte>, myIp: seq<byte>) {
    Outgoing(orig, myIp) && !Resolver(orig[24..40]) && |orig| <= 1348 && orig[0] / 16 == 6
  }

  /** The first route that node `x` has for `y` begins with a slot to it. */
  predicate KnowsSlot(w: World, x: PeerID, y: PeerID) {
    PrevByte(w, x, y).Some? && Leads(NetOf(w), x, PrevByte(w, x, y).value, y)
  }

  // ---------------------------------------------------------------- the way an answer takes

  /** The node that slot `b` of `x` sends to, or the zero PeerID. */
  function NextHop(net: Net, x: PeerID, b: byte): PeerID {
    if x in net && net[x].slots[b].Entry? && net[x].slots[b].sink == Link then net[x].slots[b].peer else EMPTY_PEER
  }

  /** The nodes that a label leads over from `x`, the zero PeerID where it leads nowhere. */
  function Walk(net: Net, x: PeerID, label': seq<byte>): (q: seq<PeerID>)
    ensures |q| == |label'| + 1 && q[0] == x
    ensures forall i :: 0 <= i < |label'| ==> q[i + 1] == NextHop(net, q[i], label'[i])
    decreases |label'|
  {
    if label' == [] then [x] else
      var q := Walk(net, NextHop(net, x, label'[0]), label'[1..]);
      assert forall i :: 0 < i < |label'| ==> label'[i] == label'[1..][i - 1] && ([x] + q)[i] == q[i - 1];
      [x] + q
  }

  predicate Follows(net: Net, q: seq<PeerID>, label': seq<byte>) {
    |q| == |label'| + 1 && forall i :: 0 <= i < |label'| ==> q[i + 1] == NextHop(net, q[i], label'[i])
  }

  /** Behind the k-th node the walk goes on to its end, over nodes that know the hop they are reached from. */
  predicate Comes(net: Net, q: seq<PeerID>, k: nat) {
    && (forall i :: k < i < |q| ==> q[i] != EMPTY_PEER)
    && (forall i :: k < i < |q| - 1 ==> q[i] in net && q[i - 1] in net[q[i]].bypeer)
  }

  /** Sessions of the walk's own links. */
  ghost predicate PicksFor(w: World, q: seq<PeerID>, picks: seq<Pick>) {
    && |picks| + 1 == |q|
    && forall i :: 0 <= i < |picks| && q[i + 1] != EMPTY_PEER ==> Adjacent(w, q[i], q[i + 1], picks[i])
  }

  /** A node knows the slot to a peer exactly if its first route for that peer takes its first hop there. */
  lemma KnowsSlotIff(w: World, x: PeerID, y: PeerID)
    requires x in w && y != EMPTY_PEER
    ensures KnowsSlot(w, x, y) <==>
      exists route :: GetRoute(w[x].routes, y) == Some(route) && route != [] && Walk(NetOf(w), x, route)[1] == y
  {
    match GetRoute(w[x].routes, y)
    case None =>
    case Some(route) =>
      if route != [] {
        assert Walk(NetOf(w), x, route)[0 + 1] == NextHop(NetOf(w), x, route[0]);
      }
  }

  /** What a node on the walk that is not its end makes of the label. */
  lemma WalkHandle(net: Net, q: seq<PeerID>, label': seq<byte>, k: nat)
    requires Follows(net, q, label') && k < |label'| - 1 < 14 && q[k + 1] in net
    ensures
      var v := Handle(net[q[k + 1]], MidHeader(net, q, label', k), q[k]);
      if q[k] in net[q[k + 1]].bypeer
      then v == Emit(net[q[k + 1]].slots[label'[k + 1]], MidHeader(net, q, label', k + 1),
                     net[q[k + 1]].slots[label'[k + 1]].Peer())
      else v.Refused?
  {
    MidHeaderSteps(net, q, label', k);
    if q[k] in net[q[k + 1]].bypeer {
      HandleAt(net[q[k + 1]], MidHeader(net, q, label', k), q[k], k, |label'|);
    }
  }

  /** A ping to nobody. */
  lemma ToNobody(c: Aead, w: World, x: PeerID, b: Buf, len: nat, picks: seq<Pick>)
    ensures PingRelay(c, w, x, EMPTY_PEER, b, len, picks) == PingLost
  {
  }

  lemma WalkStep(c: Aead, w: World, q: seq<PeerID>, label': seq<byte>, k: nat, b: Buf, len: nat, picks: seq<Pick>)
    returns (b': Buf)
    requires Correct(c) && Follows(NetOf(w), q, label') && PingReady(NetOf(w), q, label', k, b)
    requires 104 <= len <= TPT_MTU && picks != [] && Adjacent(w, q[k], q[k + 1], picks[0])
    ensures b'[36..len - 16] == b[36..len - 16]
    ensures k == |label'| - 1 ==>
      && b'[20..36] == MidHeader(NetOf(w), q, label', k)
      && PingRelay(c, w, q[k], q[k + 1], b, len, picks) == AtDestination(q[k + 1], q[k], b')
    ensures k < |label'| - 1 && q[k] in NetOf(w)[q[k + 1]].bypeer && q[k + 2] != EMPTY_PEER ==>
      && PingReady(NetOf(w), q, label', k + 1, b')
      && PingRelay(c, w, q[k], q[k + 1], b, len, picks) == PingRelay(c, w, q[k + 1], q[k + 2], b', len, picks[1..])
    ensures k < |label'| - 1 && !(q[k] in NetOf(w)[q[k + 1]].bypeer && q[k + 2] != EMPTY_PEER) ==>
      PingRelay(c, w, q[k], q[k + 1], b, len, picks) == PingLost
  {
    var x, y, net := q[k], q[k + 1], NetOf(w);
    PingCrosses(c, w, x, y, b, len, picks[0]);
    var got := Cross(c, w, x, y, b, len, picks[0]).value.1;
    PingRelayed(c, w, x, y, b, len, picks, got);
    MidHeaderSteps(net, q, label', k);
    b' := got;
    if k < |label'| - 1 {
      WalkHandle(net, q, label', k);
      b' := Put(got, 20, MidHeader(net, q, label', k + 1));
      StubsKept(b, got, len - 16);
      PingRelabelled(got, MidHeader(net, q, label', k + 1), len - 16);
      ToNobody(c, w, y, b', len, picks[1..]);
    }
  }

  /** A packet `b` behind the k-th node ends so. */
  ghost predicate WalkEnds(net: Net, q: seq<PeerID>, label': seq<byte>, k: nat, b: Buf, len: nat, r: PingTransit)
    requires |q| == |label'| + 1 && 1 <= |label'| <= 14 && 104 <= len <= TPT_MTU
  {
    if Comes(net, q, k) then
      && r.AtDestination? && r.node == q[|label'|] && r.src == q[|label'| - 1]
      && r.buf[20..36] == MidHeader(net, q, label', |label'| - 1) && r.buf[36..len - 16] == b[36..len - 16]
    else r == PingLost
  }

  /** All further hops of an answer: it comes to the end of its walk or is lost. */
  lemma {:induction false} WalkRelay(c: Aead, w: World, q: seq<PeerID>, label': seq<byte>, k: nat, b: Buf, len: nat,
                                     picks: seq<Pick>)
    requires Correct(c) && Follows(NetOf(w), q, label') && PingReady(NetOf(w), q, label', k, b)
    requires 104 <= len <= TPT_MTU && PicksFor(w, q, picks)
    ensures WalkEnds(NetOf(w), q, label', k, b, len, PingRelay(c, w, q[k], q[k + 1], b, len, picks[k..]))
    decreases |label'| - k
  {
    var rest := picks[k..];
    assert rest[0] == picks[k] && rest[1..] == picks[k + 1..];
    if q[k + 1] == EMPTY_PEER {
      ToNobody(c, w, q[k], b, len, rest);
    } else {
      assert Adjacent(w, q[k], q[k + 1], picks[k]);
      var b' := WalkStep(c, w, q, label', k, b, len, rest);
      if k < |label'| - 1 && q[k] in NetOf(w)[q[k + 1]].bypeer && q[k + 2] != EMPTY_PEER {
        WalkRelay(c, w, q, label', k + 1, b', len, picks);
        WalkEndsOn(NetOf(w), q, label', k, b, b', len, PingRelay(c, w, q[k + 1], q[k + 2], b', len, rest[1..]));
      }
    }
  }

  lemma WalkEndsOn(net: Net, q: seq<PeerID>, label': seq<byte>, k: nat, b: Buf, b': Buf, len: nat, r: PingTransit)
    requires |q| == |label'| + 1 && 1 <= |label'| <= 14 && 104 <= len <= TPT_MTU
    requires k + 2 < |q| && q[k + 1] in net && q[k] in net[q[k + 1]].bypeer && q[k + 1] != EMPTY_PEER
    requires b'[36..len - 16] == b[36..len - 16] && WalkEnds(net, q, label', k + 1, b', len, r)
    ensures WalkEnds(net, q, label', k, b, len, r)
  {
    ComesOn(net, q, k);
  }

  lemma ComesOn(net: Net, q: seq<PeerID>, k: nat)
    requires k + 2 < |q| && q[k + 1] in net && q[k] in net[q[k + 1]].bypeer && q[k + 1] != EMPTY_PEER
    ensures Comes(net, q, k) <==> Comes(net, q, k + 1)
  {
  }

  lemma WalkStarts(c: Aead, w: World, q: seq<PeerID>, label': seq<byte>, b: Buf, len: nat, picks: seq<Pick>)
    requires Follows(NetOf(w), q, label') && label' != [] && q[0] in w
    ensures SendPing(c, w, q[0], label', Some(b), len, picks) == PingRelay(c, w, q[0], q[1], b, len, picks)
  {
    assert q[0 + 1] == NextHop(NetOf(w), q[0], label'[0]);
    ToNobody(c, w, q[0], b, len, picks);
  }

  /** An answer is at the end of its walk with its body intact, or lost. */
  lemma AnswerWalks(c: Aead, w: World, q: seq<PeerID>, label': seq<byte>, sender: seq<byte>, id: seq<byte>,
                    payload: seq<byte>, picks: seq<Pick>)
    requires Correct(c) && Follows(NetOf(w), q, label') && 1 <= |label'| <= 14 && q[0] in w && PicksFor(w, q, picks)
    requires |sender| == 32 && |id| == 4 && |payload| <= 1348
    ensures
      var r := SendPing(c, w, q[0], label', ComposePing(label', sender, id, payload), 104 + |payload|, picks);
      if Comes(NetOf(w), q, 0) then
        && r.AtDestination? && r.node == q[|label'|] && r.src == q[|label'| - 1]
        && r.buf[20..36] == MidHeader(NetOf(w), q, label', |label'| - 1)
        && r.buf[36..68] == sender && r.buf[76..80] == id && r.buf[88..88 + |payload|] == payload
      else r == PingLost
  {
    PingComposed(label', sender, id, payload);
    var b := ComposePing(label', sender, id, payload).value;
    BodyFields(b, sender, id, payload);
    FirstHeader(NetOf(w), q, label');
    WalkStarts(c, w, q, label', b, 104 + |payload|, picks);
    assert picks[0..] == picks;
    WalkRelay(c, w, q, label', 0, b, 104 + |payload|, picks);
    if Comes(NetOf(w), q, 0) {
      BodyFields(PingRelay(c, w, q[0], q[1], b, 104 + |payload|, picks).buf, sender, id, payload);
    }
  }

  /** An answer comes to the end of its walk as `got`, which `a` would show as `p`, or is lost. */
  ghost predicate Answered(c: Aead, w: World, n: Names, a: PeerID, q: seq<PeerID>, label': seq<byte>,
                           answer: Option<Buf>, len: nat, picks: seq<Pick>, got: Buf, p: seq<byte>)
    requires label' != [] && |q| == |label'| + 1
  {
    var first := PrevByte(w, a, q[|label'| - 1]);
    && SendPing(c, w, q[0], label', answer, len, picks)
       == (if Comes(NetOf(w), q, 0) then AtDestination(q[|label'|], q[|label'| - 1], got) else PingLost)
    && (Comes(NetOf(w), q, 0) ==> PingArrives(n, a, first, got, len) == if first.None? then PingRefused else Show(p))
  }

  lemma BackLeg(c: Aead, w: World, n: Names, q: seq<PeerID>, label': seq<byte>, orig: seq<byte>, picks: seq<Pick>,
                answer: Option<Buf>, a: PeerID, p: seq<byte>)
    returns (got: Buf)
    requires Correct(c) && Follows(NetOf(w), q, label') && 1 <= |label'| <= 14 && q[0] in w && PicksFor(w, q, picks)
    requires OwnPacket(orig, n.ip(n.key(a))) && answer == ComposePing(label', n.key(q[0]), PONG_ID, orig)
    requires p == TimeExceeded(orig, n.ip(n.key(q[0])), n.ip(n.key(a)))
    ensures Answered(c, w, n, a, q, label', answer, 104 + |orig|, picks, got, p)
  {
    AnswerWalks(c, w, q, label', n.key(q[0]), PONG_ID, orig, picks);
    got := Zeros(TPT_MTU);
    if Comes(NetOf(w), q, 0) {
      got := SendPing(c, w, q[0], label', answer, 104 + |orig|, picks).buf;
      MidHeaderSteps(NetOf(w), q, label', |label'| - 1);
      assert got[20] == got[20..36][0];
      var first := PrevByte(w, a, q[|label'| - 1]);
      if first.Some? {
        AnswerShown(n, a, q[0], first.value, got, orig);
      }
    }
  }

  /** The walk comes home, to a node that has a route for the last hop. */
  predicate Homes(w: World, q: seq<PeerID>, a: PeerID)
    requires |q| >= 2
  {
    Comes(NetOf(w), q, 0) && q[|q| - 1] == a && PrevByte(w, a, q[|q| - 2]).Some?
  }

  lemma HomewardIff(c: Aead, w: World, n: Names, a: PeerID, q: seq<PeerID>, label': seq<byte>, answer: Option<Buf>,
                    len: nat, picks: seq<Pick>, got: Buf, p: seq<byte>)
    requires label' != [] && |q| == |label'| + 1 && Answered(c, w, n, a, q, label', answer, len, picks, got, p)
    ensures Homeward(c, w, n, a, q[0], label', answer, len, picks) == if Homes(w, q, a) then Some(p) else None
  {
  }

  /** The label that the last node of `path` answers with. */
  function AnswerLabel(net: Net, path: seq<PeerID>, first: byte): (label': seq<byte>)
    requires |path| >= 2
    ensures |label'| == |path| - 1 && label'[0] == first
  {
    Rev(BackLabel(net, path)[..|path| - 2] + [first])
  }

  /** The nodes it leads over. */
  function AnswerWalk(net: Net, path: seq<PeerID>, first: byte): (q: seq<PeerID>)
    requires |path| >= 2
    ensures |q| == |path| && q[0] == path[|path| - 1]
  {
    Walk(net, path[|path| - 1], AnswerLabel(net, path, first))
  }

  /** Along a trail of 1 to 14 hops, over sessions of its own links: the last node answers exactly if it has a route for
      the hop before it, and the answer, over sessions of the links that its label leads over, is shown to the sender
      as a time-exceeded packet if and only if those links lead home and the sender has a route for the last of them. */
  lemma ProbeReturnsIff(c: Aead, w: World, n: Names, path: seq<PeerID>, route: seq<byte>, back: seq<byte>,
                        orig: seq<byte>, picks: seq<Pick>, picks': seq<Pick>, p: seq<byte>)
    requires Correct(c) && SoundNet(NetOf(w)) && Trail(NetOf(w), path, route, back) && 1 <= |route| <= 14
    requires OwnPacket(orig, n.ip(n.key(path[0])))
    requires |picks| == |route| && forall i :: 0 <= i < |route| ==> Adjacent(w, path[i], path[i + 1], picks[i])
    requires
      var first := PrevByte(w, path[|route|], path[|route| - 1]);
      first.Some? ==> PicksFor(w, AnswerWalk(NetOf(w), path, first.value), picks')
    requires IsTimeExceeded(p, orig, n.ip(n.key(path[|route|])), n.ip(n.key(path[0])))
    ensures
      var first := PrevByte(w, path[|route|], path[|route| - 1]);
      Traceroute(c, w, n, path[0], route, orig, picks, picks') ==
        if first.Some? && Homes(w, AnswerWalk(NetOf(w), path, first.value), path[0]) then Some(p) else None
  {
    var d, prev, a := path[|route|], path[|route| - 1], path[0];
    TimeExceededIff(p, orig, n.ip(n.key(d)), n.ip(n.key(a)));
    var first := PrevByte(w, d, prev);
    var got, answer := OutLeg(c, w, n, path, route, back, orig, picks, if first.Some? then first.value else 0);
    if first.Some? {
      var label', q := AnswerLabel(NetOf(w), path, first.value), AnswerWalk(NetOf(w), path, first.value);
      Turns(c, w, n, a, route, orig, picks, picks', d, prev, got, Answer(label', answer));
      AnswerReturnsIff(c, w, n, q, label', orig, picks', answer, a, p);
    } else {
      Turns(c, w, n, a, route, orig, picks, picks', d, prev, got, PingRefused);
    }
  }

  lemma AnswerReturnsIff(c: Aead, w: World, n: Names, q: seq<PeerID>, label': seq<byte>, orig: seq<byte>,
                         picks: seq<Pick>, answer: Option<Buf>, a: PeerID, p: seq<byte>)
    requires Correct(c) && Follows(NetOf(w), q, label') && 1 <= |label'| <= 14 && q[0] in w && PicksFor(w, q, picks)
    requires OwnPacket(orig, n.ip(n.key(a))) && answer == ComposePing(label', n.key(q[0]), PONG_ID, orig)
    requires p == TimeExceeded(orig, n.ip(n.key(q[0])), n.ip(n.key(a)))
    ensures Homeward(c, w, n, a, q[0], label', answer, 104 + |orig|, picks) == if Homes(w, q, a) then Some(p) else None
  {
    var len := 104 + |orig|;
    var got := BackLeg(c, w, n, q, label', orig, picks, answer, a, p);
    assert Answered(c, w, n, a, q, label', answer, len, picks, got, p);
    HomewardIff(c, w, n, a, q, label', answer, len, picks, got, p);
  }

  /** A ping that arrives: what is left is the answer's way. */
  lemma Turns(c: Aead, w: World, n: Names, a: PeerID, route: seq<byte>, orig: seq<byte>, picks: seq<Pick>,
              picks': seq<Pick>, d: PeerID, prev: PeerID, got: Buf, act: PingAction)
    requires |route| <= 14
    requires SendPing(c, w, a, route, ComposePing(route, n.key(a), PING_ID, orig), 104 + |orig|, picks)
          == AtDestination(d, prev, got)
    requires PingArrives(n, d, PrevByte(w, d, prev), got, 104 + |orig|) == act
    ensures Traceroute(c, w, n, a, route, orig, picks, picks')
         == if act.Answer? then Homeward(c, w, n, a, d, act.route, act.buf, 104 + |orig|, picks') else None
  {
  }

  // ---------------------------------------------------------------- the same way back

  lemma TrailWalks(net: Net, path: seq<PeerID>, route: seq<byte>, back: seq<byte>)
    requires Trail(net, path, route, back)
    ensures Walk(net, path[0], route) == path
  {
    var q := Walk(net, path[0], route);
    WalkUnique(net, q, path, route, |route|);
    assert q[..|route| + 1] == q && path[..|route| + 1] == path;
  }

  lemma {:induction false} WalkUnique(net: Net, q: seq<PeerID>, path: seq<PeerID>, route: seq<byte>, k: nat)
    requires Follows(net, q, route) && |path| == |q| && q[0] == path[0] && k <= |route|
    requires forall i :: 0 <= i < |route| ==> Leads(net, path[i], route[i], path[i + 1])
    ensures q[..k + 1] == path[..k + 1]
  {
    if k > 0 {
      WalkUnique(net, q, path, route, k - 1);
      assert q[k - 1] == q[..k][k - 1] == path[..k][k - 1] == path[k - 1];
      assert Leads(net, path[k - 1], route[k - 1], path[k - 1 + 1]);
      assert q[k - 1 + 1] == NextHop(net, q[k - 1], route[k - 1]);
      assert q[..k + 1] == q[..k] + [q[k]] && path[..k + 1] == path[..k] + [path[k]];
    }
  }

  lemma TrailComes(net: Net, path: seq<PeerID>, route: seq<byte>, back: seq<byte>)
    requires SoundNet(net) && Trail(net, path, route, back)
    ensures Comes(net, path, 0)
  {
    forall i | 0 < i < |path|
      ensures path[i] != EMPTY_PEER && path[i] in net && path[i - 1] in net[path[i]].bypeer
    {
      assert Leads(net, path[i - 1], route[i - 1], path[i - 1 + 1]);
      TrailNode(net, path, route, back, i - 1);
    }
  }

  /** A first route that begins with a slot to the previous hop takes the answer back the way the ping came. */
  lemma RetracesIf(w: World, path: seq<PeerID>, route: seq<byte>, back: seq<byte>)
    requires SoundNet(NetOf(w)) && Trail(NetOf(w), path, route, back) && 1 <= |route| <= 14
    requires KnowsSlot(w, path[|route|], path[|route| - 1])
    ensures
      var q := AnswerWalk(NetOf(w), path, PrevByte(w, path[|route|], path[|route| - 1]).value);
      q == Rev(path) && (Homes(w, q, path[0]) <==> PrevByte(w, path[0], path[1]).Some?)
  {
    var net, first := NetOf(w), PrevByte(w, path[|route|], path[|route| - 1]).value;
    PingBackLeadsIff(net, path, route, back, first);
    PingBackLabel(net, path, route, first);
    TrailWalks(net, Rev(path), AnswerLabel(net, path, first), Rev(route));
    TrailComes(net, Rev(path), AnswerLabel(net, path, first), Rev(route));
  }

  /** An answer may come home another way: a first route that begins with a slot to another neighbour `z`, from which
      the next label byte leads home. */
  lemma Detour(w: World, a: PeerID, p: PeerID, z: PeerID, d: PeerID, out: byte, on: byte, back: byte, home: byte)
    requires SoundNet(NetOf(w)) && Trail(NetOf(w), [a, p, d], [out, on], [home, back]) && p != z
    requires PrevByte(w, d, p).Some? && Leads(NetOf(w), d, PrevByte(w, d, p).value, z)
    requires z in w && d in w[z].tables.bypeer && Leads(NetOf(w), z, PrevSlot(NetOf(w), p, a), a)
    requires PrevByte(w, a, z).Some?
    ensures !KnowsSlot(w, d, p)
    ensures
      var q := AnswerWalk(NetOf(w), [a, p, d], PrevByte(w, d, p).value);
      q == [d, z, a] && Homes(w, q, a)
  {
    var net, first := NetOf(w), PrevByte(w, d, p).value;
    var label' := AnswerLabel(net, [a, p, d], first);
    assert label' == [first, PrevSlot(net, p, a)];
    var q := Walk(net, d, label');
    assert q[0 + 1] == NextHop(net, d, label'[0]) == z;
    assert q[1 + 1] == NextHop(net, z, label'[1]) == a;
    assert q == [d, z, a];
  }

  /** The ping arrives, and with a first route for the previous hop it is answered. */
  lemma OutLeg(c: Aead, w: World, n: Names, path: seq<PeerID>, route: seq<byte>, back: seq<byte>,
               orig: seq<byte>, picks: seq<Pick>, first: byte)
    returns (got: Buf, answer: Option<Buf>)
    requires Correct(c) && SoundNet(NetOf(w)) && Trail(NetOf(w), path, route, back) && 1 <= |route| <= 14
    requires |orig| <= 1348
    requires |picks| == |route| && forall i :: 0 <= i < |route| ==> Adjacent(w, path[i], path[i + 1], picks[i])
    ensures SendPing(c, w, path[0], route, ComposePing(route, n.key(path[0]), PING_ID, orig), 104 + |orig|, picks)
         == AtDestination(path[|route|], path[|route| - 1], got)
    ensures answer == ComposePing(AnswerLabel(NetOf(w), path, first), n.key(path[|route|]), PONG_ID, orig)
    ensures PingArrives(n, path[|route|], Some(first), got, 104 + |orig|)
         == Answer(AnswerLabel(NetOf(w), path, first), answer)
    ensures PingArrives(n, path[|route|], None, got, 104 + |orig|) == PingRefused
  {
    PingDelivers(c, w, path, route, back, n.key(path[0]), PING_ID, orig, picks);
    got := SendPing(c, w, path[0], route, ComposePing(route, n.key(path[0]), PING_ID, orig), 104 + |orig|, picks).buf;
    PingBackLabel(NetOf(w), path, route, first);
    answer := ComposePing(AnswerLabel(NetOf(w), path, first), n.key(path[|route|]), PONG_ID, orig);
    AnswerGiven(n, path[|route|], first, got, orig);
  }

  lemma AnswerGiven(n: Names, d: PeerID, first: byte, got: Buf, orig: seq<byte>)
    requires |orig| <= 1348 && got[20..36][0] <= 13
    requires got[76..80] == PING_ID && got[88..88 + |orig|] == orig
    ensures
      var route := PingBack(got[20..36], first);
      PingArrives(n, d, Some(first), got, 104 + |orig|) == Answer(route, ComposePing(route, n.key(d), PONG_ID, orig))
  {
    assert PING_ID[3] != PONG_ID[3];
  }

  lemma AnswerShown(n: Names, a: PeerID, d: PeerID, first: byte, got: Buf, orig: seq<byte>)
    requires OwnPacket(orig, n.ip(n.key(a))) && got[20] <= 13
    requires got[36..68] == n.key(d) && got[76..80] == PONG_ID && got[88..88 + |orig|] == orig
    ensures PingArrives(n, a, Some(first), got, 104 + |orig|)
      == Show(TimeExceeded(orig, n.ip(n.key(d)), n.ip(n.key(a))))
  {
    TimeExceededPasses(orig, n.ip(n.key(d)), n.ip(n.key(a)));
    Nested(got, 88, 88 + |orig|, 8, 24);
    Nested(got, 88, 88 + |orig|, 0, 4);
  }

  /** What a destination makes of any ping: it refuses it exactly without a route for the previous hop, beyond fourteen
      hops, or where it is cut short; else it answers it if it is no answer itself; and of answers it shows exactly
      those to a datagram of its own, as a time-exceeded packet from the node whose key the answer holds. */
  lemma PingArrivesIff(n: Names, me: PeerID, first: Option<byte>, b: Buf, len: nat)
    ensures
      var act := PingArrives(n, me, first, b, len);
      var fine := first.Some? && b[20] <= 13 && 104 <= len <= TPT_MTU + 16;
      && (act.Answer? <==> fine && b[76..80] != [0, 0, 0, 2])
      && (act.Show? <==> fine && b[76..80] == [0, 0, 0, 2] && b[96..112] == n.ip(n.key(me)) && b[88] / 16 == 6)
      && (act.Show? && len >= 108 ==>
            IsTimeExceeded(act.packet, b[88..len - 16], n.ip(b[36..68]), n.ip(n.key(me))))
      && (act.Answer? ==>
            && act.route == PingBack(b[20..36], first.value)
            && act.buf == ComposePing(act.route, n.key(me), [0, 0, 0, 2], b[88..len - 16]))
  {
    if first.Some? && b[20] <= 13 && 104 <= len <= TPT_MTU + 16 && b[76..80] == PONG_ID {
      PongMade(n, me, b, len);
    }
  }

  /** The packet that is made of an answer. */
  lemma PongMade(n: Names, me: PeerID, b: Buf, len: nat)
    requires 104 <= len <= TPT_MTU + 16
    ensures
      var srcIp, dstIp, payload := n.ip(b[36..68]), n.ip(n.key(me)), b[88..len - 16];
      var p := Ipv6(b[88..92], srcIp, dstIp, IcmpData(payload, srcIp, dstIp));
      && (HandleFcnet(p, srcIp, dstIp).Written? <==> b[88] / 16 == 6)
      && (HandleFcnet(p, srcIp, dstIp).Written? ==> HandleFcnet(p, srcIp, dstIp).packet == p)
      && (len >= 108 ==> IsTimeExceeded(p, payload, srcIp, dstIp))
  {
    var srcIp, dstIp, payload := n.ip(b[36..68]), n.ip(n.key(me)), b[88..len - 16];
    var data := IcmpData(payload, srcIp, dstIp);
    var p := Ipv6(b[88..92], srcIp, dstIp, data);
    IcmpShape(payload, srcIp, dstIp);
    Ipv6Fields(b[88..92], srcIp, dstIp, data);
    LengthField(p);
    FcnetActs(p, srcIp, dstIp);
    assert p[0] == p[..4][0] == b[88];
    if len >= 108 {
      Nested(b, 88, len - 16, 0, 4);
      TimeExceededIff(p, payload, srcIp, dstIp);
    }
  }

  /** An ICMPv6 packet of this node whose hop limit is below the length of the route becomes a ping. */
  lemma TunPings(orig: seq<byte>, myIp: seq<byte>, route: seq<byte>, k: nat)
    requires OwnPacket(orig, myIp) && orig[6] == 58 && orig[7] == k && k < |route|
    ensures HandleTun(orig, myIp, Some(route)) == Ping(route[..k])
  {
    TunActs(orig, myIp, Some(route), route[..k]);
  }

  /** Traceroute: for a route in the table, of any length, and every hop limit k below it, up to 14, an ICMPv6 packet
      for the peer's address is turned into a ping that reaches exactly the k-th node.  That node answers if it has
      a route for the hop before it, and the answer, a time-exceeded packet that passes every check, is shown if and
      only if the slots its label leads over come home to a node with a route for the last hop. */
  lemma EveryHopAnswersIff(c: Aead, w: World, n: Names, path: seq<PeerID>, route: seq<byte>, back: seq<byte>, k: nat,
                           orig: seq<byte>, picks: seq<Pick>, picks': seq<Pick>, p: seq<byte>)
    requires Correct(c) && SoundNet(NetOf(w)) && Trail(NetOf(w), path, route, back)
    requires 1 <= k < |route| && k <= 14
    requires OwnPacket(orig, n.ip(n.key(path[0]))) && orig[6] == 58 && orig[7] == k
    requires Addressed(w, n.Ips(), path[0]) && OwnAddress(w, n.Ips(), path[0], path[|route|])
    requires GetRoute(w[path[0]].routes, path[|route|]) == Some(route) && orig[24..40] == n.ip(n.key(path[|route|]))
    requires |picks| == k && forall i :: 0 <= i < k ==> Adjacent(w, path[i], path[i + 1], picks[i])
    requires
      var first := PrevByte(w, path[k], path[k - 1]);
      first.Some? ==> PicksFor(w, AnswerWalk(NetOf(w), path[..k + 1], first.value), picks')
    requires IsTimeExceeded(p, orig, n.ip(n.key(path[k])), n.ip(n.key(path[0])))
    ensures FromTun(w, n, path[0], orig) == Ping(route[..k])
    ensures Accepted(p, n.ip(n.key(path[k])), n.ip(n.key(path[0])))
    ensures
      var first := PrevByte(w, path[k], path[k - 1]);
      Traceroute(c, w, n, path[0], route[..k], orig, picks, picks') ==
        if first.Some? && Homes(w, AnswerWalk(NetOf(w), path[..k + 1], first.value), path[0]) then Some(p) else None
  {
    RouteByAddress(w, n.Ips(), path[0], path[|route|]);
    TunPings(orig, n.ip(n.key(path[0])), route, k);
    FrontOfTrail(NetOf(w), path, route, back, k);
    ProbeReturnsIff(c, w, n, path[..k + 1], route[..k], back[..k], orig, picks, picks', p);
    TimeExceededIff(p, orig, n.ip(n.key(path[k])), n.ip(n.key(path[0])));
    TimeExceededPasses(orig, n.ip(n.key(path[k])), n.ip(n.key(path[0])));
  }

  /** A node whose first route for a peer begins with a slot to another never again answers that peer's pings over their
      own link: no later route or slot changes that. */
  lemma AwayForGood(w: World, later: World, x: PeerID, y: PeerID, adds: seq<(PeerID, seq<byte>)>)
    requires x in w && x in later && PrevByte(w, x, y).Some? && forall q <- w[x].routes :: w[x].routes[q] != []
    requires
      var slot := w[x].tables.slots[PrevByte(w, x, y).value];
      slot.Entry? && slot.peer != y
    requires Grows(NetOf(w), NetOf(later)) && later[x].routes == AddedAll(w[x].routes, adds)
    ensures !KnowsSlot(later, x, y)
  {
    FirstRouteStays(w[x].routes, adds, y);
    assert NetOf(w)[x] == w[x].tables && NetOf(later)[x] == later[x].tables;
  }
}
