/** The label-switching forwarder: slot tables and the rewriting of a packet's route label. */
module Forwarder {
  import opened Bytes
  import opened Crypto

  /** What a slot's send function does with a packet: hand it to this node's own upper layer, or queue it for
      the peer named by LowerDst. */
  datatype Sink = Local | Link

  datatype Slot = Null | Entry(peer: PeerID, sink: Sink) {
    /** The null entry carries the zero PeerID. */
    function Peer(): PeerID {
      if Null? then EMPTY_PEER else peer
    }
  }

  datatype TableData = TableData(slots: seq<Slot>, bypeer: map<PeerID, byte>)

  type Tables = t: TableData | |t.slots| == 256 witness TableData(seq(256, _ => Null), map[])

  /** The 16 bytes at FwdOffset: pos, len, and up to 14 route bytes. */
  type Header = h: seq<byte> | |h| == 16 witness Zeros(16)

  datatype FwdError = ZeroLenRoute | LoopRoute | PrevHopUnknown | RouteTooLong

  /** Outcome of a forwarding call.  Fault is an index out of range; Emit hands the packet to a slot. */
  datatype Verdict = Refused(err: FwdError) | Fault | Emit(slot: Slot, hdr: Header, dst: PeerID)

  // ---------------------------------------------------------------- slot tables

  function EmptyTables(): (t: Tables) {
    TableData(seq(256, _ => Null), map[])
  }

  /** The first free slot at or after `i`, or 256. */
  function FirstNull(slots: seq<Slot>, i: nat): (r: nat)
    requires i <= |slots|
    ensures i <= r <= |slots|
    ensures forall j :: i <= j < r ==> slots[j] != Null
    ensures r < |slots| ==> slots[r] == Null
    decreases |slots| - i
  {
    if i == |slots| || slots[i] == Null then i else FirstNull(slots, i + 1)
  }

  /** The first slot at or after `i` that carries `p`, or 256. */
  function FirstOf(slots: seq<Slot>, p: PeerID, i: nat): (r: nat)
    requires i <= |slots|
    ensures i <= r <= |slots|
    ensures forall j :: i <= j < r ==> slots[j].Peer() != p
    ensures r < |slots| ==> slots[r].Peer() == p
    decreases |slots| - i
  {
    if i == |slots| || slots[i].Peer() == p then i else FirstOf(slots, p, i + 1)
  }

  function Attached(t: Tables, p: PeerID, sink: Sink): Tables {
    var i := FirstNull(t.slots, 0);
    if i == 256 then t else TableData(t.slots[i := Entry(p, sink)], t.bypeer[p := i])
  }

  function Detached(t: Tables, p: PeerID): Tables {
    var i := FirstOf(t.slots, p, 0);
    if i == 256 then t else TableData(t.slots[i := Null], t.bypeer - {p})
  }

  /** bypeer always names a slot of that peer. */
  ghost predicate Indexed(t: Tables) {
    forall p <- t.bypeer :: t.slots[t.bypeer[p]].Entry? && t.slots[t.bypeer[p]].peer == p
  }

  /** Every occupied slot's peer can be looked up. */
  ghost predicate Listed(t: Tables) {
    forall i :: 0 <= i < 256 && t.slots[i].Entry? ==> t.slots[i].peer in t.bypeer
  }

  /** slots and bypeer are inverse maps. */
  ghost predicate Inverse(t: Tables) {
    && Indexed(t)
    && forall i :: 0 <= i < 256 && t.slots[i].Entry? ==> t.slots[i].peer in t.bypeer && t.bypeer[t.slots[i].peer] == i
  }

  /** Every occupied slot of `t` is the same in `u`. */
  ghost predicate Extends(t: Tables, u: Tables) {
    forall i :: 0 <= i < 256 && t.slots[i].Entry? ==> u.slots[i] == t.slots[i]
  }

  datatype TableOp = AttachOp(peer: PeerID, sink: Sink) | DetachOp(peer: PeerID)

  function ApplyOp(t: Tables, op: TableOp): Tables {
    match op
    case AttachOp(p, sink) => Attached(t, p, sink)
    case DetachOp(p) => Detached(t, p)
  }

  function ApplyOps(t: Tables, ops: seq<TableOp>): Tables
    decreases |ops|
  {
    if ops == [] then t else ApplyOps(ApplyOp(t, ops[0]), ops[1..])
  }

  /** The slots and bypeer stay inverse under `op`: a peer is not attached while it is attached, unless all slots are
      taken, and the zero PeerID is not detached while a free slot, which carries it too, lies below its own. */
  predicate Safe(t: Tables, op: TableOp) {
    match op
    case AttachOp(p, _) => p !in t.bypeer || FirstNull(t.slots, 0) == 256
    case DetachOp(p) => !(p == EMPTY_PEER && p in t.bypeer && FirstNull(t.slots, 0) < t.bypeer[p])
  }

  /** Every call of the run is safe where it is made. */
  predicate Disciplined(t: Tables, ops: seq<TableOp>)
    decreases |ops|
  {
    ops != [] ==> Safe(t, ops[0]) && Disciplined(ApplyOp(t, ops[0]), ops[1..])
  }

  /** The maps are inverse at every state of the run. */
  ghost predicate InverseThroughout(t: Tables, ops: seq<TableOp>)
    decreases |ops|
  {
    Inverse(t) && (ops != [] ==> InverseThroughout(ApplyOp(t, ops[0]), ops[1..]))
  }

  /** Attach takes the lowest free slot and disturbs no other. */
  lemma AttachKeeps(t: Tables, p: PeerID, sink: Sink)
    ensures Extends(t, Attached(t, p, sink))
    ensures Indexed(t) ==> Indexed(Attached(t, p, sink))
    ensures Listed(t) ==> Listed(Attached(t, p, sink))
  {
  }

  lemma {:induction false} IndexedOverRuns(t: Tables, ops: seq<TableOp>)
    requires Indexed(t)
    ensures Indexed(ApplyOps(t, ops))
    decreases |ops|
  {
    if ops != [] {
      IndexedOverRuns(ApplyOp(t, ops[0]), ops[1..]);
    }
  }

  /** One Attach keeps the two maps inverse exactly when the peer was not attached already or no slot was free. */
  lemma AttachInverseIff(t: Tables, p: PeerID, sink: Sink)
    requires Inverse(t)
    ensures Inverse(Attached(t, p, sink)) <==> p !in t.bypeer || FirstNull(t.slots, 0) == 256
  {
    var u := Attached(t, p, sink);
    var i := FirstNull(t.slots, 0);
    if p in t.bypeer && i < 256 {
      assert u.slots[t.bypeer[p]].peer == p && u.bypeer[p] == i;
    }
  }

  /** One Detach keeps them inverse exactly when it does not take a free slot for that of the zero PeerID. */
  lemma DetachInverseIff(t: Tables, p: PeerID)
    requires Inverse(t)
    ensures Inverse(Detached(t, p))
       <==> !(p == EMPTY_PEER && p in t.bypeer && FirstNull(t.slots, 0) < t.bypeer[p])
  {
    var i, u := FirstOf(t.slots, p, 0), Detached(t, p);
    if p == EMPTY_PEER && p in t.bypeer && FirstNull(t.slots, 0) < t.bypeer[p] {
      assert t.slots[FirstNull(t.slots, 0)].Peer() == p;
      assert u.slots[t.bypeer[p]] == t.slots[t.bypeer[p]] && p !in u.bypeer;
    } else if i < 256 && t.slots[i] == Null {
      assert p == EMPTY_PEER;
    }
  }

  lemma SafeIff(t: Tables, op: TableOp)
    requires Inverse(t)
    ensures Inverse(ApplyOp(t, op)) <==> Safe(t, op)
  {
    match op
    case AttachOp(p, sink) => AttachInverseIff(t, p, sink);
    case DetachOp(p) => DetachInverseIff(t, p);
  }

  /** Over any run of Attach and Detach the two maps are inverse at every state exactly when every call is safe. */
  lemma {:induction false} InverseOverRuns(t: Tables, ops: seq<TableOp>)
    requires Inverse(t)
    ensures InverseThroughout(t, ops) <==> Disciplined(t, ops)
    decreases |ops|
  {
    if ops != [] {
      SafeIff(t, ops[0]);
      if Safe(t, ops[0]) {
        InverseOverRuns(ApplyOp(t, ops[0]), ops[1..]);
      }
    }
  }

  /** The zero PeerID is also that of a free slot, so detaching it can remove the look-up and leave the slot. */
  lemma DetachEmptyPeerLeavesSlot(p: PeerID)
    requires p != EMPTY_PEER
    ensures
      var ops := [AttachOp(p, Link), AttachOp(EMPTY_PEER, Link), DetachOp(p), DetachOp(EMPTY_PEER)];
      var t := ApplyOps(EmptyTables(), ops);
      t.slots[1] == Entry(EMPTY_PEER, Link) && EMPTY_PEER !in t.bypeer && !Inverse(t)
  {
    var t0 := EmptyTables();
    var t1 := Attached(t0, p, Link);
    var t2 := Attached(t1, EMPTY_PEER, Link);
    var t3 := Detached(t2, p);
    var t4 := Detached(t3, EMPTY_PEER);
    assert FirstNull(t0.slots, 0) == 0 && FirstNull(t1.slots, 0) == 1;
    assert FirstOf(t2.slots, p, 0) == 0 && FirstOf(t3.slots, EMPTY_PEER, 0) == 0;
    var a, b, c, d := AttachOp(p, Link), AttachOp(EMPTY_PEER, Link), DetachOp(p), DetachOp(EMPTY_PEER);
    assert [a, b, c, d][1..] == [b, c, d] && [b, c, d][1..] == [c, d] && [c, d][1..] == [d];
    assert ApplyOps(t0, [a, b, c, d]) == ApplyOps(t1, [b, c, d]) == ApplyOps(t2, [c, d]) == ApplyOps(t3, [d]) == t4;
  }

  // ---------------------------------------------------------------- route labels

  /** HandlePacket on the header of a packet received from `src`. */
  function Handle(t: Tables, h: Header, src: PeerID): Verdict {
    var length: nat, pos: nat := h[1], h[0];
    if length == 0 then Refused(ZeroLenRoute)
    else if pos > length then Refused(LoopRoute)
    else if 2 + pos + 1 >= 16 then Fault
    else if src !in t.bypeer then Refused(PrevHopUnknown)
    else
      var next := h[2 + pos + 1];
      var back := h[2 + pos := t.bypeer[src]];
      if pos == length - 1 then Emit(t.slots[0], back, EMPTY_PEER)
      else Emit(t.slots[next], back[0 := pos + 1], t.slots[next].Peer())
  }

  /** Each outcome, exactly, and what is written where a packet is handed on: the slot of the previous hop in place of
      the byte it was reached by, and, unless it is at its end, the next position. */
  lemma HandleActs(t: Tables, h: Header, src: PeerID)
    ensures
      var v := Handle(t, h, src);
      var pos, length := h[0] as int, h[1] as int;
      && (v == Refused(ZeroLenRoute) <==> length == 0)
      && (v == Refused(LoopRoute) <==> 0 < length < pos)
      && (v.Fault? <==> 0 < length && 13 <= pos <= length)
      && (v == Refused(PrevHopUnknown) <==> 0 < length && pos <= length && pos < 13 && src !in t.bypeer)
      && (v.Emit? <==> 0 < length && pos <= length && pos < 13 && src in t.bypeer)
      && (v.Emit? ==>
            && v.hdr[2 + pos] == t.bypeer[src] && v.hdr[1] == h[1]
            && (forall i :: 2 <= i < 16 && i != 2 + pos ==> v.hdr[i] == h[i])
            && (if pos + 1 == length then v.hdr[0] == h[0] && v.slot == t.slots[0] && v.dst == EMPTY_PEER
                else v.hdr[0] == pos + 1 && v.slot == t.slots[h[3 + pos]] && v.dst == v.slot.Peer()))
  {
  }

  /** SetRoute's header: position 0, the length, the hops, zeros. */
  function RouteHeader(route: seq<byte>): Header
    requires |route| <= 14
  {
    [0, |route|] + route + Zeros(14 - |route|)
  }

  /** UpperPacket.Route on a header */
  function Label(h: Header): seq<byte>
    requires h[1] <= 14
  {
    h[2..2 + h[1]]
  }

  /** SendPacket then SendRaw: the sender's own slot for the first hop, nothing rewritten. */
  function Originate(t: Tables, route: seq<byte>): Verdict {
    if |route| == 0 then Refused(ZeroLenRoute)
    else if |route| > 14 then Refused(RouteTooLong)
    else Emit(t.slots[route[0]], RouteHeader(route), t.slots[route[0]].Peer())
  }

  /** A route is refused exactly if it is empty or longer than the label, and otherwise handed to the sender's own
      slot for its first hop with the label as SetRoute wrote it. */
  lemma OriginateActs(t: Tables, route: seq<byte>)
    ensures
      var v := Originate(t, route);
      && (v == Refused(ZeroLenRoute) <==> |route| == 0) && (v == Refused(RouteTooLong) <==> |route| > 14)
      && (v.Emit? <==> 1 <= |route| <= 14)
      && (v.Emit? ==>
            && v.slot == t.slots[route[0]] && v.dst == v.slot.Peer()
            && v.hdr[0] == 0 && v.hdr[1] == |route| && v.hdr[2..2 + |route|] == route)
  {
  }

  class Forwarder {
    var slots: seq<Slot>
    var bypeer: map<PeerID, byte>

    ghost predicate Valid()
      reads this
    {
      |slots| == 256
    }

    ghost function View(): Tables
      requires Valid()
      reads this
    {
      TableData(slots, bypeer)
    }

    constructor ()
      ensures Valid() && View() == EmptyTables()
    {
      var table: seq<Slot> := [];
      var i := 0;
      while i < 256
        invariant 0 <= i <= 256
        invariant |table| == i && forall j :: 0 <= j < i ==> table[j] == Null
      {
        table := table + [Null];
        i := i + 1;
      }
      slots, bypeer := table, map[];
      new;
      assert slots == seq(256, _ => Null);
    }

    method Attach(p: PeerID, sink: Sink) returns (slot: Option<byte>)
      requires Valid()
      modifies this
      ensures Valid() && View() == Attached(old(View()), p, sink)
      ensures slot.None? <==> forall i :: 0 <= i < 256 ==> old(slots[i]) != Null
      ensures slot.Some? ==> old(slots[slot.value]) == Null && forall i :: 0 <= i < slot.value ==> old(slots[i]) != Null
      ensures slot.Some? ==> slots[slot.value] == Entry(p, sink) && bypeer == old(bypeer)[p := slot.value]
    {
      var i := 0;
      while i < 256
        invariant 0 <= i <= 256
        invariant forall j :: 0 <= j < i ==> slots[j] != Null
      {
        if slots[i] == Null {
          assert FirstNull(slots, 0) == i;
          slots := slots[i := Entry(p, sink)];
          bypeer := bypeer[p := i];
          return Some(i);
        }
        i := i + 1;
      }
      assert FirstNull(slots, 0) == 256;
      slot := None;
    }

    method Detach(p: PeerID) returns (found: bool)
      requires Valid()
      modifies this
      ensures Valid() && View() == Detached(old(View()), p)
      ensures found <==> exists i :: 0 <= i < 256 && old(slots[i]).Peer() == p
    {
      var i := 0;
      while i < 256
        invariant 0 <= i <= 256
        invariant forall j :: 0 <= j < i ==> slots[j].Peer() != p
      {
        if slots[i].Peer() == p {
          assert FirstOf(slots, p, 0) == i;
          slots := slots[i := Null];
          bypeer := bypeer - {p};
          return true;
        }
        i := i + 1;
      }
      assert FirstOf(slots, p, 0) == 256;
      found := false;
    }

    /** The label at bytes 20..36 is rewritten in place, and only when the packet is handed on. */
    method HandlePacket(buf: array<byte>, src: PeerID) returns (v: Verdict)
      requires Valid() && buf.Length >= 36
      modifies buf
      ensures v == Handle(View(), old(buf[20..36]), src)
      ensures buf[..20] == old(buf[..20]) && buf[36..] == old(buf[36..])
      ensures buf[20..36] == if v.Emit? then v.hdr else old(buf[20..36])
    {
      var length := buf[21];
      if length == 0 {
        return Refused(ZeroLenRoute);
      }
      var pos: nat := buf[20];
      if pos > length {
        return Refused(LoopRoute);
      }
      if 2 + pos + 1 >= 16 {
        return Fault;
      }
      var next := buf[20 + 2 + pos + 1];
      if src !in bypeer {
        return Refused(PrevHopUnknown);
      }
      buf[20 + 2 + pos] := bypeer[src];
      if pos == length - 1 {
        return Emit(slots[0], buf[20..36], EMPTY_PEER);
      }
      buf[20] := pos + 1;
      v := Emit(slots[next], buf[20..36], slots[next].Peer());
    }
  }
}
