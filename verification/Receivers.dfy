/** The receiving goroutines of one node, with sessions behind pointers.  HandleData reads a session's stage, opens the
    packet and then writes the stage, without a lock; the lower and the upper receive routine interleave these steps
    with each other and with the hello routine, which accepts a response and only then sets the stage and moves the
    session. */
module Receivers {
  import opened Bytes
  import opened Crypto
  import opened Handshake
  import opened Sessions

  /** Where a receive routine is: outside HandleData, or past the look-up and the read of the stage. */
  datatype Receiver = Idle | Holding(id: nat, stage: nat, msg: DataMsg)

  /** Where the hello routine is: outside HandleResponse, or past ConsumeResponse. */
  datatype Greeter = Resting | Accepted(id: nat, sender: Index, session: Index, addr: Addr)

  /** Sessions are on the heap, `table` points to them, `fired` logs every connectedCallback. */
  datatype NodeData = NodeData(
    me: nat, heap: seq<Session>, table: map<Index, nat>, greeter: Greeter, receivers: seq<Receiver>, fired: seq<nat>)

  /** All pointers are to sessions, and no two indices point to the same one. */
  ghost predicate Pointed(n: NodeData) {
    && (forall i <- n.table :: n.table[i] < |n.heap|)
    && (forall i, j :: i in n.table && j in n.table && n.table[i] == n.table[j] ==> i == j)
    && (forall k :: 0 <= k < |n.heap| ==> n.heap[k].id == k)
    && (forall k :: 0 <= k < |n.receivers| && n.receivers[k].Holding? ==> n.receivers[k].id < |n.heap|)
    && (forall k :: 0 <= k < |n.fired| ==> n.fired[k] < |n.heap|)
    && (n.greeter.Accepted? ==> n.greeter.sender in n.table && n.table[n.greeter.sender] == n.greeter.id)
  }

  type Node = n: NodeData | Pointed(n) witness NodeData(0, [], map[], Resting, [], [])

  /** `r` receive routines, as Start makes two. */
  function NewNode(me: nat, r: nat): Node {
    NodeData(me, [], map[], Resting, seq(r, _ => Idle), [])
  }

  /** The session table with the pointers followed. */
  function View(n: Node): Manager {
    Manager(n.me, map i | i in n.table :: n.heap[n.table[i]], |n.heap|, n.fired)
  }

  datatype Step =
    | Call(peer: PeerID, addr: Addr, eph: nat, timestamp: Term, payload: Term, idx: Index)
    | OnHello(hello: HelloMsg, addr: Addr, eph: nat, payload: Term, idx: Index)
    | SendData(peer: PeerID, payload: Term, idx: Index)
    | Accept(resp: ResponseMsg, addr: Addr)
    | Finish
    | Read(r: nat, msg: DataMsg)
    | Commit(r: nat)

  /** A session that an operation has put under a free index. */
  function Adopt(n: Node, m: Manager, idx: Index): Node
    requires idx !in n.table && (idx in m.store ==> m.store[idx].id == |n.heap|)
  {
    if idx !in m.store then n
    else n.(heap := n.heap + [m.store[idx]], table := n.table[idx := |n.heap|])
  }

  /** A session written through its pointer. */
  function Written(n: Node, id: nat, s: Session): Node
    requires id < |n.heap| && s.id == id
  {
    n.(heap := n.heap[id := s])
  }

  /** Swap on pointers. */
  function Moved(n: Node, from: Index, to: Index): Node
    requires from in n.table && n.greeter == Resting
  {
    n.(table := (n.table - {from})[to := n.table[from]])
  }

  /** connectedCallback, logged. */
  function Logged(n: Node, id: nat): Node
    requires id < |n.heap|
  {
    n.(fired := n.fired + [id])
  }

  /** The hello routine with a session that has its keys. */
  function Holds(n: Node, s: Session, msg: ResponseMsg, addr: Addr): Node
    requires msg.sender in n.table && s.id == n.table[msg.sender]
  {
    Written(n, s.id, s).(greeter := Accepted(s.id, msg.sender, msg.session, addr))
  }

  /** A session at stage 3, with the address of the response if it has one. */
  function Finished(s: Session, addr: Addr): Session {
    s.(stage := 3, addr := if addr.None? then s.addr else addr)
  }

  /** HandleResponse up to ConsumeResponse: the keys are there, the stage is not. */
  function AcceptStep(n: Node, msg: ResponseMsg, addr: Addr): Node {
    if n.greeter.Accepted? || msg.sender !in n.table then n else
    var id := n.table[msg.sender];
    var s := n.heap[id];
    var (s', r) := AcceptResponse(s, msg, addr);
    if r.Bad? then Written(n, id, s')
    else Holds(n, s.(hs := s'.hs, origin := s'.origin), msg, addr)
  }

  /** The rest of it: stage, Swap, address and callback. */
  function FinishStep(n: Node): Node {
    match n.greeter
    case Resting => n
    case Accepted(id, sender, session, addr) =>
      var n' := Written(n, id, Finished(n.heap[id], addr)).(greeter := Resting);
      Moved(Logged(n', id), sender, session)
  }

  function ReadStep(n: Node, r: nat, msg: DataMsg): Node
    requires r < |n.receivers|
  {
    if n.receivers[r] != Idle || msg.session !in n.table then n else
    var id := n.table[msg.session];
    n.(receivers := n.receivers[r := Holding(id, n.heap[id].stage, msg)])
  }

  function CommitStep(n: Node, r: nat): Node
    requires r < |n.receivers|
  {
    match n.receivers[r]
    case Idle => n
    case Holding(id, stage, msg) =>
      var n' := n.(receivers := n.receivers[r := Idle]);
      if ConsumeMessage(n.heap[id].hs, msg.nonce, msg.sealed).Err? || stage == 3 then n'
      else Logged(Written(n', id, n.heap[id].(stage := 3)), id)
  }

  function Apply(n: Node, step: Step): Node {
    match step
    case Call(peer, addr, eph, timestamp, payload, idx) =>
      if idx in n.table then n
      else Adopt(n, CreateHello(View(n), peer, addr, eph, timestamp, payload, idx).0, idx)
    case OnHello(hello, addr, eph, payload, idx) =>
      if idx in n.table then n else Adopt(n, HandleHello(View(n), hello, addr, eph, payload, idx).0, idx)
    case SendData(peer, payload, idx) =>
      if idx !in n.table then n
      else Written(n, n.table[idx], CreateData(View(n), peer, payload, idx).0.store[idx])
    case Accept(resp, addr) => AcceptStep(n, resp, addr)
    case Finish => FinishStep(n)
    case Read(r, msg) => if r < |n.receivers| then ReadStep(n, r, msg) else n
    case Commit(r) => if r < |n.receivers| then CommitStep(n, r) else n
  }

  function Run(n: Node, steps: seq<Step>): Node
    decreases |steps|
  {
    if steps == [] then n else Run(Apply(n, steps[0]), steps[1..])
  }

  // ---------------------------------------------------------------- how often the callback fires

  /** How often the callback has fired for a session. */
  ghost function Fires(n: Node, id: nat): nat {
    multiset(n.fired)[id]
  }

  /** A routine that will fire for the session if its packet opens. */
  function MayFire(r: Receiver, id: nat): nat {
    if r.Holding? && r.id == id && r.stage != 3 then 1 else 0
  }

  function Held(rs: seq<Receiver>, id: nat): nat {
    if rs == [] then 0 else MayFire(rs[0], id) + Held(rs[1..], id)
  }

  lemma {:induction false} HeldUpdate(rs: seq<Receiver>, k: nat, r: Receiver, id: nat)
    requires k < |rs|
    ensures Held(rs[k := r], id) + MayFire(rs[k], id) == Held(rs, id) + MayFire(r, id)
    decreases |rs|
  {
    if k == 0 {
      assert rs[k := r][1..] == rs[1..];
    } else {
      HeldUpdate(rs[1..], k - 1, r, id);
      assert rs[k := r][1..] == rs[1..][k - 1 := r];
    }
  }

  lemma {:induction false} HeldAtMost(rs: seq<Receiver>, id: nat)
    ensures Held(rs, id) <= |rs|
    ensures (forall k :: 0 <= k < |rs| ==> MayFire(rs[k], id) == 0) ==> Held(rs, id) == 0
  {
    if rs != [] {
      HeldAtMost(rs[1..], id);
      assert forall k :: 0 <= k < |rs| - 1 ==> rs[1..][k] == rs[k + 1];
    }
  }

  function Pending(g: Greeter, id: nat): nat {
    if g.Accepted? && g.id == id then 1 else 0
  }

  /** The callbacks of a session, past and still to come, are as many as the receive routines, and one more for an
      initiator; before the first of them the stage is below 3. */
  ghost predicate Bounded(n: Node, id: nat) {
    if id >= |n.heap| then Fires(n, id) == 0 else
      && Fires(n, id) + Held(n.receivers, id) + Pending(n.greeter, id)
           <= |n.receivers| + (if n.heap[id].initiator then 1 else 0)
      && (n.heap[id].stage == 3 <==> Fires(n, id) > 0)
      && (Pending(n.greeter, id) > 0 ==> n.heap[id].initiator)
  }

  /** A step that adds a session, or writes one without touching role and stage. */
  lemma AdoptBounded(n: Node, m: Manager, idx: Index, id: nat)
    requires Bounded(n, id) && idx !in n.table
    requires idx in m.store ==> m.store[idx].id == |n.heap| && m.store[idx].stage != 3
    ensures Bounded(Adopt(n, m, idx), id)
  {
    HeldAtMost(n.receivers, id);
  }

  lemma WrittenBounded(n: Node, k: nat, s: Session, id: nat)
    requires Bounded(n, id) && k < |n.heap| && s.id == k
    requires s.initiator == n.heap[k].initiator && s.stage == n.heap[k].stage
    ensures Bounded(Written(n, k, s), id)
  {
  }

  lemma AcceptBounded(n: Node, msg: ResponseMsg, addr: Addr, id: nat)
    requires Bounded(n, id)
    ensures Bounded(AcceptStep(n, msg, addr), id)
  {
    HeldAtMost(n.receivers, id);
    if n.greeter.Resting? && msg.sender in n.table {
      var k := n.table[msg.sender];
      var (s', r) := AcceptResponse(n.heap[k], msg, addr);
      WrittenBounded(n, k, if r.Bad? then s' else n.heap[k].(hs := s'.hs, origin := s'.origin), id);
    }
  }

  lemma FinishBounded(n: Node, id: nat)
    requires Bounded(n, id)
    ensures Bounded(FinishStep(n), id)
  {
  }

  lemma ReadBounded(n: Node, r: nat, msg: DataMsg, id: nat)
    requires Bounded(n, id) && r < |n.receivers|
    ensures Bounded(ReadStep(n, r, msg), id)
  {
    if n.receivers[r] == Idle && msg.session in n.table {
      var k := n.table[msg.session];
      var h := Holding(k, n.heap[k].stage, msg);
      HeldUpdate(n.receivers, r, h, id);
      HeldAtMost(n.receivers[r := h], id);
    }
  }

  /** A routine that lets go without firing. */
  lemma DropBounded(n: Node, r: nat, id: nat)
    requires Bounded(n, id) && r < |n.receivers|
    ensures Bounded(n.(receivers := n.receivers[r := Idle]), id)
  {
    HeldUpdate(n.receivers, r, Idle, id);
  }

  /** A routine that fires for session `k`. */
  lemma FireBounded(n: Node, r: nat, k: nat, id: nat)
    requires Bounded(n, id) && r < |n.receivers| && k < |n.heap| && MayFire(n.receivers[r], k) == 1
    ensures Bounded(Logged(Written(n.(receivers := n.receivers[r := Idle]), k, n.heap[k].(stage := 3)), k), id)
  {
    HeldUpdate(n.receivers, r, Idle, id);
  }

  lemma CommitBounded(n: Node, r: nat, id: nat)
    requires Bounded(n, id) && r < |n.receivers|
    ensures Bounded(CommitStep(n, r), id)
  {
    match n.receivers[r]
    case Idle =>
    case Holding(k, stage, msg) =>
      DropBounded(n, r, id);
      if stage != 3 {
        FireBounded(n, r, k, id);
      }
  }

  lemma StepBounded(n: Node, step: Step, id: nat)
    requires Bounded(n, id)
    ensures Bounded(Apply(n, step), id)
  {
    match step
    case Call(peer, addr, eph, timestamp, payload, idx) =>
      if idx !in n.table {
        AdoptBounded(n, CreateHello(View(n), peer, addr, eph, timestamp, payload, idx).0, idx, id);
      }
    case OnHello(hello, addr, eph, payload, idx) =>
      if idx !in n.table {
        AdoptBounded(n, HandleHello(View(n), hello, addr, eph, payload, idx).0, idx, id);
      }
    case SendData(peer, payload, idx) =>
      if idx in n.table {
        WrittenBounded(n, n.table[idx], CreateData(View(n), peer, payload, idx).0.store[idx], id);
      }
    case Accept(resp, addr) => AcceptBounded(n, resp, addr, id);
    case Finish => FinishBounded(n, id);
    case Read(r, msg) =>
      if r < |n.receivers| {
        ReadBounded(n, r, msg, id);
      }
    case Commit(r) =>
      if r < |n.receivers| {
        CommitBounded(n, r, id);
      }
  }

  lemma StepKeeps(n: Node, step: Step)
    ensures |Apply(n, step).receivers| == |n.receivers| && Apply(n, step).me == n.me
  {
  }

  lemma {:induction false} RunBounded(n: Node, steps: seq<Step>, id: nat)
    requires Bounded(n, id)
    ensures Bounded(Run(n, steps), id) && |Run(n, steps).receivers| == |n.receivers|
    decreases |steps|
  {
    if steps != [] {
      StepBounded(n, steps[0], id);
      StepKeeps(n, steps[0]);
      RunBounded(Apply(n, steps[0]), steps[1..], id);
    }
  }

  /** In every interleaving the callback fires for a session at most once per receive routine, and once more for an
      initiator; a session is at stage 3 exactly when it has fired. */
  lemma FiresAtMost(me: nat, r: nat, steps: seq<Step>, id: nat)
    requires id < |Run(NewNode(me, r), steps).heap|
    ensures
      var n := Run(NewNode(me, r), steps);
      && Fires(n, id) <= r + (if n.heap[id].initiator then 1 else 0)
      && (n.heap[id].stage == 3 <==> Fires(n, id) > 0)
  {
    HeldAtMost(NewNode(me, r).receivers, id);
    RunBounded(NewNode(me, r), steps, id);
  }

  // ---------------------------------------------------------------- runs that fire that often

  lemma {:induction false} RunAppend(n: Node, a: seq<Step>, b: seq<Step>)
    ensures Run(n, a + b) == Run(Run(n, a), b)
    decreases |a|
  {
    if a == [] {
      assert a + b == b;
    } else {
      assert (a + b)[1..] == a[1..] + b;
      RunAppend(Apply(n, a[0]), a[1..], b);
    }
  }

  lemma RunOne(n: Node, a: Step)
    ensures Run(n, [a]) == Apply(n, a)
  {
    assert [a][1..] == [];
  }

  /** Of `r` routines the first `k` are at `a`, the others at `b`. */
  function Line(r: nat, k: nat, a: Receiver, b: Receiver): (rs: seq<Receiver>)
    ensures |rs| == r && forall i :: 0 <= i < r ==> rs[i] == if i < k then a else b
  {
    seq(r, i => if i < k then a else b)
  }

  lemma LineNext(r: nat, k: nat, a: Receiver, b: Receiver)
    requires 0 < k <= r
    ensures Line(r, k - 1, a, b)[k - 1 := a] == Line(r, k, a, b)
  {
  }

  function Reads(k: nat, msg: DataMsg): seq<Step> {
    seq(k, i requires 0 <= i < k => Read(i, msg))
  }

  function Commits(k: nat): seq<Step> {
    seq(k, i requires 0 <= i < k => Commit(i))
  }

  lemma ReadNext(n: Node, m: Node, msg: DataMsg, k: nat, id: nat, h: Receiver)
    requires 0 < k <= |n.receivers| && msg.session in n.table && id == n.table[msg.session]
    requires h == Holding(id, n.heap[id].stage, msg) && m == n.(receivers := Line(|n.receivers|, k - 1, h, Idle))
    ensures Apply(m, Read(k - 1, msg)) == n.(receivers := Line(|n.receivers|, k, h, Idle))
  {
    LineNext(|n.receivers|, k, h, Idle);
  }

  /** Every routine looks the session up before any of them goes on. */
  lemma {:induction false} AllRead(n: Node, msg: DataMsg, k: nat)
    requires k <= |n.receivers| && n.receivers == Line(|n.receivers|, 0, Idle, Idle) && msg.session in n.table
    ensures
      var h := Holding(n.table[msg.session], n.heap[n.table[msg.session]].stage, msg);
      Run(n, Reads(k, msg)) == n.(receivers := Line(|n.receivers|, k, h, Idle))
  {
    var id := n.table[msg.session];
    var h := Holding(id, n.heap[id].stage, msg);
    if k == 0 {
      assert Line(|n.receivers|, 0, h, Idle) == n.receivers;
    } else {
      AllRead(n, msg, k - 1);
      var before, last := Reads(k - 1, msg), Read(k - 1, msg);
      assert Reads(k, msg) == before + [last];
      RunAppend(n, before, [last]);
      RunOne(Run(n, before), last);
      ReadNext(n, Run(n, before), msg, k, id, h);
    }
  }

  /** The node once `k` routines that saw a lower stage have fired. */
  function Fired(n: Node, id: nat, h: Receiver, k: nat): Node
    requires id < |n.heap| && h.Holding? && h.id == id
  {
    n.(receivers := Line(|n.receivers|, k, Idle, h), fired := n.fired + seq(k, _ => id),
       heap := if k == 0 then n.heap else n.heap[id := n.heap[id].(stage := 3)])
  }

  lemma OneCommits(n: Node, id: nat, h: Receiver, k: nat)
    requires k < |n.receivers| && id < |n.heap| && h.Holding? && h.id == id && h.stage != 3
    requires ConsumeMessage(n.heap[id].hs, h.msg.nonce, h.msg.sealed).Ok?
    ensures Run(Fired(n, id, h, k), [Commit(k)]) == Fired(n, id, h, k + 1)
  {
    RunOne(Fired(n, id, h, k), Commit(k));
    var r := |n.receivers|;
    assert Line(r, k, Idle, h)[k := Idle] == Line(r, k + 1, Idle, h);
    assert n.fired + seq(k, _ => id) + [id] == n.fired + seq(k + 1, _ => id);
    assert n.heap[id := n.heap[id].(stage := 3)][id := n.heap[id].(stage := 3)]
      == n.heap[id := n.heap[id].(stage := 3)];
  }

  lemma CommitsSplit(k: nat)
    requires k > 0
    ensures Commits(k) == Commits(k - 1) + [Commit(k - 1)]
  {
  }

  lemma {:induction false} AllCommit(n: Node, id: nat, h: Receiver, k: nat)
    requires k <= |n.receivers| && id < |n.heap| && h.Holding? && h.id == id && h.stage != 3
    requires n.receivers == Line(|n.receivers|, 0, Idle, h)
    requires ConsumeMessage(n.heap[id].hs, h.msg.nonce, h.msg.sealed).Ok?
    ensures Run(n, Commits(k)) == Fired(n, id, h, k)
  {
    if k == 0 {
      assert n.fired + seq(0, _ => id) == n.fired;
    } else {
      AllCommit(n, id, h, k - 1);
      CommitsSplit(k);
      RunAppend(n, Commits(k - 1), [Commit(k - 1)]);
      OneCommits(n, id, h, k - 1);
    }
  }

  lemma {:induction false} CountAll(s: seq<nat>, k: nat, id: nat)
    ensures multiset(s + seq(k, _ => id))[id] == multiset(s)[id] + k
  {
    if k == 0 {
      assert s + seq(0, _ => id) == s;
    } else {
      CountAll(s, k - 1, id);
      assert s + seq(k, _ => id) == s + seq(k - 1, _ => id) + [id];
    }
  }

  lemma NewView(me: nat, r: nat)
    ensures View(NewNode(me, r)) == NewManager(me)
  {
  }

  /** Data of the other end, under any index. */
  lemma SomeData(x: Hs, y: Hs, idx: Index) returns (msg: DataMsg)
    requires x.send.Some? && y.receive == x.send
    ensures msg.session == idx && ConsumeMessage(y, msg.nonce, msg.sealed).Ok?
  {
    MirroredOpens(x, y, NOTHING);
    var m := MakeMessage(x, NOTHING).1.value;
    msg := DataMsg(idx, m.0, m.1);
  }

  /** All routines hold the same. */
  function Lined(n: Node, h: Receiver): Node
    requires h.Holding? ==> h.id < |n.heap|
  {
    n.(receivers := Line(|n.receivers|, 0, Idle, h))
  }

  /** From a session that has not fired: all routines read, `between` happens, all routines commit. */
  lemma ReadAllCommitAll(n: Node, msg: DataMsg, between: seq<Step>, id: nat, h: Receiver, m: Node)
    returns (steps: seq<Step>)
    requires n.receivers == Line(|n.receivers|, 0, Idle, Idle) && msg.session in n.table && id == n.table[msg.session]
    requires h == Holding(id, n.heap[id].stage, msg) && h.stage != 3 && m == Run(Lined(n, h), between)
    requires |m.heap| == |n.heap| && m.receivers == Line(|n.receivers|, 0, Idle, h)
    requires ConsumeMessage(m.heap[id].hs, msg.nonce, msg.sealed).Ok?
    ensures |Run(n, steps).heap| == |n.heap| && Run(n, steps).heap[id].initiator == m.heap[id].initiator
    ensures Fires(Run(n, steps), id) == Fires(m, id) + |n.receivers|
  {
    var r := |n.receivers|;
    AllRead(n, msg, r);
    assert Line(r, r, h, Idle) == Line(r, 0, Idle, h);
    AllCommit(m, id, h, r);
    CountAll(m.fired, r, id);
    RunAppend(n, Reads(r, msg), between);
    RunAppend(n, Reads(r, msg) + between, Commits(r));
    steps := Reads(r, msg) + between + Commits(r);
  }

  /** A hello, and data of its sender for the session it makes. */
  lemma SomeHello(a: Manager, b: Manager, ea: nat, eb: nat, p: Term, i: Index) returns (hello: HelloMsg, msg: DataMsg)
    requires i !in a.store && b.store == map[]
    ensures
      var m := HandleHello(b, hello, None, eb, p, i).0;
      && msg.session == i && m.store.Keys == {i}
      && var s := m.store[i];
      && s.id == b.born && !s.initiator && s.stage == 2 && ConsumeMessage(s.hs, msg.nonce, msg.sealed).Ok?
  {
    var e := CallAnswered(a, b, ea, eb, p, p, p, None, None, i, i);
    hello := e.hello;
    msg := SomeData(e.hi, e.b.store[i].hs, i);
  }

  /** A responder's session: all routines see stage 2 and all fire. */
  lemma ResponderFires(me: nat, r: nat) returns (steps: seq<Step>)
    ensures
      var n := Run(NewNode(me, r), steps);
      n.heap != [] && !n.heap[0].initiator && Fires(n, 0) == r
  {
    var hello, msg := SomeHello(NewManager(0), NewManager(me), 1, 2, NOTHING, 0);
    var step := Step.OnHello(hello, None, 2, NOTHING, 0);
    NewView(me, r);
    RunOne(NewNode(me, r), step);
    var n := Apply(NewNode(me, r), step);
    assert n.table == map[0 := 0];
    var h := Holding(0, 2, msg);
    steps := ReadAllCommitAll(n, msg, [], 0, h, Lined(n, h));
    RunAppend(NewNode(me, r), [step], steps);
    steps := [step] + steps;
  }

  lemma AcceptFrom(s: Session, resp: ResponseMsg, hi: Hs)
    requires s.initiator && s.stage == 1 && PeerID(hi.remoteStatic) == s.peer
    requires ConsumeResponse(s.hs, resp.hdr, resp.sealed).1.Ok? && ConsumeResponse(s.hs, resp.hdr, resp.sealed).0 == hi
    ensures AcceptResponse(s, resp, None).1.Good? && AcceptResponse(s, resp, None).0.hs == hi
  {
  }

  /** A call, the response to it, and data of the answering node. */
  lemma SomeCall(a: Manager, b: Manager, ea: nat, eb: nat, p: Term, i: Index)
    returns (resp: ResponseMsg, msg: DataMsg)
    requires a.store == map[] && i !in b.store
    ensures
      var m := CreateHello(a, Self(b), None, ea, p, p, i).0;
      && msg.session == resp.sender == i && m.store.Keys == {i}
      && var s := m.store[i];
      && s.id == a.born && s.initiator && s.stage == 1
      && var (s', r) := AcceptResponse(s, resp, None);
      r.Good? && ConsumeMessage(s'.hs, msg.nonce, msg.sealed).Ok?
  {
    var e := CallAnswered(a, b, ea, eb, p, p, p, None, None, i, i);
    resp := e.resp;
    msg := SomeData(e.b.store[i].hs, e.hi, i);
    AcceptFrom(e.a.store[i], resp, e.hi);
  }

  /** What the two steps of the hello routine do together. */
  lemma AcceptThenFinish(n: Node, msg: ResponseMsg, addr: Addr, s': Session)
    requires n.greeter == Resting && msg.sender in n.table
    requires AcceptResponse(n.heap[n.table[msg.sender]], msg, addr) == (s', Good(()))
    ensures
      var id := n.table[msg.sender];
      && s'.id == id && s'.initiator == n.heap[id].initiator
      && FinishStep(AcceptStep(n, msg, addr))
           == Moved(Logged(Written(n, id, s'), id), msg.sender, msg.session)
  {
    var id := n.table[msg.sender];
    var s := n.heap[id];
    var k := s.(hs := s'.hs, origin := s'.origin);
    assert s' == Finished(k, addr);
    assert n.heap[id := k][id := s'] == n.heap[id := s'];
  }

  lemma GreeterRuns(n: Node, msg: ResponseMsg, addr: Addr)
    ensures Run(n, [Accept(msg, addr)] + [Finish]) == FinishStep(AcceptStep(n, msg, addr))
  {
    RunOne(n, Accept(msg, addr));
    RunOne(AcceptStep(n, msg, addr), Finish);
    RunAppend(n, [Accept(msg, addr)], [Finish]);
  }

  /** An initiator's session: all routines see stage 1, the hello routine fires, and then all routines do. */
  lemma WaitingFires(n: Node, resp: ResponseMsg, msg: DataMsg, s': Session) returns (steps: seq<Step>)
    requires n.greeter == Resting && n.receivers == Line(|n.receivers|, 0, Idle, Idle) && n.fired == []
    requires |n.heap| == 1 && n.table == map[0 := 0] && resp.sender == msg.session == 0
    requires n.heap[0].stage == 1 && n.heap[0].initiator
    requires AcceptResponse(n.heap[0], resp, None) == (s', Good(()))
    requires ConsumeMessage(s'.hs, msg.nonce, msg.sealed).Ok?
    ensures
      var n' := Run(n, steps);
      |n'.heap| == 1 && n'.heap[0].initiator && Fires(n', 0) == |n.receivers| + 1
  {
    var h := Holding(0, 1, msg);
    var m := Lined(n, h);
    AcceptThenFinish(m, resp, None, s');
    GreeterRuns(m, resp, None);
    steps := ReadAllCommitAll(n, msg, [Accept(resp, None)] + [Finish], 0, h, FinishStep(AcceptStep(m, resp, None)));
  }

  lemma InitiatorFires(me: nat, r: nat) returns (steps: seq<Step>)
    ensures
      var n := Run(NewNode(me, r), steps);
      n.heap != [] && n.heap[0].initiator && Fires(n, 0) == r + 1
  {
    var resp, msg := SomeCall(NewManager(me), NewManager(0), 1, 2, NOTHING, 0);
    var step := Step.Call(Self(NewManager(0)), None, 1, NOTHING, NOTHING, 0);
    NewView(me, r);
    RunOne(NewNode(me, r), step);
    var n := Apply(NewNode(me, r), step);
    assert n.table == map[0 := 0];
    steps := WaitingFires(n, resp, msg, AcceptResponse(n.heap[0], resp, None).0);
    RunAppend(NewNode(me, r), [step], steps);
    steps := [step] + steps;
  }

  /** In no run does the callback fire twice for a session of that role. */
  ghost predicate OnceEach(r: nat, initiator: bool) {
    forall me: nat, steps: seq<Step>, id: nat ::
      id < |Run(NewNode(me, r), steps).heap| && Run(NewNode(me, r), steps).heap[id].initiator == initiator ==>
        Fires(Run(NewNode(me, r), steps), id) <= 1
  }

  /** For a session that answered a hello the callback fires at most once, in every run, if and only if there is one
      receive routine at most. */
  lemma ResponderOnceIff(r: nat)
    ensures OnceEach(r, false) <==> r <= 1
  {
    if r <= 1 {
      forall me: nat, steps: seq<Step>, id: nat |
        id < |Run(NewNode(me, r), steps).heap| && !Run(NewNode(me, r), steps).heap[id].initiator
        ensures Fires(Run(NewNode(me, r), steps), id) <= 1
      {
        FiresAtMost(me, r, steps, id);
      }
    } else {
      var steps := ResponderFires(0, r);
    }
  }

  /** For a session that made a call one receive routine beside the hello routine is enough to fire it twice. */
  lemma InitiatorOnceIff(r: nat)
    ensures OnceEach(r, true) <==> r == 0
  {
    if r == 0 {
      forall me: nat, steps: seq<Step>, id: nat |
        id < |Run(NewNode(me, r), steps).heap| && Run(NewNode(me, r), steps).heap[id].initiator
        ensures Fires(Run(NewNode(me, r), steps), id) <= 1
      {
        FiresAtMost(me, r, steps, id);
      }
    } else {
      var steps := InitiatorFires(0, r);
    }
  }

  // ---------------------------------------------------------------- routines one after the other

  /** A write through the pointer of an index is a write to the entry of that index. */
  lemma ViewWritten(n: Node, idx: Index, s: Session)
    requires idx in n.table && s.id == n.table[idx]
    ensures View(Written(n, n.table[idx], s)) == View(n).(store := View(n).store[idx := s])
  {
  }

  lemma ViewMoved(n: Node, from: Index, to: Index)
    requires from in n.table && n.greeter == Resting
    ensures View(Moved(n, from, to)) == View(n).(store := Swapped(View(n).store, from, to))
  {
  }

  /** What the two steps of a receive routine do together. */
  lemma ReadThenCommit(n: Node, r: nat, msg: DataMsg)
    requires r < |n.receivers| && n.receivers[r] == Idle && msg.session in n.table
    ensures
      var id := n.table[msg.session];
      CommitStep(ReadStep(n, r, msg), r) ==
        if ConsumeMessage(n.heap[id].hs, msg.nonce, msg.sealed).Err? || n.heap[id].stage == 3 then n
        else Logged(Written(n, id, n.heap[id].(stage := 3)), id)
  {
    assert n.receivers[r := ReadStep(n, r, msg).receivers[r]][r := Idle] == n.receivers;
  }

  lemma ViewLogged(n: Node, id: nat)
    requires id < |n.heap|
    ensures View(Logged(n, id)) == View(n).(connected := n.fired + [id])
  {
  }

  /** A routine that is not interrupted does what HandleData does. */
  lemma SerialData(n: Node, r: nat, msg: DataMsg)
    requires r < |n.receivers| && n.receivers[r] == Idle
    ensures View(Apply(Apply(n, Read(r, msg)), Commit(r))) == HandleData(View(n), msg).0
  {
    if msg.session in n.table {
      var id := n.table[msg.session];
      DataStore(View(n), msg);
      ReadThenCommit(n, r, msg);
      ViewWritten(n, msg.session, n.heap[id].(stage := 3));
      ViewLogged(Written(n, id, n.heap[id].(stage := 3)), id);
    }
  }

  lemma SerialAccepted(n: Node, msg: ResponseMsg, addr: Addr, s': Session)
    requires n.greeter == Resting && msg.sender in n.table
    requires AcceptResponse(n.heap[n.table[msg.sender]], msg, addr) == (s', Good(()))
    ensures
      var m, id := View(n), n.table[msg.sender];
      View(FinishStep(AcceptStep(n, msg, addr))) == Manager(
        m.me, Swapped(m.store[msg.sender := s'], msg.sender, msg.session), m.born, m.connected + [id])
  {
    var id := n.table[msg.sender];
    AcceptThenFinish(n, msg, addr, s');
    ViewWritten(n, msg.sender, s');
    var w := Written(n, id, s');
    ViewLogged(w, id);
    ViewMoved(Logged(w, id), msg.sender, msg.session);
  }

  /** A hello routine that is not interrupted does what HandleResponse does. */
  lemma SerialResponse(n: Node, msg: ResponseMsg, addr: Addr)
    requires n.greeter == Resting
    ensures View(FinishStep(AcceptStep(n, msg, addr))) == HandleResponse(View(n), msg, addr).0
  {
    if msg.sender in n.table {
      var (s', r) := AcceptResponse(n.heap[n.table[msg.sender]], msg, addr);
      ResponseStore(View(n), msg, addr);
      if r.Good? {
        SerialAccepted(n, msg, addr, s');
      } else {
        ViewWritten(n, msg.sender, s');
      }
    }
  }

  // ---------------------------------------------------------------- sessions in every interleaving

  /** The session, at stage 3 already if the hello routine is about to put it there. */
  function Settled(n: Node, id: nat): Session
    requires id < |n.heap|
  {
    if Pending(n.greeter, id) > 0 then n.heap[id].(stage := 3) else n.heap[id]
  }

  ghost predicate Sound(n: Node, id: nat) {
    id < |n.heap| ==>
      && SessionOk(n.me, Settled(n, id))
      && (Pending(n.greeter, id) > 0 ==> n.heap[id].initiator)
  }

  lemma AdoptSound(n: Node, m: Manager, idx: Index, id: nat)
    requires Sound(n, id) && idx !in n.table
    requires idx in m.store ==> m.store[idx].id == |n.heap| && SessionOk(n.me, m.store[idx])
    ensures Sound(Adopt(n, m, idx), id)
  {
  }

  lemma DataSentSound(n: Node, peer: PeerID, payload: Term, idx: Index, id: nat)
    requires Sound(n, id) && idx in n.table
    ensures Sound(Apply(n, Step.SendData(peer, payload, idx)), id)
  {
    var s := n.heap[n.table[idx]];
    if id == n.table[idx] && s.peer == peer && s.hs.send.Some? {
      SentOk(n.me, Settled(n, id), payload);
    }
  }

  /** A response leaves a session as it is, or makes it one that needs nothing but its stage. */
  lemma AcceptedSound(me: nat, s: Session, msg: ResponseMsg, addr: Addr)
    requires SessionOk(me, s)
    ensures
      var (s', r) := AcceptResponse(s, msg, addr);
      && (r.Bad? ==> s' == s)
      && (r.Good? ==> s.initiator && SessionOk(me, s.(hs := s'.hs, origin := s'.origin, stage := 3)))
  {
    AcceptOk(me, s, msg, addr);
  }

  /** What AcceptStep does with the session of a response. */
  lemma AcceptCases(n: Node, msg: ResponseMsg, addr: Addr)
    requires n.greeter.Resting? && msg.sender in n.table
    ensures
      var s := n.heap[n.table[msg.sender]];
      var (s', r) := AcceptResponse(s, msg, addr);
      && s'.id == s.id
      && AcceptStep(n, msg, addr) ==
           if r.Bad? then Written(n, s.id, s') else Holds(n, s.(hs := s'.hs, origin := s'.origin), msg, addr)
  {
  }

  lemma AcceptSound(n: Node, msg: ResponseMsg, addr: Addr, id: nat)
    requires Sound(n, id)
    ensures Sound(AcceptStep(n, msg, addr), id)
  {
    if n.greeter.Resting? && msg.sender in n.table {
      AcceptCases(n, msg, addr);
      var k := n.table[msg.sender];
      var (s', r) := AcceptResponse(n.heap[k], msg, addr);
      var h := n.heap[k].(hs := s'.hs, origin := s'.origin);
      if k == id {
        AcceptedSound(n.me, n.heap[k], msg, addr);
        if r.Good? {
          HoldsSound(n, h, msg, addr);
        }
      } else if r.Good? {
        SoundCarries(n, Holds(n, h, msg, addr), id);
      } else {
        SoundCarries(n, Written(n, k, s'), id);
      }
    }
  }

  lemma SoundCarries(n: Node, n': Node, id: nat)
    requires Sound(n, id) && n'.me == n.me && |n'.heap| == |n.heap|
    requires id < |n.heap| ==> Settled(n', id) == Settled(n, id) && Pending(n'.greeter, id) <= Pending(n.greeter, id)
    ensures Sound(n', id)
  {
  }

  lemma HoldsSound(n: Node, s: Session, msg: ResponseMsg, addr: Addr)
    requires msg.sender in n.table && s.id == n.table[msg.sender]
    requires s.initiator && SessionOk(n.me, s.(stage := 3))
    ensures Sound(Holds(n, s, msg, addr), s.id)
  {
  }

  lemma FinishSound(n: Node, id: nat)
    requires Sound(n, id)
    ensures Sound(FinishStep(n), id)
  {
  }

  lemma CommitSound(n: Node, r: nat, id: nat)
    requires Sound(n, id) && r < |n.receivers|
    ensures Sound(CommitStep(n, r), id)
  {
    if n.receivers[r].Holding? && n.receivers[r].id == id && n.heap[id].hs.receive.Some? {
      KeysByStage(n.me, Settled(n, id));
      assert SessionOk(n.me, n.heap[id].(stage := 3));
    }
  }

  lemma StepInSound(n: Node, step: Step, id: nat)
    requires Sound(n, id)
    ensures Sound(Apply(n, step), id)
  {
    match step
    case Call(peer, addr, eph, timestamp, payload, idx) =>
      if idx !in n.table {
        CallSession(View(n), peer, addr, eph, timestamp, payload, idx);
        AdoptSound(n, CreateHello(View(n), peer, addr, eph, timestamp, payload, idx).0, idx, id);
      }
    case OnHello(hello, addr, eph, payload, idx) =>
      if idx !in n.table {
        HelloSession(View(n), hello, addr, eph, payload, idx);
        AdoptSound(n, HandleHello(View(n), hello, addr, eph, payload, idx).0, idx, id);
      }
    case SendData(peer, payload, idx) =>
      if idx in n.table {
        DataSentSound(n, peer, payload, idx, id);
      }
    case Accept(resp, addr) => AcceptSound(n, resp, addr, id);
    case Finish => FinishSound(n, id);
    case Read(_, _) =>
    case Commit(r) =>
      if r < |n.receivers| {
        CommitSound(n, r, id);
      }
  }

  lemma {:induction false} RunSound(n: Node, steps: seq<Step>, id: nat)
    requires Sound(n, id)
    ensures Sound(Run(n, steps), id) && Run(n, steps).me == n.me
    decreases |steps|
  {
    if steps != [] {
      StepInSound(n, steps[0], id);
      StepKeeps(n, steps[0]);
      RunSound(Apply(n, steps[0]), steps[1..], id);
    }
  }

  /** In every interleaving a session is well formed once the hello routine has let go of it, and then an initiator
      is at stage 3 exactly when it has its keys. */
  lemma KeysInterleaved(me: nat, r: nat, steps: seq<Step>, id: nat)
    requires id < |Run(NewNode(me, r), steps).heap|
    ensures
      var n := Run(NewNode(me, r), steps);
      var s := n.heap[id];
      && SessionOk(me, Settled(n, id))
      && (s.initiator && Pending(n.greeter, id) == 0 ==> (s.stage == 3 <==> s.hs.receive.Some?))
  {
    RunSound(NewNode(me, r), steps, id);
    KeysByStage(me, Settled(Run(NewNode(me, r), steps), id));
  }

  /** Between two nodes after any interleavings: a packet sealed in a session of the one that opens in a session of
      the other carries the payload put in, and each session names the other node. */
  lemma NamesItsSender(a: nat, ra: nat, p: seq<Step>, i: nat, b: nat, rb: nat, q: seq<Step>, j: nat, payload: Term)
    requires i < |Run(NewNode(a, ra), p).heap| && j < |Run(NewNode(b, rb), q).heap|
    requires Run(NewNode(a, ra), p).heap[i].hs.send.Some? && Run(NewNode(b, rb), q).heap[j].hs.receive.Some?
    ensures
      var s, t := Run(NewNode(a, ra), p).heap[i], Run(NewNode(b, rb), q).heap[j];
      var m := MakeMessage(s.hs, payload).1.value;
      var got := ConsumeMessage(t.hs, m.0, m.1);
      got.Ok? ==> got == Ok(payload) && t.peer == PeerID(Point(a)) && s.peer == PeerID(Point(b))
  {
    RunSound(NewNode(a, ra), p, i);
    RunSound(NewNode(b, rb), q, j);
    OpenedNamesPeers(a, Settled(Run(NewNode(a, ra), p), i), b, Settled(Run(NewNode(b, rb), q), j), payload);
  }
}
