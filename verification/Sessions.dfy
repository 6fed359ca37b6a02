/** The session table: handshakes and data routed by session index, and the stages of a session. */
module Sessions {
  import opened Bytes
  import opened Crypto
  import opened Handshake

  /** A transport address, or none. */
  type Addr = Option<nat>

  /** History of a session: what its handshake was made from.  No operation reads it. */
  datatype Origin = Called(i: InitiatorRun) | Answering(r: ResponderRun)

  /** `id` and `origin` are history; the other fields are the source's. */
  datatype Session = Session(
    id: nat, origin: Origin, initiator: bool, stage: nat, hs: Hs, addr: Addr, peer: PeerID)

  /** `born` counts sessions and `connected` logs the session of every connectedCallback, oldest first. */
  datatype Manager = Manager(me: nat, store: map<Index, Session>, born: nat, connected: seq<nat>)

  datatype HelloMsg = HelloMsg(sender: Index, hdr: HelloHeader, sealed: Term)
  datatype ResponseMsg = ResponseMsg(sender: Index, session: Index, hdr: ResponseHeader, sealed: Term)
  datatype DataMsg = DataMsg(session: Index, nonce: seq<byte>, sealed: Term)

  datatype SessError = UnknownIndex | StateError | PeerMismatch | NoSession | Broken(e: HsError)
  datatype Outcome<+T> = Good(value: T) | Bad(error: SessError)

  function NewManager(me: nat): Manager {
    Manager(me, map[], 0, [])
  }

  function Self(m: Manager): PeerID {
    PeerID(Point(m.me))
  }

  const NO_RESPONSE := ResponseHeader(ZERO_KEY, Blank)

  /** Swap: the session moves from one index to the other, over whatever was there. */
  function Swapped(store: map<Index, Session>, from: Index, to: Index): map<Index, Session>
    requires from in store
  {
    (store - {from})[to := store[from]]
  }

  /** The first of the random draws that is not taken. */
  function FirstFree(taken: set<Index>, draws: seq<Index>): (idx: Option<Index>)
    ensures idx.None? <==> forall d <- draws :: d in taken
    ensures idx.Some? ==> idx.value in draws && idx.value !in taken
  {
    if draws == [] then None
    else if draws[0] !in taken then Some(draws[0])
    else FirstFree(taken, draws[1..])
  }

  /** `idx` is the free index that Insert drew, `eph` the fresh ephemeral scalar. */
  function CreateHello(m: Manager, peer: PeerID, addr: Addr, eph: nat, timestamp: Term, payload: Term, idx: Index)
    : (Manager, Outcome<HelloMsg>)
    requires idx !in m.store
  {
    match NewInitiator(m.me, peer.key, eph)
    case Err(e) => (m, Bad(Broken(e)))
    case Ok(hs) =>
      var (hs', hello) := MakeHello(hs, timestamp, payload);
      var run := InitiatorRun(m.me, peer.key, eph, timestamp, payload, NO_RESPONSE, Blank);
      var s := Session(m.born, Called(run), true, 1, hs', addr, peer);
      var m' := m.(store := m.store[idx := s], born := m.born + 1);
      match hello
      case Err(e) => (m', Bad(Broken(e)))
      case Ok((hdr, sealed)) => (m', Good(HelloMsg(idx, hdr, sealed)))
  }

  /** Session.HandleHello and Session.CreateResponse on a new session: its handshake and the response. */
  function AnswerHello(me: nat, eph: nat, msg: HelloMsg, payload: Term): Result<(Hs, ResponseHeader, Term)> {
    var (hs, got) := ConsumeHello(NewResponder(me, eph), msg.hdr, msg.sealed);
    if got.Err? then Err(got.error) else
    var (hs', resp) := MakeResponse(hs, payload);
    if resp.Err? then Err(resp.error) else Ok((hs', resp.value.0, resp.value.1))
  }

  /** The manager with a new responder session. */
  function Admitted(m: Manager, hs: Hs, run: ResponderRun, addr: Addr, idx: Index): Manager {
    var s := Session(m.born, Answering(run), false, 2, hs, addr, PeerID(hs.remoteStatic));
    m.(store := m.store[idx := s], born := m.born + 1)
  }

  function HandleHello(m: Manager, msg: HelloMsg, addr: Addr, eph: nat, payload: Term, idx: Index)
    : (Manager, Outcome<ResponseMsg>)
    requires idx !in m.store
  {
    match AnswerHello(m.me, eph, msg, payload)
    case Err(e) => (m, Bad(Broken(e)))
    case Ok((hs, hdr, sealed)) =>
      var run := ResponderRun(m.me, eph, msg.hdr, msg.sealed, payload);
      (Admitted(m, hs, run, addr, idx), Good(ResponseMsg(msg.sender, idx, hdr, sealed)))
  }

  /** Session.HandleHelloResponse */
  function AcceptResponse(s: Session, msg: ResponseMsg, addr: Addr): (Session, Outcome<()>) {
    if !s.initiator || s.stage != 1 then (s, Bad(StateError)) else
    var (hs', got) := ConsumeResponse(s.hs, msg.hdr, msg.sealed);
    if got.Err? then (s, Bad(Broken(got.error))) else
    if PeerID(hs'.remoteStatic) != s.peer then (s.(hs := hs'), Bad(PeerMismatch)) else
    var origin := if s.origin.Called? then Called(s.origin.i.(resp := msg.hdr, respSealed := msg.sealed)) else s.origin;
    (s.(origin := origin, hs := hs', stage := 3, addr := if addr.None? then s.addr else addr), Good(()))
  }

  /** A success is followed by connectedCallback. */
  function HandleResponse(m: Manager, msg: ResponseMsg, addr: Addr): (Manager, Outcome<PeerID>) {
    if msg.sender !in m.store then (m, Bad(UnknownIndex)) else
    var (s, r) := AcceptResponse(m.store[msg.sender], msg, addr);
    var m' := m.(store := m.store[msg.sender := s]);
    if r.Bad? then (m', Bad(r.error)) else
    (m'.(store := Swapped(m'.store, msg.sender, msg.session), connected := m.connected + [s.id]), Good(s.peer))
  }

  /** `idx` is the index of the session that Find returned, any session for `peer`. */
  function CreateData(m: Manager, peer: PeerID, payload: Term, idx: Index): (Manager, Outcome<(DataMsg, Addr)>) {
    if idx !in m.store || m.store[idx].peer != peer then (m, Bad(NoSession)) else
    var s := m.store[idx];
    var (hs', r) := MakeMessage(s.hs, payload);
    if r.Err? then (m, Bad(Broken(r.error))) else
    (m.(store := m.store[idx := s.(hs := hs')]), Good((DataMsg(idx, r.value.0, r.value.1), s.addr)))
  }

  /** The peer, whether this was the session's first data, and the payload; first data is followed by
      connectedCallback. */
  function HandleData(m: Manager, msg: DataMsg): (Manager, Outcome<(PeerID, bool, Term)>) {
    if msg.session !in m.store then (m, Bad(UnknownIndex)) else
    var s := m.store[msg.session];
    match ConsumeMessage(s.hs, msg.nonce, msg.sealed)
    case Err(e) => (m, Bad(Broken(e)))
    case Ok(payload) =>
      if s.stage == 3 then (m, Good((s.peer, false, payload)))
      else (m.(store := m.store[msg.session := s.(stage := 3)], connected := m.connected + [s.id]),
            Good((s.peer, true, payload)))
  }

  /** Who is refused for the table's sake: data for a peer is sealed only in a session for that peer, and packets that
      come in need a session under their index, responses one that waits for them. */
  lemma RefusedIff(m: Manager, peer: PeerID, payload: Term, idx: Index, resp: ResponseMsg, addr: Addr, data: DataMsg)
    ensures CreateData(m, peer, payload, idx).1 == Bad(NoSession) <==> idx !in m.store || m.store[idx].peer != peer
    ensures CreateData(m, peer, payload, idx).1.Good? <==>
      idx in m.store && m.store[idx].peer == peer && m.store[idx].hs.send.Some?
    ensures HandleResponse(m, resp, addr).1 == Bad(UnknownIndex) <==> resp.sender !in m.store
    ensures HandleResponse(m, resp, addr).1 == Bad(StateError) <==>
      resp.sender in m.store && !(m.store[resp.sender].initiator && m.store[resp.sender].stage == 1)
    ensures HandleData(m, data).1 == Bad(UnknownIndex) <==> data.session !in m.store
    ensures HandleData(m, data).1.Bad? ==> HandleData(m, data).0 == m
  {
  }

  // ---------------------------------------------------------------- runs with any incoming messages

  datatype Op =
    | Call(peer: PeerID, addr: Addr, eph: nat, timestamp: Term, payload: Term, idx: Index)
    | OnHello(hello: HelloMsg, addr: Addr, eph: nat, payload: Term, idx: Index)
    | OnResponse(resp: ResponseMsg, addr: Addr)
    | SendData(peer: PeerID, payload: Term, idx: Index)
    | OnData(data: DataMsg)

  function Step(m: Manager, op: Op): Manager {
    match op
    case Call(peer, addr, eph, timestamp, payload, idx) =>
      if idx in m.store then m else CreateHello(m, peer, addr, eph, timestamp, payload, idx).0
    case OnHello(hello, addr, eph, payload, idx) =>
      if idx in m.store then m else HandleHello(m, hello, addr, eph, payload, idx).0
    case OnResponse(resp, addr) => HandleResponse(m, resp, addr).0
    case SendData(peer, payload, idx) => CreateData(m, peer, payload, idx).0
    case OnData(data) => HandleData(m, data).0
  }

  function Steps(m: Manager, ops: seq<Op>): Manager
    decreases |ops|
  {
    if ops == [] then m else Steps(Step(m, ops[0]), ops[1..])
  }

  /** An initiator's session: waiting at stage 1 without keys, or at stage 3 with the keys of a finished run. */
  ghost predicate CallerOk(me: nat, s: Session) {
    && s.initiator && s.origin.Called?
    && s.origin.i.me == me && s.peer == PeerID(s.origin.i.peer) && s.hs.remoteStatic == s.origin.i.peer
    && (s.stage == 1 || s.stage == 3)
    && (s.stage == 1 ==> Greeted(s.origin.i) && s.hs == Greeting(s.origin.i).0)
    && (s.stage == 3 ==> Finished(s.origin.i) && s.hs.(sendNonce := 0) == InitiatorEnd(s.origin.i))
  }

  /** A responder's session: keys from the start, stage 2 until the first data. */
  ghost predicate AnswererOk(me: nat, s: Session) {
    && !s.initiator && s.origin.Answering?
    && s.origin.r.me == me && Answered(s.origin.r) && s.peer == PeerID(Heard(s.origin.r).remoteStatic)
    && (s.stage == 2 || s.stage == 3)
    && s.hs.(sendNonce := 0) == Answer(s.origin.r).0
  }

  ghost predicate SessionOk(me: nat, s: Session) {
    CallerOk(me, s) || AnswererOk(me, s)
  }

  /** Session ids are unique, and the log holds each connected session once. */
  ghost predicate LogOk(store: map<Index, Session>, born: nat, connected: seq<nat>) {
    && (forall i <- store :: store[i].id < born)
    && (forall i, j :: i in store && j in store && store[i].id == store[j].id ==> i == j)
    && (forall i <- store :: store[i].stage == 3 <==> store[i].id in connected)
    && (forall k :: 0 <= k < |connected| ==> connected[k] < born)
    && (forall k, l :: 0 <= k < l < |connected| ==> connected[k] != connected[l])
  }

  ghost predicate AllOk(me: nat, store: map<Index, Session>) {
    forall i <- store :: SessionOk(me, store[i])
  }

  ghost predicate ManagerOk(m: Manager) {
    AllOk(m.me, m.store) && LogOk(m.store, m.born, m.connected)
  }

  lemma GreetingOpen(i: InitiatorRun)
    requires NewInitiator(i.me, i.peer, i.ephemeral).Ok?
    ensures Greeted(i)
    ensures
      var hs := Greeting(i).0;
      hs.initiator && hs.remoteStatic == i.peer && hs.send.None? && hs.receive.None? && hs.sendNonce == 0
  {
  }

  lemma AnswerShape(r: ResponderRun)
    requires Answered(r)
    ensures Answer(r).1.Ok? && Answer(r).0.sendNonce == 0 && Answer(r).0.remoteStatic == Heard(r).remoteStatic
  {
  }

  /** A waiting initiator has no keys, a connected one and every responder have both. */
  lemma KeysByStage(me: nat, s: Session)
    requires SessionOk(me, s)
    ensures s.initiator ==> (s.stage == 3 <==> s.hs.receive.Some?) && (s.stage == 3 <==> s.hs.send.Some?)
    ensures s.stage != 1 ==> Keyed(s.hs) && s.hs.initiator == s.initiator
  {
    if CallerOk(me, s) {
      if s.stage == 1 {
        GreetingOpen(s.origin.i);
      } else {
        InitiatorKeyed(s.origin.i);
      }
    } else {
      ResponderKeyed(s.origin.r);
    }
  }

  lemma CallerBorn(me: nat, id: nat, run: InitiatorRun, addr: Addr)
    requires run.me == me && NewInitiator(me, run.peer, run.ephemeral).Ok?
    ensures Greeted(run) && CallerOk(me, Session(id, Called(run), true, 1, Greeting(run).0, addr, PeerID(run.peer)))
  {
    GreetingOpen(run);
  }

  /** Accepting a response takes a waiting initiator to stage 3 and never finds another peer. */
  lemma AcceptOk(me: nat, s: Session, msg: ResponseMsg, addr: Addr)
    requires SessionOk(me, s)
    ensures
      var (s', r) := AcceptResponse(s, msg, addr);
      && r != Bad(PeerMismatch)
      && (r.Bad? ==> s' == s)
      && (r.Good? ==> s.stage == 1 && s'.stage == 3 && s'.id == s.id && s'.peer == s.peer && CallerOk(me, s'))
      && (r.Good? ==> s'.origin.Called? && s'.origin.i.resp == msg.hdr && s'.origin.i.respSealed == msg.sealed)
  {
    if s.initiator && s.stage == 1 {
      var i := s.origin.i.(resp := msg.hdr, respSealed := msg.sealed);
      GreetingOpen(s.origin.i);
      AcceptKeeps(s.hs, msg.hdr, msg.sealed);
      assert Greeting(i) == Greeting(s.origin.i);
    }
  }

  lemma AllPut(me: nat, store: map<Index, Session>, idx: Index, s: Session)
    requires AllOk(me, store) && SessionOk(me, s)
    ensures AllOk(me, store[idx := s])
  {
  }

  lemma AllMove(me: nat, store: map<Index, Session>, from: Index, to: Index)
    requires AllOk(me, store) && from in store
    ensures AllOk(me, Swapped(store, from, to))
  {
  }

  /** A new session under a free index. */
  lemma LogAdd(store: map<Index, Session>, born: nat, connected: seq<nat>, idx: Index, s: Session)
    requires LogOk(store, born, connected) && idx !in store && s.id == born && s.stage != 3
    ensures LogOk(store[idx := s], born + 1, connected)
  {
  }

  /** The same session with other fields, still at its stage. */
  lemma LogTouch(store: map<Index, Session>, born: nat, connected: seq<nat>, idx: Index, s: Session)
    requires LogOk(store, born, connected) && idx in store && s.id == store[idx].id && s.stage == store[idx].stage
    ensures LogOk(store[idx := s], born, connected)
  {
  }

  /** The same session, now connected and logged. */
  lemma LogConnect(store: map<Index, Session>, born: nat, connected: seq<nat>, idx: Index, s: Session)
    requires LogOk(store, born, connected) && idx in store
    requires s.id == store[idx].id && store[idx].stage != 3 && s.stage == 3
    ensures LogOk(store[idx := s], born, connected + [s.id])
  {
    var store', connected' := store[idx := s], connected + [s.id];
    forall i <- store'
      ensures store'[i].stage == 3 <==> store'[i].id in connected'
    {
      if i != idx {
        assert store[i].id != s.id;
      }
    }
  }

  /** Moving a session drops at most the one it lands on. */
  lemma LogMove(store: map<Index, Session>, born: nat, connected: seq<nat>, from: Index, to: Index)
    requires LogOk(store, born, connected) && from in store
    ensures LogOk(Swapped(store, from, to), born, connected)
  {
  }

  /** The table after a response that the session accepts, and after one that it does not. */
  lemma ResponseStore(m: Manager, msg: ResponseMsg, addr: Addr)
    requires msg.sender in m.store
    ensures
      var (s, r) := AcceptResponse(m.store[msg.sender], msg, addr);
      HandleResponse(m, msg, addr) ==
        if r.Bad? then (m.(store := m.store[msg.sender := s]), Bad(r.error))
        else
          (Manager(m.me, Swapped(m.store[msg.sender := s], msg.sender, msg.session), m.born, m.connected + [s.id]),
           Good(s.peer))
  {
  }

  lemma OnResponseOk(m: Manager, msg: ResponseMsg, addr: Addr)
    requires ManagerOk(m)
    ensures ManagerOk(HandleResponse(m, msg, addr).0)
    ensures HandleResponse(m, msg, addr).1 != Bad(PeerMismatch)
    ensures HandleResponse(m, msg, addr).1.Bad? ==> HandleResponse(m, msg, addr).0 == m
  {
    if msg.sender in m.store {
      var (s, r) := AcceptResponse(m.store[msg.sender], msg, addr);
      AcceptOk(m.me, m.store[msg.sender], msg, addr);
      ResponseStore(m, msg, addr);
      if r.Bad? {
        assert m.store[msg.sender := s] == m.store;
      } else {
        ConnectedOk(m, msg.sender, s, msg.session);
      }
    }
  }

  lemma ConnectedOk(m: Manager, idx: Index, s: Session, to: Index)
    requires ManagerOk(m) && idx in m.store
    requires SessionOk(m.me, s) && s.id == m.store[idx].id && m.store[idx].stage != 3 && s.stage == 3
    ensures ManagerOk(m.(store := m.store[idx := s], connected := m.connected + [s.id]))
    ensures ManagerOk(m.(store := Swapped(m.store[idx := s], idx, to), connected := m.connected + [s.id]))
  {
    AllPut(m.me, m.store, idx, s);
    AllMove(m.me, m.store[idx := s], idx, to);
    LogConnect(m.store, m.born, m.connected, idx, s);
    LogMove(m.store[idx := s], m.born, m.connected + [s.id], idx, to);
  }

  /** The table after data. */
  lemma DataStore(m: Manager, msg: DataMsg)
    requires msg.session in m.store
    ensures
      var s := m.store[msg.session];
      HandleData(m, msg).0 ==
        if ConsumeMessage(s.hs, msg.nonce, msg.sealed).Err? || s.stage == 3 then m
        else Manager(m.me, m.store[msg.session := s.(stage := 3)], m.born, m.connected + [s.id])
  {
  }

  lemma OnDataOk(m: Manager, msg: DataMsg)
    requires ManagerOk(m)
    ensures ManagerOk(HandleData(m, msg).0)
  {
    if msg.session in m.store {
      var s := m.store[msg.session];
      KeysByStage(m.me, s);
      if s.stage == 2 {
        ConnectedOk(m, msg.session, s.(stage := 3), msg.session);
      }
    }
  }

  lemma SentOk(me: nat, s: Session, payload: Term)
    requires SessionOk(me, s) && s.hs.send.Some?
    ensures SessionOk(me, s.(hs := MakeMessage(s.hs, payload).0))
  {
    KeysByStage(me, s);
    assert MakeMessage(s.hs, payload).0.(sendNonce := 0) == s.hs.(sendNonce := 0);
  }

  lemma SendDataOk(m: Manager, peer: PeerID, payload: Term, idx: Index)
    requires ManagerOk(m)
    ensures ManagerOk(CreateData(m, peer, payload, idx).0)
  {
    if idx in m.store && m.store[idx].peer == peer && m.store[idx].hs.send.Some? {
      var s := m.store[idx];
      var s' := s.(hs := MakeMessage(s.hs, payload).0);
      SentOk(m.me, s, payload);
      AllPut(m.me, m.store, idx, s');
      LogTouch(m.store, m.born, m.connected, idx, s');
    }
  }

  lemma CallOk(m: Manager, peer: PeerID, addr: Addr, eph: nat, timestamp: Term, payload: Term, idx: Index)
    requires ManagerOk(m) && idx !in m.store
    ensures ManagerOk(CreateHello(m, peer, addr, eph, timestamp, payload, idx).0)
  {
    if NewInitiator(m.me, peer.key, eph).Ok? {
      var run := InitiatorRun(m.me, peer.key, eph, timestamp, payload, NO_RESPONSE, Blank);
      CallerBorn(m.me, m.born, run, addr);
      LogAdd(m.store, m.born, m.connected, idx, Session(m.born, Called(run), true, 1, Greeting(run).0, addr, peer));
    }
  }

  /** A new session exactly for a hello that the handshake accepts. */
  lemma AnswerHelloIs(r: ResponderRun, msg: HelloMsg)
    requires msg.hdr == r.hello && msg.sealed == r.helloSealed
    ensures AnswerHello(r.me, r.ephemeral, msg, r.payload).Ok? <==> Answered(r)
    ensures Answered(r) ==>
      && Answer(r).1.Ok?
      && AnswerHello(r.me, r.ephemeral, msg, r.payload) == Ok((Answer(r).0, Answer(r).1.value.0, Answer(r).1.value.1))
  {
    if Answered(r) {
      HeardKeeps(r);
      ResponseKeeps(Heard(r), r.payload);
    }
  }

  lemma HelloStore(m: Manager, msg: HelloMsg, addr: Addr, eph: nat, payload: Term, idx: Index, hs: Hs,
                   hdr: ResponseHeader, sealed: Term)
    requires idx !in m.store && AnswerHello(m.me, eph, msg, payload) == Ok((hs, hdr, sealed))
    ensures HandleHello(m, msg, addr, eph, payload, idx)
      == (Admitted(m, hs, ResponderRun(m.me, eph, msg.hdr, msg.sealed, payload), addr, idx),
          Good(ResponseMsg(msg.sender, idx, hdr, sealed)))
  {
  }

  /** The sessions that calls and hellos make are well formed. */
  lemma CallSession(m: Manager, peer: PeerID, addr: Addr, eph: nat, timestamp: Term, payload: Term, idx: Index)
    requires idx !in m.store
    ensures
      var store := CreateHello(m, peer, addr, eph, timestamp, payload, idx).0.store;
      idx in store ==> SessionOk(m.me, store[idx])
  {
    if NewInitiator(m.me, peer.key, eph).Ok? {
      CallerBorn(m.me, m.born, InitiatorRun(m.me, peer.key, eph, timestamp, payload, NO_RESPONSE, Blank), addr);
    }
  }

  lemma HelloSession(m: Manager, msg: HelloMsg, addr: Addr, eph: nat, payload: Term, idx: Index)
    requires idx !in m.store
    ensures
      var store := HandleHello(m, msg, addr, eph, payload, idx).0.store;
      idx in store ==> SessionOk(m.me, store[idx])
  {
    var run := ResponderRun(m.me, eph, msg.hdr, msg.sealed, payload);
    AnswerHelloIs(run, msg);
    if Answered(run) {
      AnswerShape(run);
    }
  }

  lemma OnHelloOk(m: Manager, msg: HelloMsg, addr: Addr, eph: nat, payload: Term, idx: Index)
    requires ManagerOk(m) && idx !in m.store
    ensures ManagerOk(HandleHello(m, msg, addr, eph, payload, idx).0)
  {
    HelloSession(m, msg, addr, eph, payload, idx);
    var m' := HandleHello(m, msg, addr, eph, payload, idx).0;
    if idx in m'.store {
      AllPut(m.me, m.store, idx, m'.store[idx]);
      LogAdd(m.store, m.born, m.connected, idx, m'.store[idx]);
    }
  }

  /** Over any run, with any messages coming in: sessions stay well formed, every callback is for another session,
      and a session is connected exactly when its callback has fired. */
  lemma {:induction false} RunsOk(m: Manager, ops: seq<Op>)
    requires ManagerOk(m)
    ensures ManagerOk(Steps(m, ops))
    decreases |ops|
  {
    if ops != [] {
      StepOk(m, ops[0]);
      RunsOk(Step(m, ops[0]), ops[1..]);
    }
  }

  lemma StepOk(m: Manager, op: Op)
    requires ManagerOk(m)
    ensures ManagerOk(Step(m, op))
  {
    match op
    case Call(peer, addr, eph, timestamp, payload, idx) =>
      if idx !in m.store {
        CallOk(m, peer, addr, eph, timestamp, payload, idx);
      }
    case OnHello(hello, addr, eph, payload, idx) =>
      if idx !in m.store {
        OnHelloOk(m, hello, addr, eph, payload, idx);
      }
    case OnResponse(resp, addr) => OnResponseOk(m, resp, addr);
    case SendData(peer, payload, idx) => SendDataOk(m, peer, payload, idx);
    case OnData(data) => OnDataOk(m, data);
  }

  lemma NewManagerOk(me: nat)
    ensures ManagerOk(NewManager(me))
  {
  }

  /** connectedCallback fires at most once per session, over any run. */
  lemma CallbacksOnce(me: nat, ops: seq<Op>)
    ensures
      var m := Steps(NewManager(me), ops);
      && (forall k, l :: 0 <= k < l < |m.connected| ==> m.connected[k] != m.connected[l])
      && (forall i <- m.store :: m.store[i].stage == 3 <==> m.store[i].id in m.connected)
  {
    NewManagerOk(me);
    RunsOk(NewManager(me), ops);
  }

  /** Accepted data leaves its session connected, and is called the first exactly when no callback had fired for
      that session before. */
  lemma FirstDataIff(m: Manager, msg: DataMsg)
    requires ManagerOk(m) && HandleData(m, msg).1.Good?
    ensures msg.session in m.store
    ensures
      var (m', got) := HandleData(m, msg);
      var id := m.store[msg.session].id;
      && msg.session in m'.store && m'.store[msg.session].stage == 3
      && (got.value.1 <==> id !in m.connected)
      && m'.connected == (if got.value.1 then m.connected + [id] else m.connected)
      && m'.store.Keys == m.store.Keys
  {
    KeysByStage(m.me, m.store[msg.session]);
  }

  // ---------------------------------------------------------------- stages only rise

  predicate Older(s: Session, s': Session) {
    && s.id == s'.id && s.initiator == s'.initiator && s.peer == s'.peer
    && s.stage <= s'.stage && (s.stage < s'.stage ==> s'.stage == 3)
  }

  /** Every session of `m'` is new since `m`, or one of `m` at the same or a higher stage. */
  ghost predicate Rises(m: Manager, m': Manager) {
    && m.born <= m'.born
    && forall j <- m'.store :: m'.store[j].id >= m.born || exists i :: i in m.store && Older(m.store[i], m'.store[j])
  }

  /** At most one session changes, and it gets older; it may move to another index. */
  lemma RisesIfOneOlder(m: Manager, m': Manager, i: Index, s: Session)
    requires m.born <= m'.born && i in m.store && Older(m.store[i], s)
    requires forall j <- m'.store :: m'.store[j] == s || (j in m.store && m'.store[j] == m.store[j])
    ensures Rises(m, m')
  {
    forall j <- m'.store
      ensures m'.store[j].id >= m.born || exists k :: k in m.store && Older(m.store[k], m'.store[j])
    {
      if m'.store[j] != s {
        assert Older(m.store[j], m'.store[j]);
      }
    }
  }

  lemma RisesIfOneNew(m: Manager, m': Manager, idx: Index)
    requires m.born <= m'.born
    requires forall j <- m'.store ::
      (j == idx && m'.store[j].id >= m.born) || (j in m.store && m'.store[j] == m.store[j])
    ensures Rises(m, m')
  {
    forall j <- m'.store
      ensures m'.store[j].id >= m.born || exists k :: k in m.store && Older(m.store[k], m'.store[j])
    {
      if j in m.store && m'.store[j] == m.store[j] {
        assert Older(m.store[j], m'.store[j]);
      }
    }
  }

  lemma RisesTransitive(a: Manager, b: Manager, c: Manager)
    requires Rises(a, b) && Rises(b, c)
    ensures Rises(a, c)
  {
    forall j <- c.store
      ensures c.store[j].id >= a.born || exists k :: k in a.store && Older(a.store[k], c.store[j])
    {
      if c.store[j].id < a.born {
        var i :| i in b.store && Older(b.store[i], c.store[j]);
        var k :| k in a.store && Older(a.store[k], b.store[i]);
        assert Older(a.store[k], c.store[j]);
      }
    }
  }

  lemma RisesSame(m: Manager, m': Manager)
    requires m'.store == m.store && m'.born == m.born
    ensures Rises(m, m')
  {
    forall j <- m.store
      ensures exists k :: k in m.store && Older(m.store[k], m.store[j])
    {
      assert Older(m.store[j], m.store[j]);
    }
  }

  lemma ResponseRises(m: Manager, msg: ResponseMsg, addr: Addr)
    requires ManagerOk(m)
    ensures Rises(m, HandleResponse(m, msg, addr).0)
  {
    OnResponseOk(m, msg, addr);
    if HandleResponse(m, msg, addr).1.Good? {
      ResponseStore(m, msg, addr);
      AcceptOlder(m.me, m.store[msg.sender], msg, addr);
      RisesIfOneOlder(m, HandleResponse(m, msg, addr).0, msg.sender, AcceptResponse(m.store[msg.sender], msg, addr).0);
    } else {
      RisesSame(m, m);
    }
  }

  lemma AcceptOlder(me: nat, s: Session, msg: ResponseMsg, addr: Addr)
    requires SessionOk(me, s)
    ensures Older(s, AcceptResponse(s, msg, addr).0)
  {
    AcceptOk(me, s, msg, addr);
  }

  lemma SendDataRises(m: Manager, peer: PeerID, payload: Term, idx: Index)
    ensures Rises(m, CreateData(m, peer, payload, idx).0)
  {
    var m' := CreateData(m, peer, payload, idx).0;
    if m' == m {
      RisesSame(m, m);
    } else {
      RisesIfOneOlder(m, m', idx, m'.store[idx]);
    }
  }

  lemma OnDataRises(m: Manager, msg: DataMsg)
    requires ManagerOk(m)
    ensures Rises(m, HandleData(m, msg).0)
  {
    var m' := HandleData(m, msg).0;
    if m' == m {
      RisesSame(m, m);
    } else {
      KeysByStage(m.me, m.store[msg.session]);
      RisesIfOneOlder(m, m', msg.session, m'.store[msg.session]);
    }
  }

  lemma CallRises(m: Manager, peer: PeerID, addr: Addr, eph: nat, timestamp: Term, payload: Term, idx: Index)
    requires idx !in m.store
    ensures Rises(m, CreateHello(m, peer, addr, eph, timestamp, payload, idx).0)
  {
    RisesIfOneNew(m, CreateHello(m, peer, addr, eph, timestamp, payload, idx).0, idx);
  }

  lemma OnHelloRises(m: Manager, msg: HelloMsg, addr: Addr, eph: nat, payload: Term, idx: Index)
    requires idx !in m.store
    ensures Rises(m, HandleHello(m, msg, addr, eph, payload, idx).0)
  {
    RisesIfOneNew(m, HandleHello(m, msg, addr, eph, payload, idx).0, idx);
  }

  lemma StepRises(m: Manager, op: Op)
    requires ManagerOk(m)
    ensures Rises(m, Step(m, op))
  {
    match op
    case Call(peer, addr, eph, timestamp, payload, idx) =>
      if idx in m.store {
        RisesSame(m, m);
      } else {
        CallRises(m, peer, addr, eph, timestamp, payload, idx);
      }
    case OnHello(hello, addr, eph, payload, idx) =>
      if idx in m.store {
        RisesSame(m, m);
      } else {
        OnHelloRises(m, hello, addr, eph, payload, idx);
      }
    case OnResponse(resp, addr) => ResponseRises(m, resp, addr);
    case SendData(peer, payload, idx) => SendDataRises(m, peer, payload, idx);
    case OnData(data) => OnDataRises(m, data);
  }

  /** Over any run a session keeps its peer and its role and goes from its first stage, 1 for an initiator and 2
      for a responder, to 3 and no further. */
  lemma {:induction false} StagesRise(m: Manager, ops: seq<Op>)
    requires ManagerOk(m)
    ensures Rises(m, Steps(m, ops))
    decreases |ops|
  {
    if ops == [] {
      RisesSame(m, m);
    } else {
      StepOk(m, ops[0]);
      StepRises(m, ops[0]);
      StagesRise(Step(m, ops[0]), ops[1..]);
      RisesTransitive(m, Step(m, ops[0]), Steps(m, ops));
    }
  }

  // ---------------------------------------------------------------- data names its sender

  lemma ChainOfSession(me: nat, s: Session)
    requires SessionOk(me, s) && s.stage != 1
    ensures CallerOk(me, s) ==> Finished(s.origin.i) && s.hs.chainKey == InitiatorEnd(s.origin.i).chainKey
    ensures AnswererOk(me, s) ==> s.hs.chainKey == Answer(s.origin.r).0.chainKey
  {
  }

  lemma SameChainNamesPeers(a: nat, s: Session, b: nat, t: Session)
    requires CallerOk(a, s) && s.stage != 1 && AnswererOk(b, t) && s.hs.chainKey == t.hs.chainKey
    ensures s.peer == PeerID(Point(b)) && t.peer == PeerID(Point(a))
  {
    ChainOfSession(a, s);
    ChainOfSession(b, t);
    SameChainSameParties(s.origin.i, t.origin.r);
  }

  /** A message of one session that another accepts was made for it by its peer. */
  lemma OpenedNamesPeers(a: nat, s: Session, b: nat, t: Session, payload: Term)
    requires SessionOk(a, s) && SessionOk(b, t) && s.hs.send.Some? && t.hs.receive.Some?
    ensures
      var m := MakeMessage(s.hs, payload).1.value;
      var got := ConsumeMessage(t.hs, m.0, m.1);
      got.Ok? ==> got == Ok(payload) && t.peer == PeerID(Point(a)) && s.peer == PeerID(Point(b))
  {
    KeysByStage(a, s);
    KeysByStage(b, t);
    OpensIffSameChain(s.hs, t.hs, payload);
    if s.hs.chainKey == t.hs.chainKey && s.hs.initiator != t.hs.initiator {
      if s.initiator {
        SameChainNamesPeers(a, s, b, t);
      } else {
        SameChainNamesPeers(b, t, a, s);
      }
    }
  }

  /** Between any two managers after any runs, with any index on the packet: data that the one made in some session
      and the other accepts carries the payload that was put in, is attributed to the manager that made it, and
      was made for the manager that accepts it. */
  lemma DataNamesItsSender(a: Manager, i: Index, payload: Term, b: Manager, idx: Index)
    requires ManagerOk(a) && ManagerOk(b)
    requires i in a.store && a.store[i].hs.send.Some?
    ensures
      var m := MakeMessage(a.store[i].hs, payload).1.value;
      var got := HandleData(b, DataMsg(idx, m.0, m.1)).1;
      got.Good? ==> got.value.0 == Self(a) && got.value.2 == payload && a.store[i].peer == Self(b)
  {
    if idx in b.store && b.store[idx].hs.receive.Some? {
      OpenedNamesPeers(a.me, a.store[i], b.me, b.store[idx], payload);
    }
  }

  // ---------------------------------------------------------------- pairing

  /** The two ends of a session, under one index. */
  ghost predicate Paired(a: Manager, b: Manager, idx: Index) {
    && idx in a.store && idx in b.store
    && Mirrored(if a.store[idx].initiator then a.store[idx].hs else b.store[idx].hs,
                if a.store[idx].initiator then b.store[idx].hs else a.store[idx].hs)
    && a.store[idx].peer == Self(b) && b.store[idx].peer == Self(a)
  }

  lemma SwapConserves(store: map<Index, Session>, from: Index, to: Index)
    requires from in store
    ensures |Swapped(store, from, to)| == |store| <==> to == from || to !in store
    ensures forall k <- store ::
      k != from && k != to ==> k in Swapped(store, from, to) && Swapped(store, from, to)[k] == store[k]
    ensures to !in store ==> forall k <- Swapped(store, from, to) :: k == to || (k in store && k != from)
  {
    var rest := store - {from};
    assert rest.Keys == store.Keys - {from} && |rest.Keys| == |store.Keys| - 1;
    assert Swapped(store, from, to).Keys == rest.Keys + {to};
    if to !in rest {
      assert |rest.Keys + {to}| == |rest.Keys| + 1;
    } else {
      assert rest.Keys + {to} == rest.Keys;
    }
  }

  /** A's call: a waiting session and its hello. */
  lemma CallMade(a: Manager, b: Manager, ea: nat, timestamp: Term, p1: Term, addr: Addr, i: Index)
    requires i !in a.store
    ensures NewInitiator(a.me, Point(b.me), ea).Ok?
    ensures
      var (hi, hello) := MakeHello(NewInitiator(a.me, Point(b.me), ea).value, timestamp, p1);
      var (a1, made) := CreateHello(a, Self(b), addr, ea, timestamp, p1, i);
      && hello.Ok? && made == Good(HelloMsg(i, hello.value.0, hello.value.1))
      && i in a1.store && a1.store[i].hs == hi
      && a1.store.Keys == a.store.Keys + {i} && a1.store[i].id == a.born
      && a1.store[i].initiator && a1.store[i].stage == 1 && a1.store[i].peer == Self(b)
      && a1.store[i].hs.receive.None? && a1.store[i].addr == addr
  {
    HonestHello(a.me, b.me, ea, ea, timestamp, p1);
  }

  /** B's answer to any hello it accepts. */
  lemma AnswerMade(b: Manager, msg: HelloMsg, addr: Addr, eb: nat, p2: Term, j: Index)
    requires j !in b.store && ConsumeHello(NewResponder(b.me, eb), msg.hdr, msg.sealed).1.Ok?
    ensures
      var hr := ConsumeHello(NewResponder(b.me, eb), msg.hdr, msg.sealed).0;
      var (hr', resp) := MakeResponse(hr, p2);
      var (b1, made) := HandleHello(b, msg, addr, eb, p2, j);
      && resp.Ok? && made == Good(ResponseMsg(msg.sender, j, resp.value.0, resp.value.1))
      && j in b1.store && b1.me == b.me && b1.store[j].hs == hr'
      && b1.store.Keys == b.store.Keys + {j} && b1.store[j].id == b.born && b1.store[j].stage == 2
      && b1.store[j].addr == addr
      && !b1.store[j].initiator && b1.store[j].peer == PeerID(hr.remoteStatic)
  {
    var hr := ConsumeHello(NewResponder(b.me, eb), msg.hdr, msg.sealed).0;
    ResponseKeeps(hr, p2);
  }

  /** Two managers after a call and its answer, the two messages, and the caller's handshake once it accepts. */
  datatype Exchange = Exchange(a: Manager, b: Manager, hello: HelloMsg, resp: ResponseMsg, hi: Hs)

  /** A's call and B's answer, with the handshakes they leave behind. */
  lemma CallAnswered(a: Manager, b: Manager, ea: nat, eb: nat, timestamp: Term, p1: Term, p2: Term,
                     addrA: Addr, addrB: Addr, i: Index, j: Index) returns (e: Exchange)
    requires i !in a.store && j !in b.store
    ensures CreateHello(a, Self(b), addrA, ea, timestamp, p1, i) == (e.a, Good(e.hello))
    ensures HandleHello(b, e.hello, addrB, eb, p2, j) == (e.b, Good(e.resp))
    ensures e.resp.sender == i && e.resp.session == j
    ensures e.a.store.Keys == a.store.Keys + {i} && e.b.store.Keys == b.store.Keys + {j}
    ensures
      var s, t := e.a.store[i], e.b.store[j];
      && s.id == a.born && s.initiator && s.stage == 1 && s.peer == Self(b) && s.hs.receive.None? && s.addr == addrA
      && t.id == b.born && !t.initiator && t.stage == 2 && t.peer == Self(a) && t.addr == addrB
      && e.a.me == a.me && e.b.me == b.me
      && ConsumeResponse(s.hs, e.resp.hdr, e.resp.sealed) == (e.hi, Ok(p2))
      && e.hi.remoteStatic == Point(b.me) && Mirrored(e.hi, t.hs)
  {
    CallMade(a, b, ea, timestamp, p1, addrA, i);
    HonestHello(a.me, b.me, ea, eb, timestamp, p1);
    var (hi, made) := MakeHello(NewInitiator(a.me, Point(b.me), ea).value, timestamp, p1);
    var hello := HelloMsg(i, made.value.0, made.value.1);
    var hr := ConsumeHello(NewResponder(b.me, eb), hello.hdr, hello.sealed).0;
    AnswerMade(b, hello, addrB, eb, p2, j);
    HonestResponse(hi, hr, p2);
    var answer := MakeResponse(hr, p2).1.value;
    AcceptKeeps(hi, answer.0, answer.1);
    e := Exchange(CreateHello(a, Self(b), addrA, ea, timestamp, p1, i).0, HandleHello(b, hello, addrB, eb, p2, j).0,
                  hello, ResponseMsg(i, j, answer.0, answer.1), ConsumeResponse(hi, answer.0, answer.1).0);
  }

  /** A's table when a waiting session accepts. */
  lemma AnswerAccepted(a: Manager, msg: ResponseMsg, addr: Addr)
    requires
      && msg.sender in a.store
      && var s := a.store[msg.sender];
      && s.initiator && s.stage == 1
      && var (hi, got) := ConsumeResponse(s.hs, msg.hdr, msg.sealed);
      got.Ok? && PeerID(hi.remoteStatic) == s.peer
    ensures
      var (a', got) := HandleResponse(a, msg, addr);
      var s := a.store[msg.sender];
      && got == Good(s.peer)
      && msg.session in a'.store
      && var s' := a'.store[msg.session];
      && s'.initiator && s'.stage == 3 && s'.peer == s.peer && s'.hs == ConsumeResponse(s.hs, msg.hdr, msg.sealed).0
      && s'.addr == (if addr.Some? then addr else s.addr)
      && a'.me == a.me && a'.store == Swapped(a.store[msg.sender := s'], msg.sender, msg.session)
      && (|a'.store| == |a.store| <==> msg.sender == msg.session || msg.session !in a.store)
  {
    var s' := AcceptResponse(a.store[msg.sender], msg, addr).0;
    var store := a.store[msg.sender := s'];
    assert store.Keys == a.store.Keys;
    SwapConserves(store, msg.sender, msg.session);
  }

  /** A calls B, B answers under index j, and at any later time while A still holds the call A accepts the answer:
      both then hold the session under j, mirrored and naming each other, and A has lost a session exactly when it
      already held another one under j. */
  lemma HandshakePairs(a: Manager, b: Manager, ea: nat, eb: nat, timestamp: Term, p1: Term, p2: Term,
                       addrA: Addr, addrB: Addr, addrA': Addr, i: Index, j: Index, a2: Manager)
    requires i !in a.store && j !in b.store
    requires
      var a1 := CreateHello(a, Self(b), addrA, ea, timestamp, p1, i).0;
      a2.me == a.me && i in a2.store && i in a1.store && a2.store[i] == a1.store[i]
    ensures
      var hello := CreateHello(a, Self(b), addrA, ea, timestamp, p1, i).1;
      hello.Good? &&
      var (b1, resp) := HandleHello(b, hello.value, addrB, eb, p2, j);
      resp.Good? && resp.value.sender == i && resp.value.session == j &&
      var (a3, got) := HandleResponse(a2, resp.value, addrA');
      && got == Good(Self(b))
      && Paired(a3, b1, j) && a3.store[j].stage == 3
      && a3.store[j].addr == (if addrA'.Some? then addrA' else a2.store[i].addr)
      && a3.store == Swapped(a2.store[i := a3.store[j]], i, j)
      && (|a3.store| == |a2.store| <==> i == j || j !in a2.store)
  {
    var e := CallAnswered(a, b, ea, eb, timestamp, p1, p2, addrA, addrB, i, j);
    AnswerAccepted(a2, e.resp, addrA');
  }

  /** A landing that breaks a pair: B answers A's call under an index that A holds a session with V under, and once A
      accepts, V's session has no other end. */
  lemma LandingBreaksPair(v: Manager, a: Manager, b: Manager, ea: nat, eb: nat, timestamp: Term, p1: Term, p2: Term,
                          addrA: Addr, addrB: Addr, addrA': Addr, i: Index, j: Index)
    requires i !in a.store && i != j && j !in b.store && Paired(v, a, j) && v.me != b.me
    ensures
      var (a1, hello) := CreateHello(a, Self(b), addrA, ea, timestamp, p1, i);
      Paired(v, a1, j) && hello.Good? &&
      var (b1, resp) := HandleHello(b, hello.value, addrB, eb, p2, j);
      resp.Good? &&
      var (a2, got) := HandleResponse(a1, resp.value, addrA');
      got == Good(Self(b)) && Paired(a2, b1, j) && !Paired(v, a2, j)
  {
    CallMade(a, b, ea, timestamp, p1, addrA, i);
    var a1 := CreateHello(a, Self(b), addrA, ea, timestamp, p1, i).0;
    HandshakePairs(a, b, ea, eb, timestamp, p1, p2, addrA, addrB, addrA', i, j, a1);
  }

  lemma MirroredOpens(x: Hs, y: Hs, payload: Term)
    requires x.send.Some? && y.receive == x.send
    ensures
      var (x', m) := MakeMessage(x, payload);
      && m.Ok? && ConsumeMessage(y, m.value.0, m.value.1) == Ok(payload)
      && x' == x.(sendNonce := x'.sendNonce)
  {
  }

  /** Data for a paired session, in either direction, is accepted by the other end and names the sender. */
  lemma PairedDataOpens(a: Manager, b: Manager, idx: Index, payload: Term)
    requires Paired(a, b, idx)
    ensures
      var (a', made) := CreateData(a, Self(b), payload, idx);
      made.Good? && made.value.1 == a.store[idx].addr &&
      var (b', got) := HandleData(b, made.value.0);
      got.Good? && got.value.0 == Self(a) && got.value.2 == payload && Paired(a', b', idx)
  {
    MirroredOpens(a.store[idx].hs, b.store[idx].hs, payload);
  }

  /** If every session A holds for B is paired, whichever one Find returns will do. */
  lemma AnySessionFound(a: Manager, b: Manager, idx: Index, payload: Term)
    requires forall k <- a.store :: a.store[k].peer == Self(b) ==> Paired(a, b, k)
    requires idx in a.store && a.store[idx].peer == Self(b)
    ensures
      var made := CreateData(a, Self(b), payload, idx).1;
      made.Good? && HandleData(b, made.value.0).1.Good? && HandleData(b, made.value.0).1.value.0 == Self(a)
  {
    PairedDataOpens(a, b, idx, payload);
  }

  // ---------------------------------------------------------------- the object

  class SessionManager {
    const me: nat
    var store: map<Index, Session>
    var nils: set<Index>     // present in the table with a nil pointer
    var born: nat            // history
    var connected: seq<nat>  // history

    /** No index is taken by a nil pointer.  Only a Swap from an absent index breaks this, and HandleResponse, its one
        caller, makes none. */
    predicate Valid()
      reads this
    {
      nils == {}
    }

    function View(): Manager
      reads this
    {
      Manager(me, store, born, connected)
    }

    constructor (me: nat)
      ensures Valid() && View() == NewManager(me)
    {
      this.me, store, nils, born, connected := me, map[], {}, 0, [];
    }

    /** `draws` are the random numbers; None means that all of them were taken and the source draws on. */
    method Insert(s: Session, draws: seq<Index>) returns (idx: Option<Index>)
      modifies this`store
      ensures idx == FirstFree(old(store.Keys + nils), draws)
      ensures Valid() ==> idx == FirstFree(old(store.Keys), draws)
      ensures store == if idx.Some? then old(store)[idx.value := s] else old(store)
    {
      assert Valid() ==> store.Keys + nils == store.Keys;
      var k := 0;
      while k < |draws|
        invariant 0 <= k <= |draws|
        invariant FirstFree(store.Keys + nils, draws) == FirstFree(store.Keys + nils, draws[k..])
        invariant store == old(store)
      {
        if draws[k] !in store && draws[k] !in nils {
          store := store[draws[k] := s];
          return Some(draws[k]);
        }
        assert draws[k..][1..] == draws[k + 1..];
        k := k + 1;
      }
      idx := None;
    }

    /** The first match in some order of the table. */
    method Find(peer: PeerID) returns (idx: Option<Index>)
      requires Valid()
      ensures idx.Some? ==> idx.value in store && store[idx.value].peer == peer
      ensures idx.None? <==> forall i <- store :: store[i].peer != peer
    {
      var left := store.Keys;
      while left != {}
        invariant left <= store.Keys
        invariant forall i <- store :: i !in left ==> store[i].peer != peer
        decreases left
      {
        var i :| i in left;
        if store[i].peer == peer {
          return Some(i);
        }
        left := left - {i};
      }
      idx := None;
    }

    /** From an absent index a nil pointer is moved: it takes the place of what was under `to`. */
    method Swap(from: Index, to: Index)
      modifies this`store, this`nils
      ensures from in old(store) ==> store == Swapped(old(store), from, to) && nils == old(nils) - {from, to}
      ensures from !in old(store) ==> store == old(store) - {to} && nils == old(nils) - {from} + {to}
      ensures old(Valid()) ==> (Valid() <==> from in old(store))
    {
      if from in store {
        var s := store[from];
        store, nils := store - {from}, nils - {from};
        store, nils := store[to := s], nils - {to};
      } else {
        nils := nils - {from};
        store, nils := store - {to}, nils + {to};
      }
    }

    method Greet(peer: PeerID, addr: Addr, eph: nat, timestamp: Term, payload: Term, draws: seq<Index>)
      returns (idx: Option<Index>, r: Outcome<HelloMsg>)
      requires Valid()
      modifies this
      ensures Valid()
      ensures idx.Some? ==> idx == FirstFree(old(store.Keys), draws)
      ensures idx.Some? ==> (View(), r) == CreateHello(old(View()), peer, addr, eph, timestamp, payload, idx.value)
      ensures idx.None? ==> View() == old(View())
      ensures idx.None? ==> NewInitiator(me, peer.key, eph).Err? || FirstFree(old(store.Keys), draws).None?
    {
      var hs := NewInitiator(me, peer.key, eph);
      if hs.Err? {
        return None, Bad(Broken(hs.error));
      }
      var (hs', hello) := MakeHello(hs.value, timestamp, payload);
      var run := InitiatorRun(me, peer.key, eph, timestamp, payload, NO_RESPONSE, Blank);
      idx := Insert(Session(born, Called(run), true, 1, hs', addr, peer), draws);
      if idx.None? {
        return None, Bad(NoSession);
      }
      born := born + 1;
      r := match hello
        case Err(e) => Bad(Broken(e))
        case Ok((hdr, sealed)) => Good(HelloMsg(idx.value, hdr, sealed));
    }

    method Admit(hs: Hs, run: ResponderRun, addr: Addr, draws: seq<Index>) returns (idx: Option<Index>)
      requires Valid()
      modifies this
      ensures Valid()
      ensures idx == FirstFree(old(store.Keys), draws)
      ensures View() == if idx.Some? then Admitted(old(View()), hs, run, addr, idx.value) else old(View())
    {
      idx := Insert(Session(born, Answering(run), false, 2, hs, addr, PeerID(hs.remoteStatic)), draws);
      if idx.Some? {
        born := born + 1;
      }
    }

    method OnHello(msg: HelloMsg, addr: Addr, eph: nat, payload: Term, draws: seq<Index>)
      returns (idx: Option<Index>, r: Outcome<ResponseMsg>)
      requires Valid()
      modifies this
      ensures Valid()
      ensures idx.Some? ==> idx == FirstFree(old(store.Keys), draws)
      ensures idx.Some? ==> (View(), r) == HandleHello(old(View()), msg, addr, eph, payload, idx.value)
      ensures idx.None? ==> View() == old(View())
      ensures idx.None? ==> AnswerHello(me, eph, msg, payload).Err? || FirstFree(old(store.Keys), draws).None?
    {
      var answer := AnswerHello(me, eph, msg, payload);
      if answer.Err? {
        return None, Bad(Broken(answer.error));
      }
      var (hs, hdr, sealed) := answer.value;
      var run := ResponderRun(me, eph, msg.hdr, msg.sealed, payload);
      ghost var m := View();
      idx := Admit(hs, run, addr, draws);
      if idx.None? {
        return None, Bad(NoSession);
      }
      HelloStore(m, msg, addr, eph, payload, idx.value, hs, hdr, sealed);
      r := Good(ResponseMsg(msg.sender, idx.value, hdr, sealed));
    }

    method OnResponse(msg: ResponseMsg, addr: Addr) returns (r: Outcome<PeerID>)
      requires Valid()
      modifies this
      ensures Valid()
      ensures (View(), r) == HandleResponse(old(View()), msg, addr)
    {
      if msg.sender !in store {
        return Bad(UnknownIndex);
      }
      var (s, ok) := AcceptResponse(store[msg.sender], msg, addr);
      store := store[msg.sender := s];
      if ok.Bad? {
        return Bad(ok.error);
      }
      Swap(msg.sender, msg.session);
      connected := connected + [s.id];
      r := Good(s.peer);
    }

    /** With the session that Find picks. */
    method Seal(peer: PeerID, payload: Term) returns (idx: Option<Index>, r: Outcome<(DataMsg, Addr)>)
      requires Valid()
      modifies this`store
      ensures idx.None? <==> forall i <- old(store) :: old(store)[i].peer != peer
      ensures idx.None? ==> store == old(store) && r == Bad(NoSession)
      ensures idx.Some? ==> idx.value in old(store) && old(store)[idx.value].peer == peer
      ensures idx.Some? ==> (View(), r) == CreateData(old(View()), peer, payload, idx.value)
    {
      idx := Find(peer);
      if idx.None? {
        return None, Bad(NoSession);
      }
      var s := store[idx.value];
      var (hs', m) := MakeMessage(s.hs, payload);
      if m.Err? {
        return idx, Bad(Broken(m.error));
      }
      store := store[idx.value := s.(hs := hs')];
      r := Good((DataMsg(idx.value, m.value.0, m.value.1), s.addr));
    }

    method OnData(msg: DataMsg) returns (r: Outcome<(PeerID, bool, Term)>)
      requires Valid()
      modifies this
      ensures Valid()
      ensures (View(), r) == HandleData(old(View()), msg)
    {
      if msg.session !in store {
        return Bad(UnknownIndex);
      }
      var s := store[msg.session];
      var payload := ConsumeMessage(s.hs, msg.nonce, msg.sealed);
      if payload.Err? {
        return Bad(Broken(payload.error));
      }
      if s.stage == 3 {
        return Good((s.peer, false, payload.value));
      }
      store := store[msg.session := s.(stage := 3)];
      connected := connected + [s.id];
      r := Good((s.peer, true, payload.value));
    }
  }
}
