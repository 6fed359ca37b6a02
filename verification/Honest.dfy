/** The sessions of a whole network whose nodes all run the protocol.  Links lose, repeat, reorder and misdeliver
    messages and may hand a node any hello at all; responses and data are ones that some node made.  An index is only
    free where it is drawn. */
module Honest {
  import opened Bytes
  import opened Crypto
  import opened Kdf
  import opened Handshake
  import opened Sessions

  type Managers = map<PeerID, Manager>

  /** A session that made a call and is connected. */
  predicate Caller(ms: Managers, x: PeerID, j: Index) {
    x in ms && j in ms[x].store && ms[x].store[j].initiator && ms[x].store[j].stage == 3
  }

  predicate Answerer(ms: Managers, y: PeerID, j: Index) {
    y in ms && j in ms[y].store && !ms[y].store[j].initiator
  }

  /** A session whose response is that one. */
  ghost predicate Responded(s: Session, hdr: ResponseHeader, sealed: Term) {
    s.origin.Answering? && Answered(s.origin.r) && Answer(s.origin.r).1 == Ok((hdr, sealed))
  }

  ghost predicate Owned(ms: Managers, y: PeerID, resp: ResponseMsg) {
    Answerer(ms, y, resp.session) && Responded(ms[y].store[resp.session], resp.hdr, resp.sealed)
  }

  /** `x` accepted, for the session it has under `j`, the response that `y` made for the one it has there. */
  ghost predicate Matched(ms: Managers, x: PeerID, y: PeerID, j: Index) {
    && Caller(ms, x, j) && Answerer(ms, y, j) && ms[x].store[j].origin.Called?
    && Responded(ms[y].store[j], ms[x].store[j].origin.i.resp, ms[x].store[j].origin.i.respSealed)
  }

  /** A session under that index whose key `d` is sealed with. */
  ghost predicate Sender(ms: Managers, x: PeerID, d: DataMsg) {
    && x in ms && d.session in ms[x].store && ms[x].store[d.session].stage != 1
    && d.sealed.Box? && ms[x].store[d.session].hs.send == Some(d.sealed.key)
  }

  ghost predicate NodeOk(x: PeerID, m: Manager) {
    x == Self(m) && AllOk(m.me, m.store)
  }

  ghost predicate NodesOk(ms: Managers) {
    forall x <- ms :: NodeOk(x, ms[x])
  }

  ghost predicate AllOwned(ms: Managers, responses: set<ResponseMsg>) {
    forall r <- responses :: exists y :: Owned(ms, y, r)
  }

  ghost predicate CallersMatched(ms: Managers) {
    forall x, j :: Caller(ms, x, j) ==> exists y :: Matched(ms, x, y, j)
  }

  ghost predicate AllSent(ms: Managers, data: set<DataMsg>) {
    forall d <- data :: exists x :: Sender(ms, x, d)
  }

  /** A connected session that answered is matched by a connected one that called. */
  ghost predicate AnswerersMatched(ms: Managers) {
    forall y, j :: Answerer(ms, y, j) && ms[y].store[j].stage == 3 ==> exists x :: Matched(ms, x, y, j)
  }

  ghost predicate SessionsAgree(ms: Managers, responses: set<ResponseMsg>, data: set<DataMsg>) {
    NodesOk(ms) && AllOwned(ms, responses) && CallersMatched(ms) && AllSent(ms, data) && AnswerersMatched(ms)
  }

  // ---------------------------------------------------------------- what a change of one node keeps

  /** What stays of a session: all but the nonce counter, a higher stage and a newer address. */
  ghost predicate Goes(s: Session, s': Session) {
    && s'.initiator == s.initiator && s'.origin == s.origin && s'.peer == s.peer && s'.hs.send == s.hs.send
    && s'.stage != 1 && (s.stage == 3 ==> s'.stage == 3) && (s.addr.Some? ==> s'.addr.Some?)
  }

  /** Sessions with keys stay under their indices. */
  ghost predicate Stay(st: map<Index, Session>, st': map<Index, Session>) {
    forall j <- st :: st[j].stage != 1 ==> j in st' && Goes(st[j], st'[j])
  }

  /** The response in `s` is one that another node made for the session it has under `j`. */
  ghost predicate AnsweredBy(ms: Managers, y: PeerID, j: Index, s: Session) {
    s.origin.Called? && Answerer(ms, y, j) && Responded(ms[y].store[j], s.origin.i.resp, s.origin.i.respSealed)
  }

  /** What is newly connected at node `x` is what the invariant asks for. */
  ghost predicate NewCallers(ms: Managers, x: PeerID, st': map<Index, Session>) {
    forall j <- st' :: st'[j].initiator && st'[j].stage == 3 ==>
      || (Caller(ms, x, j) && st'[j].origin == ms[x].store[j].origin)
      || exists y :: y != x && AnsweredBy(ms, y, j, st'[j])
  }

  ghost predicate NewConnected(ms: Managers, x: PeerID, st': map<Index, Session>) {
    forall j <- st' :: !st'[j].initiator && st'[j].stage == 3 ==>
      || (Answerer(ms, x, j) && ms[x].store[j].stage == 3)
      || exists z :: Matched(ms, z, x, j)
  }

  /** Node `x` goes on to `m`. */
  ghost predicate Evolves(ms: Managers, x: PeerID, m: Manager)
    requires x in ms
  {
    && NodeOk(x, m) && Stay(ms[x].store, m.store)
    && NewCallers(ms, x, m.store) && NewConnected(ms, x, m.store)
  }

  /** Stages by role. */
  lemma StagesOf(x: PeerID, m: Manager, j: Index)
    requires NodeOk(x, m)
    ensures j in m.store ==>
      if m.store[j].initiator then m.store[j].stage == 1 || m.store[j].stage == 3
      else m.store[j].stage == 2 || m.store[j].stage == 3
  {
    if j in m.store {
      assert SessionOk(m.me, m.store[j]);
    }
  }

  lemma AnswererStays(ms: Managers, x: PeerID, m: Manager, y: PeerID, j: Index)
    requires x in ms && NodeOk(x, ms[x]) && Stay(ms[x].store, m.store) && Answerer(ms, y, j)
    ensures Answerer(ms[x := m], y, j) && ms[x := m][y].store[j].origin == ms[y].store[j].origin
  {
    StagesOf(x, ms[x], j);
  }

  lemma CallerStays(ms: Managers, x: PeerID, m: Manager, z: PeerID, j: Index)
    requires x in ms && Stay(ms[x].store, m.store) && Caller(ms, z, j)
    ensures Caller(ms[x := m], z, j) && ms[x := m][z].store[j].origin == ms[z].store[j].origin
  {
  }

  lemma OwnedStays(ms: Managers, x: PeerID, m: Manager, responses: set<ResponseMsg>)
    requires x in ms && NodeOk(x, ms[x]) && Stay(ms[x].store, m.store) && AllOwned(ms, responses)
    ensures AllOwned(ms[x := m], responses)
  {
    var ms' := ms[x := m];
    forall r <- responses
      ensures exists y :: Owned(ms', y, r)
    {
      var y :| Owned(ms, y, r);
      AnswererStays(ms, x, m, y, r.session);
      assert Owned(ms', y, r);
    }
  }

  lemma OldMatch(ms: Managers, x: PeerID, m: Manager, z: PeerID, y: PeerID, j: Index)
    requires x in ms && NodeOk(x, ms[x]) && Stay(ms[x].store, m.store) && Matched(ms, z, y, j)
    ensures Matched(ms[x := m], z, y, j)
  {
    AnswererStays(ms, x, m, y, j);
    CallerStays(ms, x, m, z, j);
  }

  lemma NewMatch(ms: Managers, x: PeerID, m: Manager, y: PeerID, j: Index)
    requires x in ms && Caller(ms[x := m], x, j) && y != x && AnsweredBy(ms, y, j, m.store[j])
    ensures Matched(ms[x := m], x, y, j)
  {
  }

  lemma CallersStay(ms: Managers, x: PeerID, m: Manager)
    requires x in ms && NodeOk(x, ms[x]) && Stay(ms[x].store, m.store)
    requires NewCallers(ms, x, m.store) && CallersMatched(ms)
    ensures CallersMatched(ms[x := m])
  {
    var ms' := ms[x := m];
    forall z, j | Caller(ms', z, j)
      ensures exists y :: Matched(ms', z, y, j)
    {
      if Caller(ms, z, j) {
        var y :| Matched(ms, z, y, j);
        OldMatch(ms, x, m, z, y, j);
      } else {
        assert z == x;
        var y :| y != x && AnsweredBy(ms, y, j, m.store[j]);
        NewMatch(ms, x, m, y, j);
      }
    }
  }

  lemma AnswerersStay(ms: Managers, x: PeerID, m: Manager)
    requires x in ms && NodeOk(x, ms[x]) && Stay(ms[x].store, m.store)
    requires NewConnected(ms, x, m.store) && AnswerersMatched(ms)
    ensures AnswerersMatched(ms[x := m])
  {
    var ms' := ms[x := m];
    forall y, j | Answerer(ms', y, j) && ms'[y].store[j].stage == 3
      ensures exists z :: Matched(ms', z, y, j)
    {
      if y != x {
        assert Answerer(ms, y, j);
      }
      var z :| Matched(ms, z, y, j);
      OldMatch(ms, x, m, z, y, j);
    }
  }

  lemma SentStays(ms: Managers, x: PeerID, m: Manager, data: set<DataMsg>)
    requires x in ms && Stay(ms[x].store, m.store) && AllSent(ms, data)
    ensures AllSent(ms[x := m], data)
  {
    var ms' := ms[x := m];
    forall d <- data
      ensures exists z :: Sender(ms', z, d)
    {
      var z :| Sender(ms, z, d);
      assert Sender(ms', z, d);
    }
  }

  lemma AgreeStays(ms: Managers, responses: set<ResponseMsg>, data: set<DataMsg>, x: PeerID, m: Manager)
    requires SessionsAgree(ms, responses, data) && x in ms && Evolves(ms, x, m)
    ensures SessionsAgree(ms[x := m], responses, data)
  {
    OwnedStays(ms, x, m, responses);
    CallersStay(ms, x, m);
    AnswerersStay(ms, x, m);
    SentStays(ms, x, m, data);
  }

  lemma ResponseMade(ms: Managers, responses: set<ResponseMsg>, y: PeerID, r: ResponseMsg)
    requires AllOwned(ms, responses) && Owned(ms, y, r)
    ensures AllOwned(ms, responses + {r})
  {
  }

  lemma DataMade(ms: Managers, data: set<DataMsg>, x: PeerID, d: DataMsg)
    requires AllSent(ms, data) && Sender(ms, x, d)
    ensures AllSent(ms, data + {d})
  {
  }

  // ---------------------------------------------------------------- a node without sessions

  lemma EnterHolds(ms: Managers, x: PeerID, m: Manager, y: PeerID, j: Index)
    requires x !in ms && m.store == map[]
    ensures Answerer(ms[x := m], y, j) <==> Answerer(ms, y, j)
    ensures Caller(ms[x := m], y, j) <==> Caller(ms, y, j)
    ensures Answerer(ms, y, j) || Caller(ms, y, j) ==> ms[x := m][y] == ms[y]
  {
  }

  lemma EnterPools(ms: Managers, responses: set<ResponseMsg>, data: set<DataMsg>, x: PeerID, m: Manager)
    requires AllOwned(ms, responses) && AllSent(ms, data) && x !in ms && m.store == map[]
    ensures AllOwned(ms[x := m], responses) && AllSent(ms[x := m], data)
  {
    var ms' := ms[x := m];
    forall r <- responses
      ensures exists y :: Owned(ms', y, r)
    {
      var y :| Owned(ms, y, r);
      assert Owned(ms', y, r);
    }
    forall d <- data
      ensures exists y :: Sender(ms', y, d)
    {
      var y :| Sender(ms, y, d);
      assert Sender(ms', y, d);
    }
  }

  lemma EnterCallers(ms: Managers, x: PeerID, m: Manager)
    requires CallersMatched(ms) && x !in ms && m.store == map[]
    ensures CallersMatched(ms[x := m])
  {
    var ms' := ms[x := m];
    forall z, j | Caller(ms', z, j)
      ensures exists y :: Matched(ms', z, y, j)
    {
      EnterHolds(ms, x, m, z, j);
      var y :| Matched(ms, z, y, j);
      EnterHolds(ms, x, m, y, j);
      assert Matched(ms', z, y, j);
    }
  }

  lemma EnterAnswerers(ms: Managers, x: PeerID, m: Manager)
    requires AnswerersMatched(ms) && x !in ms && m.store == map[]
    ensures AnswerersMatched(ms[x := m])
  {
    var ms' := ms[x := m];
    forall y, j | Answerer(ms', y, j) && ms'[y].store[j].stage == 3
      ensures exists z :: Matched(ms', z, y, j)
    {
      EnterHolds(ms, x, m, y, j);
      var z :| Matched(ms, z, y, j);
      EnterHolds(ms, x, m, z, j);
      assert Matched(ms', z, y, j);
    }
  }

  lemma EnterAgrees(ms: Managers, responses: set<ResponseMsg>, data: set<DataMsg>, x: PeerID, m: Manager)
    requires SessionsAgree(ms, responses, data) && x !in ms && x == Self(m) && m.store == map[]
    ensures SessionsAgree(ms[x := m], responses, data)
  {
    EnterPools(ms, responses, data, x, m);
    EnterCallers(ms, x, m);
    EnterAnswerers(ms, x, m);
  }

  // ---------------------------------------------------------------- the operations

  lemma NodePut(x: PeerID, m: Manager, m': Manager, idx: Index, s: Session)
    requires NodeOk(x, m) && m'.me == m.me && m'.store == m.store[idx := s] && SessionOk(m.me, s)
    ensures NodeOk(x, m')
  {
    AllPut(m.me, m.store, idx, s);
  }

  lemma SameEvolves(ms: Managers, x: PeerID, m: Manager)
    requires x in ms && NodeOk(x, ms[x]) && m.me == ms[x].me && m.store == ms[x].store
    ensures Evolves(ms, x, m)
  {
  }

  /** A new session under a free index. */
  lemma AddEvolves(ms: Managers, x: PeerID, m: Manager, idx: Index, s: Session)
    requires x in ms && idx !in ms[x].store && NodeOk(x, m) && m.store == ms[x].store[idx := s] && s.stage != 3
    ensures Evolves(ms, x, m)
  {
  }

  /** One session written. */
  lemma PutEvolves(ms: Managers, x: PeerID, m: Manager, idx: Index, s: Session)
    requires x in ms && NodeOk(x, m) && idx in ms[x].store && m.store == ms[x].store[idx := s]
    requires ms[x].store[idx].stage != 1 && Goes(ms[x].store[idx], s)
    requires s.stage == ms[x].store[idx].stage || (!s.initiator && exists z :: Matched(ms, z, x, idx))
    ensures Evolves(ms, x, m)
  {
    PutStays(ms[x].store, idx, s);
    PutNew(ms, x, idx, s);
  }

  lemma PutStays(st: map<Index, Session>, idx: Index, s: Session)
    requires idx in st && Goes(st[idx], s)
    ensures Stay(st, st[idx := s])
  {
  }

  lemma PutNew(ms: Managers, x: PeerID, idx: Index, s: Session)
    requires x in ms && idx in ms[x].store && s.initiator == ms[x].store[idx].initiator
    requires s.origin == ms[x].store[idx].origin
    requires s.stage == ms[x].store[idx].stage || (!s.initiator && exists z :: Matched(ms, z, x, idx))
    ensures
      var st' := ms[x].store[idx := s];
      NewCallers(ms, x, st') && NewConnected(ms, x, st')
  {
  }

  lemma CallEvolves(ms: Managers, x: PeerID, peer: PeerID, addr: Addr, eph: nat, timestamp: Term, payload: Term,
                    idx: Index)
    requires NodesOk(ms) && x in ms && idx !in ms[x].store
    ensures Evolves(ms, x, CreateHello(ms[x], peer, addr, eph, timestamp, payload, idx).0)
  {
    var m := ms[x];
    var m' := CreateHello(m, peer, addr, eph, timestamp, payload, idx).0;
    CallSession(m, peer, addr, eph, timestamp, payload, idx);
    if idx in m'.store {
      NodePut(x, m, m', idx, m'.store[idx]);
      AddEvolves(ms, x, m', idx, m'.store[idx]);
    } else {
      SameEvolves(ms, x, m');
    }
  }

  lemma HelloEvolves(ms: Managers, x: PeerID, msg: HelloMsg, addr: Addr, eph: nat, payload: Term, idx: Index)
    requires NodesOk(ms) && x in ms && idx !in ms[x].store
    ensures
      var (m', resp) := HandleHello(ms[x], msg, addr, eph, payload, idx);
      && Evolves(ms, x, m')
      && (resp.Good? ==> Owned(ms[x := m'], x, resp.value))
  {
    var m := ms[x];
    var (m', resp) := HandleHello(m, msg, addr, eph, payload, idx);
    HelloSession(m, msg, addr, eph, payload, idx);
    AnswerHelloIs(ResponderRun(m.me, eph, msg.hdr, msg.sealed, payload), msg);
    if resp.Good? {
      NodePut(x, m, m', idx, m'.store[idx]);
      AddEvolves(ms, x, m', idx, m'.store[idx]);
    } else {
      SameEvolves(ms, x, m');
    }
  }

  lemma SealEvolves(ms: Managers, x: PeerID, peer: PeerID, payload: Term, idx: Index)
    requires NodesOk(ms) && x in ms
    ensures
      var (m', made) := CreateData(ms[x], peer, payload, idx);
      && Evolves(ms, x, m')
      && (made.Good? ==> Sender(ms[x := m'], x, made.value.0))
  {
    var m := ms[x];
    var (m', made) := CreateData(m, peer, payload, idx);
    if made.Good? {
      var s := m.store[idx];
      SentOk(m.me, s, payload);
      KeysByStage(m.me, s);
      NodePut(x, m, m', idx, m'.store[idx]);
      PutEvolves(ms, x, m', idx, m'.store[idx]);
    } else {
      SameEvolves(ms, x, m');
    }
  }

  /** A session that answered hears its first data: it comes from a connected session that called. */
  lemma DataEvolves(ms: Managers, x: PeerID, z: PeerID, d: DataMsg)
    requires NodesOk(ms) && CallersMatched(ms) && x in ms && Sender(ms, z, d)
    ensures Evolves(ms, x, HandleData(ms[x], d).0)
  {
    var m := ms[x];
    if d.session in m.store && ConsumeMessage(m.store[d.session].hs, d.nonce, d.sealed).Ok?
      && m.store[d.session].stage != 3 {
      DataStore(m, d);
      HeardCaller(ms, x, z, d);
      var s := m.store[d.session].(stage := 3);
      AnswererConnects(m.me, m.store[d.session]);
      NodePut(x, m, HandleData(m, d).0, d.session, s);
      PutEvolves(ms, x, HandleData(m, d).0, d.session, s);
    } else {
      SameEvolves(ms, x, HandleData(m, d).0);
    }
  }

  lemma HeardCaller(ms: Managers, x: PeerID, z: PeerID, d: DataMsg)
    requires NodesOk(ms) && CallersMatched(ms) && x in ms && Sender(ms, z, d) && d.session in ms[x].store
    requires ConsumeMessage(ms[x].store[d.session].hs, d.nonce, d.sealed).Ok? && ms[x].store[d.session].stage != 3
    ensures Answerer(ms, x, d.session) && Matched(ms, z, x, d.session)
  {
    var j := d.session;
    SameKeyPeers(ms[z].me, ms[z].store[j], ms[x].me, ms[x].store[j]);
    KeysByStage(ms[x].me, ms[x].store[j]);
    StagesOf(z, ms[z], j);
    assert Caller(ms, z, j);
    var y :| Matched(ms, z, y, j);
    MatchedPaired(ms, z, y, j);
  }

  /** Two sessions of which the one opens what the other seals: they have different roles and name each other. */
  lemma SameKeyPeers(a: nat, s: Session, b: nat, t: Session)
    requires SessionOk(a, s) && s.stage != 1 && SessionOk(b, t) && t.hs.receive.Some? && t.hs.receive == s.hs.send
    ensures t.stage != 1 && s.initiator != t.initiator && s.peer == PeerID(Point(b)) && t.peer == PeerID(Point(a))
  {
    KeysByStage(a, s);
    KeysByStage(b, t);
    HkdfInjective(s.hs.chainKey, NOTHING, t.hs.chainKey, NOTHING,
                  if s.initiator then 1 else 2, if t.initiator then 2 else 1);
    if s.initiator {
      SameChainNamesPeers(a, s, b, t);
    } else {
      SameChainNamesPeers(b, t, a, s);
    }
  }

  lemma AnswererConnects(me: nat, s: Session)
    requires SessionOk(me, s) && !s.initiator
    ensures SessionOk(me, s.(stage := 3))
  {
  }

  // ---------------------------------------------------------------- responses

  /** A connected caller and the answerer whose response it accepted: peers of each other, with mirrored keys. */
  lemma AgreedPeers(a: nat, s: Session, b: nat, t: Session)
    requires SessionOk(a, s) && s.initiator && s.stage == 3 && SessionOk(b, t) && !t.initiator
    requires s.origin.Called? && Responded(t, s.origin.i.resp, s.origin.i.respSealed)
    ensures s.peer == PeerID(Point(b)) && t.peer == PeerID(Point(a)) && Mirrored(s.hs, t.hs)
  {
    TranscriptAgreement(s.origin.i, t.origin.r);
  }

  lemma MatchedPaired(ms: Managers, x: PeerID, y: PeerID, j: Index)
    requires NodesOk(ms) && Matched(ms, x, y, j)
    ensures ms[x].store[j].peer == y && ms[y].store[j].peer == x
    ensures Paired(ms[x], ms[y], j) && Paired(ms[y], ms[x], j)
  {
    AgreedPeers(ms[x].me, ms[x].store[j], ms[y].me, ms[y].store[j]);
  }

  /** The landing of an accepted response: the index it names is free, or holds a session that is still waiting, the
      accepting one for instance.  A node can tell. */
  predicate LandsFree(m: Manager, msg: ResponseMsg) {
    msg.session in m.store ==> m.store[msg.session].stage == 1
  }

  lemma AcceptEvolves(ms: Managers, x: PeerID, y: PeerID, msg: ResponseMsg, s: Session, m: Manager)
    requires x in ms && NodeOk(x, ms[x]) && NodeOk(x, m) && LandsFree(ms[x], msg) && Owned(ms, y, msg)
    requires msg.sender in ms[x].store && ms[x].store[msg.sender].stage == 1
    requires m.store == Swapped(ms[x].store[msg.sender := s], msg.sender, msg.session)
    requires s.initiator && s.stage == 3 && AnsweredBy(ms, y, msg.session, s)
    ensures Evolves(ms, x, m)
  {
    StagesOf(x, ms[x], msg.session);
    SwapStays(ms[x].store, msg.sender, msg.session, s);
    SwapNew(ms, x, y, msg.sender, msg.session, s);
  }

  lemma SwapStays(st: map<Index, Session>, from: Index, to: Index, s: Session)
    requires from in st && st[from].stage == 1 && (to in st ==> st[to].stage == 1)
    ensures Stay(st, Swapped(st[from := s], from, to))
  {
  }

  lemma SwapNew(ms: Managers, x: PeerID, y: PeerID, from: Index, to: Index, s: Session)
    requires x in ms && from in ms[x].store && s.initiator && s.stage == 3 && y != x && AnsweredBy(ms, y, to, s)
    ensures
      var st' := Swapped(ms[x].store[from := s], from, to);
      NewCallers(ms, x, st') && NewConnected(ms, x, st')
  {
  }

  lemma NodeMove(x: PeerID, m: Manager, m': Manager, from: Index, to: Index, s: Session)
    requires NodeOk(x, m) && from in m.store && m'.me == m.me
    requires m'.store == Swapped(m.store[from := s], from, to)
    requires SessionOk(m.me, s)
    ensures NodeOk(x, m')
  {
    AllPut(m.me, m.store, from, s);
    AllMove(m.me, m.store[from := s], from, to);
  }

  /** The session that a response makes of a waiting one. */
  lemma AcceptedIs(me: nat, s: Session, msg: ResponseMsg, addr: Addr)
    requires SessionOk(me, s)
    ensures
      var (s', r) := AcceptResponse(s, msg, addr);
      && (r.Bad? ==> s' == s)
      && (r.Good? ==>
            && s.initiator && s.stage == 1
            && SessionOk(me, s') && s'.initiator && s'.stage == 3 && s'.peer == s.peer && s'.origin.Called?
            && s'.origin.i.resp == msg.hdr && s'.origin.i.respSealed == msg.sealed)
  {
    AcceptOk(me, s, msg, addr);
  }

  lemma AcceptedEvolves(ms: Managers, y: PeerID, x: PeerID, msg: ResponseMsg, addr: Addr)
    requires NodesOk(ms) && x in ms && Owned(ms, y, msg) && LandsFree(ms[x], msg)
    requires HandleResponse(ms[x], msg, addr).1.Good?
    ensures Evolves(ms, x, HandleResponse(ms[x], msg, addr).0)
  {
    var m, m' := ms[x], HandleResponse(ms[x], msg, addr).0;
    var s' := AcceptResponse(m.store[msg.sender], msg, addr).0;
    ResponseStore(m, msg, addr);
    AcceptedIs(m.me, m.store[msg.sender], msg, addr);
    NodeMove(x, m, m', msg.sender, msg.session, s');
    AcceptEvolves(ms, x, y, msg, s', m');
  }

  lemma ResponseEvolves(ms: Managers, y: PeerID, x: PeerID, msg: ResponseMsg, addr: Addr)
    requires NodesOk(ms) && x in ms && Owned(ms, y, msg)
    requires HandleResponse(ms[x], msg, addr).1.Good? ==> LandsFree(ms[x], msg)
    ensures Evolves(ms, x, HandleResponse(ms[x], msg, addr).0)
  {
    var m := ms[x];
    if HandleResponse(m, msg, addr).1.Good? {
      AcceptedEvolves(ms, y, x, msg, addr);
    } else {
      if msg.sender in m.store {
        ResponseStore(m, msg, addr);
        AcceptedIs(m.me, m.store[msg.sender], msg, addr);
      }
      SameEvolves(ms, x, HandleResponse(m, msg, addr).0);
    }
  }

  // ---------------------------------------------------------------- landings

  /** Which landings break a pair: on a session paired with `v`, exactly those of a response that `v` did not make. */
  lemma LandingBreaksIff(ms: Managers, x: PeerID, y: PeerID, v: PeerID, msg: ResponseMsg, addr: Addr)
    requires NodesOk(ms) && x in ms && v in ms && v != x && Owned(ms, y, msg) && msg.session != msg.sender
    requires Paired(ms[v], ms[x], msg.session) && HandleResponse(ms[x], msg, addr).1.Good?
    ensures Paired(ms[v], HandleResponse(ms[x], msg, addr).0, msg.session) <==> v == y
  {
    var m, m', j := ms[x], HandleResponse(ms[x], msg, addr).0, msg.session;
    var s' := AcceptResponse(m.store[msg.sender], msg, addr).0;
    ResponseStore(m, msg, addr);
    AcceptedIs(m.me, m.store[msg.sender], msg, addr);
    AgreedPeers(m.me, s', ms[y].me, ms[y].store[j]);
    assert m'.store[j] == s' && s'.peer == y;
  }

  /** A node that accepts its own answer to its own call lands on it, and is left with a connected session that has no
      other end. */
  lemma SelfLanding(ms: Managers, x: PeerID, msg: ResponseMsg, addr: Addr)
    requires NodesOk(ms) && x in ms && Owned(ms, x, msg) && HandleResponse(ms[x], msg, addr).1.Good?
    ensures
      var m := HandleResponse(ms[x], msg, addr).0;
      && !LandsFree(ms[x], msg)
      && msg.session in m.store && m.store[msg.session].stage == 3 && m.store[msg.session].peer == x
      && !Paired(m, m, msg.session)
  {
    var m, j := ms[x], msg.session;
    var s' := AcceptResponse(m.store[msg.sender], msg, addr).0;
    StagesOf(x, m, j);
    ResponseStore(m, msg, addr);
    AcceptedIs(m.me, m.store[msg.sender], msg, addr);
    AgreedPeers(m.me, s', m.me, m.store[j]);
    KeysByStage(m.me, s');
    HkdfInjective(s'.hs.chainKey, NOTHING, s'.hs.chainKey, NOTHING, 1, 2);
  }

  // ---------------------------------------------------------------- what it comes to

  lemma CallerPaired(ms: Managers, x: PeerID, j: Index) returns (y: PeerID)
    requires NodesOk(ms) && CallersMatched(ms) && Caller(ms, x, j)
    ensures Answerer(ms, y, j) && ms[x].store[j].peer == y && ms[y].store[j].peer == x
    ensures Paired(ms[x], ms[y], j) && Paired(ms[y], ms[x], j)
  {
    y :| Matched(ms, x, y, j);
    MatchedPaired(ms, x, y, j);
  }

  /** Every connected session has its other end under the same index at the node it names. */
  lemma ConnectedPaired(ms: Managers, x: PeerID, j: Index) returns (y: PeerID)
    requires NodesOk(ms) && CallersMatched(ms) && AnswerersMatched(ms)
    requires x in ms && j in ms[x].store && ms[x].store[j].stage == 3
    ensures y in ms && ms[x].store[j].peer == y && Paired(ms[x], ms[y], j) && Paired(ms[y], ms[x], j)
  {
    if Caller(ms, x, j) {
      y := CallerPaired(ms, x, j);
    } else {
      assert Answerer(ms, x, j);
      y :| Matched(ms, y, x, j);
      MatchedPaired(ms, y, x, j);
    }
  }

  /** Two nodes' sessions under one index of which one opens what the other seals are a pair. */
  lemma SameKeyPaired(ms: Managers, x: PeerID, y: PeerID, j: Index)
    requires NodesOk(ms) && CallersMatched(ms) && x in ms && y in ms && j in ms[x].store && j in ms[y].store
    requires ms[x].store[j].stage != 1
    requires ms[y].store[j].hs.receive.Some? && ms[y].store[j].hs.receive == ms[x].store[j].hs.send
    ensures ms[x].store[j].peer == y && ms[y].store[j].peer == x && Paired(ms[x], ms[y], j)
  {
    SameKeyPeers(ms[x].me, ms[x].store[j], ms[y].me, ms[y].store[j]);
    StagesOf(x, ms[x], j);
    StagesOf(y, ms[y], j);
    if ms[x].store[j].initiator {
      assert Caller(ms, x, j);
      var z := CallerPaired(ms, x, j);
    } else {
      assert Caller(ms, y, j);
      var z := CallerPaired(ms, y, j);
    }
  }

  lemma OpensIffSameKey(x: Hs, y: Hs, payload: Term)
    requires x.send.Some?
    ensures
      var m := MakeMessage(x, payload).1;
      m.Ok? && (ConsumeMessage(y, m.value.0, m.value.1).Ok? <==> y.receive == x.send)
  {
  }

  lemma DataOpensIff(a: Manager, b: Manager, j: Index, payload: Term)
    requires j in a.store && a.store[j].hs.send.Some?
    ensures
      var made := CreateData(a, a.store[j].peer, payload, j).1;
      && made.Good?
      && (HandleData(b, made.value.0).1.Good? <==> j in b.store && b.store[j].hs.receive == a.store[j].hs.send)
  {
    if j in b.store {
      OpensIffSameKey(a.store[j].hs, b.store[j].hs, payload);
    }
  }

  /** The exact condition on the session that Find returns: its data opens at the node it names if and only if that
      node holds the other end of it. */
  lemma OpensIffPaired(ms: Managers, x: PeerID, j: Index, payload: Term)
    requires NodesOk(ms) && CallersMatched(ms)
    requires x in ms && j in ms[x].store && ms[x].store[j].stage != 1 && ms[x].store[j].peer in ms
    ensures
      var y := ms[x].store[j].peer;
      var made := CreateData(ms[x], y, payload, j).1;
      made.Good? && (HandleData(ms[y], made.value.0).1.Good? <==> Paired(ms[x], ms[y], j))
  {
    var y := ms[x].store[j].peer;
    KeysByStage(ms[x].me, ms[x].store[j]);
    DataOpensIff(ms[x], ms[y], j, payload);
    if j in ms[y].store && ms[y].store[j].hs.receive == ms[x].store[j].hs.send {
      SameKeyPaired(ms, x, y, j);
    }
  }
}
