/** The routing table: known routes per peer, oldest first. */
module Routing {
  import opened Bytes
  import opened Crypto

  type Table = map<PeerID, seq<seq<byte>>>

  function Added(t: Table, p: PeerID, route: seq<byte>): Table {
    if p !in t then t[p := [route]] else if route in t[p] then t else t[p := t[p] + [route]]
  }

  function AddedAll(t: Table, adds: seq<(PeerID, seq<byte>)>): Table
    decreases |adds|
  {
    if adds == [] then t else AddedAll(Added(t, adds[0].0, adds[0].1), adds[1..])
  }

  function GetRoute(t: Table, p: PeerID): Option<seq<byte>> {
    if p in t && t[p] != [] then Some(t[p][0]) else None
  }

  /** The first route of `adds` for `p`. */
  function FirstFor(adds: seq<(PeerID, seq<byte>)>, p: PeerID): Option<seq<byte>> {
    if adds == [] then None else if adds[0].0 == p then Some(adds[0].1) else FirstFor(adds[1..], p)
  }

  ghost predicate NoRepeats(t: Table) {
    forall p <- t :: forall i, j :: 0 <= i < j < |t[p]| ==> t[p][i] != t[p][j]
  }

  lemma AddedKeeps(t: Table, p: PeerID, route: seq<byte>)
    requires NoRepeats(t)
    ensures NoRepeats(Added(t, p, route))
    ensures forall q <- t :: q in Added(t, p, route) && t[q] <= Added(t, p, route)[q]
  {
  }

  /** Whatever is added in whatever order, GetRoute answers with the first route ever added for the peer. */
  lemma {:induction false} FirstRouteStays(t: Table, adds: seq<(PeerID, seq<byte>)>, p: PeerID)
    requires forall q <- t :: t[q] != []
    ensures GetRoute(AddedAll(t, adds), p) == if p in t then Some(t[p][0]) else FirstFor(adds, p)
    decreases |adds|
  {
    if adds != [] {
      FirstRouteStays(Added(t, adds[0].0, adds[0].1), adds[1..], p);
    }
  }

  // ---------------------------------------------------------------- addresses

  /** A route that is already listed leaves the addresses alone; otherwise the peer's address is its own. */
  function Named(t: Table, names: map<Address, PeerID>, ip: PeerID -> Address, p: PeerID,
                 route: seq<byte>): map<Address, PeerID> {
    if p in t && route in t[p] then names else names[ip(p) := p]
  }

  function NamedAll(t: Table, names: map<Address, PeerID>, ip: PeerID -> Address,
                    adds: seq<(PeerID, seq<byte>)>): map<Address, PeerID>
    decreases |adds|
  {
    if adds == [] then names else
      NamedAll(Added(t, adds[0].0, adds[0].1), Named(t, names, ip, adds[0].0, adds[0].1), ip, adds[1..])
  }

  /** Every peer's address is known, and leads to a peer of the table with that address. */
  ghost predicate Resolves(t: Table, names: map<Address, PeerID>, ip: PeerID -> Address) {
    && (forall p <- t :: ip(p) in names)
    && (forall a <- names :: names[a] in t && ip(names[a]) == a)
  }

  lemma {:induction false} ResolvesOverRuns(t: Table, names: map<Address, PeerID>, ip: PeerID -> Address,
                                            adds: seq<(PeerID, seq<byte>)>)
    requires Resolves(t, names, ip)
    ensures Resolves(AddedAll(t, adds), NamedAll(t, names, ip, adds), ip)
    decreases |adds|
  {
    if adds != [] {
      ResolvesOverRuns(Added(t, adds[0].0, adds[0].1), Named(t, names, ip, adds[0].0, adds[0].1), ip, adds[1..]);
    }
  }

  /** After any additions LookupIPv6 of a listed peer's address gives that peer, unless another has the same address. */
  lemma LookupFinds(ip: PeerID -> Address, adds: seq<(PeerID, seq<byte>)>, p: PeerID)
    requires p in AddedAll(map[], adds)
    requires forall q <- AddedAll(map[], adds) :: ip(q) == ip(p) ==> q == p
    ensures
      var names := NamedAll(map[], map[], ip, adds);
      ip(p) in names && names[ip(p)] == p
  {
    ResolvesOverRuns(map[], map[], ip, adds);
  }

  /** Addition `k` brings a route that none before it brought. */
  predicate IsNew(adds: seq<(PeerID, seq<byte>)>, k: nat)
    requires k < |adds|
  {
    adds[k] !in adds[..k]
  }

  lemma {:induction false} AllAppend(t: Table, names: map<Address, PeerID>, ip: PeerID -> Address,
                                     adds: seq<(PeerID, seq<byte>)>, p: PeerID, route: seq<byte>)
    ensures AddedAll(t, adds + [(p, route)]) == Added(AddedAll(t, adds), p, route)
    ensures NamedAll(t, names, ip, adds + [(p, route)])
         == Named(AddedAll(t, adds), NamedAll(t, names, ip, adds), ip, p, route)
    decreases |adds|
  {
    if adds == [] {
      assert adds + [(p, route)] == [(p, route)] && [(p, route)][1..] == [];
    } else {
      assert (adds + [(p, route)])[1..] == adds[1..] + [(p, route)];
      AllAppend(Added(t, adds[0].0, adds[0].1), Named(t, names, ip, adds[0].0, adds[0].1), ip, adds[1..], p, route);
    }
  }

  /** The table lists what was added and nothing else. */
  lemma {:induction false} ListedIff(adds: seq<(PeerID, seq<byte>)>, p: PeerID, route: seq<byte>)
    ensures
      var t := AddedAll(map[], adds);
      p in t && route in t[p] <==> (p, route) in adds
  {
    if adds != [] {
      var front := adds[..|adds| - 1];
      var (q, r) := adds[|adds| - 1];
      assert adds == front + [(q, r)];
      ListedIff(front, p, route);
      AllAppend(map[], map[], _ => Zeros(16), front, q, r);
    }
  }

  /** After any additions an address leads to the peer of the last new route for it: a second peer with the same address
      takes it over, and loses it to the next new route of the first. */
  lemma {:induction false} LatestTakesAddress(ip: PeerID -> Address, adds: seq<(PeerID, seq<byte>)>, k: nat)
    requires k < |adds| && IsNew(adds, k)
    requires forall l :: k < l < |adds| && IsNew(adds, l) ==> ip(adds[l].0) != ip(adds[k].0)
    ensures
      var names := NamedAll(map[], map[], ip, adds);
      ip(adds[k].0) in names && names[ip(adds[k].0)] == adds[k].0
    decreases |adds|
  {
    var n := |adds| - 1;
    var front := adds[..n];
    var (q, r) := adds[n];
    assert adds == front + [(q, r)];
    AllAppend(map[], map[], ip, front, q, r);
    ListedIff(front, q, r);
    if k < n {
      assert front[..k] == adds[..k];
      forall l | k < l < n && IsNew(front, l)
        ensures ip(front[l].0) != ip(front[k].0)
      {
        assert front[..l] == adds[..l];
      }
      LatestTakesAddress(ip, front, k);
      assert IsNew(adds, n) ==> ip(q) != ip(adds[k].0);
    }
  }

  class Routing {
    var table: Table
    var ipv6: map<Address, PeerID>

    constructor ()
      ensures table == map[] && ipv6 == map[]
    {
      table, ipv6 := map[], map[];
    }

    method AddRoute(ip: PeerID -> Address, p: PeerID, route: seq<byte>)
      modifies this
      ensures table == Added(old(table), p, route)
      ensures ipv6 == Named(old(table), old(ipv6), ip, p, route)
    {
      if p in table {
        var routes := table[p];
        var i := 0;
        while i < |routes|
          invariant 0 <= i <= |routes|
          invariant forall j :: 0 <= j < i ==> routes[j] != route
        {
          if routes[i] == route {
            return;
          }
          i := i + 1;
        }
        table := table[p := routes + [route]];
      } else {
        table := table[p := [route]];
      }
      ipv6 := ipv6[ip(p) := p];
    }
  }
}
