/** The same registries with connecting, disconnecting and every handler as one step each: the
    index of a user's clients agrees with a scan of all of them, and routes and inspect buffers
    agree with the clients' own tunnel maps (internal/server/client_manager.go). */
module Sessions {
  import opened Registry
  import opened RegistryIndex
  import opened Wrappers

  datatype Session = Session(user: int, tunnels: map<Id, Tunnel>)

  datatype Server = Server(
    nextId: Id,
    sessions: map<Id, Session>,         // ClientManager.clients
    index: map<int, seq<Id>>,           // ClientManager.userClients
    router: map<Subdomain, Id>,         // HTTPRouter.tunnels
    buffers: map<Id, int>)              // inspect.Manager: the tunnel's buffer and its user

  const NO_SESSIONS := Server(0, map[], map[], map[], map[])

  datatype Call =
    | Connect(user: int)
    | OpenHttp(c: Id, sub: Subdomain)
    | OpenSocket(c: Id, port: Port)
    | CloseTunnel(c: Id, tid: Id)
    | Disconnect(c: Id)

  predicate Possible(s: Server, call: Call) {
    match call
    case Connect(_) => true
    case OpenHttp(c, _) => c in s.sessions
    case OpenSocket(c, _) => c in s.sessions
    case CloseTunnel(c, _) => c in s.sessions
    case Disconnect(_) => true
  }

  // ------------------------------------------------------------------------- calls

  function Connected(s: Server, user: int): Server {
    s.(nextId := s.nextId + 1,
       sessions := s.sessions[s.nextId := Session(user, map[])],
       index := LinkIn(s.index, user, s.nextId))
  }

  function WithTunnel(s: Server, c: Id, tunnel: Tunnel): Server
    requires c in s.sessions
  {
    var k := s.sessions[c];
    s.(nextId := s.nextId + 1, sessions := s.sessions[c := k.(tunnels := k.tunnels[s.nextId := tunnel])])
  }

  /** createHTTPTunnel; a taken subdomain only uses up a number. */
  function OpenedHttp(inspect: bool, s: Server, c: Id, sub: Subdomain): Server
    requires c in s.sessions
  {
    if sub in s.router then s.(nextId := s.nextId + 1)
    else
      WithTunnel(s, c, Http(sub)).(
        router := s.router[sub := s.nextId],
        buffers := if inspect then s.buffers[s.nextId := s.sessions[c].user] else s.buffers)
  }

  function Subs(tunnels: map<Id, Tunnel>): set<Subdomain> {
    set tid | tid in tunnels && tunnels[tid].Http? :: tunnels[tid].sub
  }

  function HttpIds(tunnels: map<Id, Tunnel>): set<Id> {
    set tid | tid in tunnels && tunnels[tid].Http?
  }

  /** The subdomain of a tunnel, if it has one. */
  function SubOf(tunnel: Tunnel): set<Subdomain> {
    if tunnel.Http? then {tunnel.sub} else {}
  }

  lemma SubsGrow(tunnels: map<Id, Tunnel>, tid: Id, tunnel: Tunnel)
    requires tid !in tunnels
    ensures Subs(tunnels[tid := tunnel]) == Subs(tunnels) + SubOf(tunnel)
    ensures HttpIds(tunnels[tid := tunnel]) == HttpIds(tunnels) + (if tunnel.Http? then {tid} else {})
  {
    var more := tunnels[tid := tunnel];
    forall sub ensures sub in Subs(more) <==> sub in Subs(tunnels) + SubOf(tunnel) {
      if sub in Subs(tunnels) {
        var t :| t in tunnels && tunnels[t].Http? && tunnels[t].sub == sub;
        assert t in more && more[t] == tunnels[t];
      }
      assert tid in more;
    }
  }

  lemma MinusBoth<K, V>(m: map<K, V>, a: set<K>, b: set<K>)
    ensures m - a - b == m - (a + b)
  {
  }

  /** Give up the routes and buffers of these tunnels of client c. */
  function Dropped(s: Server, tunnels: map<Id, Tunnel>): Server {
    s.(router := s.router - Subs(tunnels), buffers := s.buffers - HttpIds(tunnels))
  }

  function Only(tunnels: map<Id, Tunnel>, tid: Id): map<Id, Tunnel> {
    if tid in tunnels then map[tid := tunnels[tid]] else map[]
  }

  function ClosedTunnel(s: Server, c: Id, tid: Id): Server
    requires c in s.sessions
  {
    var k := s.sessions[c];
    Dropped(s, Only(k.tunnels, tid)).(sessions := s.sessions[c := k.(tunnels := k.tunnels - {tid})])
  }

  lemma ClosingOne(s: Server, c: Id, tid: Id)
    requires c in s.sessions
    ensures var k := s.sessions[c];
            ClosedTunnel(s, c, tid) ==
              if tid !in k.tunnels then s
              else s.(router := s.router - SubOf(k.tunnels[tid]),
                      buffers := s.buffers - (if k.tunnels[tid].Http? then {tid} else {}),
                      sessions := s.sessions[c := k.(tunnels := k.tunnels - {tid})])
  {
    var k := s.sessions[c];
    assert Subs(map[]) == {} && HttpIds(map[]) == {};
    if tid in k.tunnels {
      SubsGrow(map[], tid, k.tunnels[tid]);
      assert map[][tid := k.tunnels[tid]] == Only(k.tunnels, tid);
    } else {
      assert k.tunnels - {tid} == k.tunnels;
    }
  }

  /** Client.Close; closing again does nothing. */
  function Disconnected(s: Server, c: Id): Server {
    if c !in s.sessions then s
    else
      Dropped(s, s.sessions[c].tunnels).(
        sessions := s.sessions - {c},
        index := UnlinkFrom(s.index, s.sessions[c].user, c))
  }

  function After(inspect: bool, s: Server, call: Call): Server
    requires Possible(s, call)
  {
    match call
    case Connect(user) => Connected(s, user)
    case OpenHttp(c, sub) => OpenedHttp(inspect, s, c, sub)
    case OpenSocket(c, port) => WithTunnel(s, c, Socket(port))
    case CloseTunnel(c, tid) => ClosedTunnel(s, c, tid)
    case Disconnect(c) => Disconnected(s, c)
  }

  predicate AllPossible(inspect: bool, s: Server, calls: seq<Call>)
    decreases calls
  {
    calls == [] || (Possible(s, calls[0]) && AllPossible(inspect, After(inspect, s, calls[0]), calls[1..]))
  }

  function AfterAll(inspect: bool, s: Server, calls: seq<Call>): Server
    requires AllPossible(inspect, s, calls)
    decreases calls
  {
    if calls == [] then s else AfterAll(inspect, After(inspect, s, calls[0]), calls[1..])
  }

  // --------------------------------------------------------------------- invariant

  /** The list of a user: every connected client of the user, once. */
  ghost predicate ListOk(s: Server, user: int) {
    && Distinct(Listed(s.index, user))
    && forall c: Id :: c in Listed(s.index, user) <==> user != 0 && c in s.sessions && s.sessions[c].user == user
  }

  ghost predicate IndexOk(s: Server) {
    && (forall user: int :: ListOk(s, user))
    && (forall user :: user in s.index ==> s.index[user] != [])
  }

  predicate Owns(s: Server, c: Id, tid: Id) {
    c in s.sessions && tid in s.sessions[c].tunnels
  }

  ghost predicate TunnelsOk(s: Server) {
    && (forall c: Id :: c in s.sessions ==> c < s.nextId)
    && (forall c: Id, tid: Id :: Owns(s, c, tid) ==> tid < s.nextId)
    && (forall c: Id, d: Id, tid: Id :: Owns(s, c, tid) && Owns(s, d, tid) ==> c == d)
  }

  predicate Serves(s: Server, c: Id, tid: Id, sub: Subdomain) {
    Owns(s, c, tid) && s.sessions[c].tunnels[tid] == Http(sub)
  }

  /** A route leads to a tunnel of that name of a connected client, and each such tunnel has it. */
  ghost predicate RouterOk(s: Server) {
    && (forall sub: Subdomain :: sub in s.router ==> exists c: Id :: Serves(s, c, s.router[sub], sub))
    && (forall c: Id, tid: Id, sub: Subdomain :: Serves(s, c, tid, sub) ==> At(s.router, sub) == Some(tid))
  }

  predicate OwnsHttp(s: Server, c: Id, tid: Id) {
    Owns(s, c, tid) && s.sessions[c].tunnels[tid].Http?
  }

  ghost predicate BuffersOk(inspect: bool, s: Server) {
    && (forall tid :: tid in s.buffers ==> inspect && exists c: Id :: OwnsHttp(s, c, tid))
    && (inspect ==> forall c: Id, tid: Id :: OwnsHttp(s, c, tid) ==> At(s.buffers, tid) == Some(s.sessions[c].user))
  }

  ghost predicate Agrees(inspect: bool, s: Server) {
    IndexOk(s) && TunnelsOk(s) && RouterOk(s) && BuffersOk(inspect, s)
  }

  // ----------------------------------------------------------------- index is kept

  lemma ConnectKeepsIndex(s: Server, user: int)
    requires IndexOk(s) && TunnelsOk(s)
    ensures IndexOk(Connected(s, user))
  {
    var t := Connected(s, user);
    forall u: int ensures ListOk(t, u) {
      assert ListOk(s, u);
      assert s.nextId !in Listed(s.index, u);
    }
  }

  lemma DisconnectKeepsIndex(s: Server, c: Id)
    requires IndexOk(s)
    ensures IndexOk(Disconnected(s, c))
  {
    if c in s.sessions {
      var t := Disconnected(s, c);
      var user := s.sessions[c].user;
      assert ListOk(s, user);
      WithoutIsExact(Listed(s.index, user), c);
      forall u: int ensures ListOk(t, u) {
        assert ListOk(s, u);
      }
    }
  }

  /** A call that leaves the clients and their users alone leaves the index right. */
  lemma SameUsersKeepIndex(s: Server, t: Server)
    requires IndexOk(s) && t.index == s.index && t.sessions.Keys == s.sessions.Keys
    requires forall c :: c in s.sessions ==> t.sessions[c].user == s.sessions[c].user
    ensures IndexOk(t)
  {
    forall u: int ensures ListOk(t, u) {
      assert ListOk(s, u);
    }
  }

  // --------------------------------------------- tunnels, routes and buffers are kept

  predicate IsHttp(tunnels: map<Id, Tunnel>, tid: Id) {
    tid in tunnels && tunnels[tid].Http?
  }

  predicate Names(tunnels: map<Id, Tunnel>, tid: Id, sub: Subdomain) {
    tid in tunnels && tunnels[tid] == Http(sub)
  }

  /** t is s after client c got the tunnels `got`: none, or one with the next number. */
  ghost predicate Gained(inspect: bool, s: Server, t: Server, c: Id, got: map<Id, Tunnel>) {
    && got.Keys <= {s.nextId} && t.nextId == s.nextId + 1
    && (forall d: Id :: d in s.sessions ==> d in t.sessions && t.sessions[d].user == s.sessions[d].user)
    && (forall d: Id :: d in t.sessions ==> d in s.sessions || d == s.nextId)
    && (forall d: Id, tid: Id :: Owns(t, d, tid) <==> Owns(s, d, tid) || (d == c && tid in got))
    && (forall d: Id, tid: Id :: Owns(s, d, tid) ==> t.sessions[d].tunnels[tid] == s.sessions[d].tunnels[tid])
    && (forall tid :: tid in got ==> Owns(t, c, tid) && t.sessions[c].tunnels[tid] == got[tid])
    && (forall sub: Subdomain :: At(t.router, sub) ==
          if Names(got, s.nextId, sub) then Some(s.nextId) else At(s.router, sub))
    && (forall sub: Subdomain :: Names(got, s.nextId, sub) ==> sub !in s.router)
    && (forall tid: Id :: At(t.buffers, tid) ==
          if inspect && IsHttp(got, tid) && c in t.sessions then Some(t.sessions[c].user) else At(s.buffers, tid))
  }

  lemma RefusedOpeningGains(inspect: bool, s: Server, c: Id, sub: Subdomain)
    requires c in s.sessions && sub in s.router
    ensures Gained(inspect, s, OpenedHttp(inspect, s, c, sub), c, map[])
  {
  }

  lemma OpeningGains(inspect: bool, s: Server, c: Id, sub: Subdomain)
    requires c in s.sessions && TunnelsOk(s) && sub !in s.router
    ensures Gained(inspect, s, OpenedHttp(inspect, s, c, sub), c, map[s.nextId := Http(sub)])
  {
    assert !Owns(s, c, s.nextId);
  }

  lemma OpeningSocketGains(inspect: bool, s: Server, c: Id, port: Port)
    requires c in s.sessions && TunnelsOk(s)
    ensures Gained(inspect, s, WithTunnel(s, c, Socket(port)), c, map[s.nextId := Socket(port)])
  {
    assert !Owns(s, c, s.nextId);
  }

  lemma ConnectingGains(inspect: bool, s: Server, user: int)
    requires TunnelsOk(s)
    ensures Gained(inspect, s, Connected(s, user), s.nextId, map[])
  {
  }

  lemma GainingKeepsRouter(inspect: bool, s: Server, t: Server, c: Id, got: map<Id, Tunnel>)
    requires TunnelsOk(s) && RouterOk(s) && Gained(inspect, s, t, c, got)
    ensures TunnelsOk(t) && RouterOk(t)
  {
    forall sub | sub in t.router ensures exists d: Id :: Serves(t, d, t.router[sub], sub) {
      if Names(got, s.nextId, sub) {
        assert Serves(t, c, s.nextId, sub);
      } else {
        assert At(t.router, sub) == At(s.router, sub);
        var d: Id :| Serves(s, d, s.router[sub], sub);
        assert Owns(t, d, s.router[sub]);
        assert Serves(t, d, t.router[sub], sub);
      }
    }
    forall d: Id, tid: Id, sub: Subdomain | Serves(t, d, tid, sub) ensures At(t.router, sub) == Some(tid) {
      if Owns(s, d, tid) {
        assert Serves(s, d, tid, sub);
      } else {
        assert Names(got, s.nextId, sub);
      }
    }
  }

  lemma GainingKeepsBufferOwners(inspect: bool, s: Server, t: Server, c: Id, got: map<Id, Tunnel>, tid: Id)
    requires TunnelsOk(s) && BuffersOk(inspect, s) && Gained(inspect, s, t, c, got) && tid in t.buffers
    ensures inspect && exists d: Id :: OwnsHttp(t, d, tid)
  {
    if IsHttp(got, tid) && inspect {
      assert OwnsHttp(t, c, tid);
    } else {
      assert At(t.buffers, tid) == At(s.buffers, tid);
      var d: Id :| OwnsHttp(s, d, tid);
      assert OwnsHttp(t, d, tid);
    }
  }

  lemma GainingKeepsBuffers(inspect: bool, s: Server, t: Server, c: Id, got: map<Id, Tunnel>)
    requires TunnelsOk(s) && BuffersOk(inspect, s) && Gained(inspect, s, t, c, got)
    ensures BuffersOk(inspect, t)
  {
    forall tid | tid in t.buffers ensures inspect && exists d: Id :: OwnsHttp(t, d, tid) {
      GainingKeepsBufferOwners(inspect, s, t, c, got, tid);
    }
    if inspect {
      forall d: Id, tid: Id | OwnsHttp(t, d, tid) ensures At(t.buffers, tid) == Some(t.sessions[d].user) {
        GainedBuffer(s, t, c, got, d, tid);
      }
    }
  }

  lemma GainedBuffer(s: Server, t: Server, c: Id, got: map<Id, Tunnel>, d: Id, tid: Id)
    requires TunnelsOk(s) && BuffersOk(true, s) && Gained(true, s, t, c, got) && OwnsHttp(t, d, tid)
    ensures At(t.buffers, tid) == Some(t.sessions[d].user)
  {
    if Owns(s, d, tid) {
      assert OwnsHttp(s, d, tid) && tid != s.nextId;
    }
  }

  /** t is s after client c gave up exactly the tunnels `gone`, with their routes and buffers. */
  ghost predicate GaveUp(s: Server, t: Server, c: Id, gone: map<Id, Tunnel>) {
    && c in s.sessions && t.nextId == s.nextId
    && (forall tid :: tid in gone ==> tid in s.sessions[c].tunnels && s.sessions[c].tunnels[tid] == gone[tid])
    && (forall d: Id, tid: Id :: Owns(t, d, tid) <==> Owns(s, d, tid) && !(d == c && tid in gone))
    && (forall d: Id :: d in t.sessions ==> d in s.sessions && t.sessions[d].user == s.sessions[d].user)
    && (forall d: Id, tid: Id :: Owns(t, d, tid) ==> t.sessions[d].tunnels[tid] == s.sessions[d].tunnels[tid])
    && t.router == s.router - Subs(gone)
    && t.buffers == s.buffers - HttpIds(gone)
  }

  lemma GivingUpKeepsRouter(s: Server, t: Server, c: Id, gone: map<Id, Tunnel>)
    requires TunnelsOk(s) && RouterOk(s) && GaveUp(s, t, c, gone)
    ensures TunnelsOk(t) && RouterOk(t)
  {
    forall sub | sub in t.router ensures exists d: Id :: Serves(t, d, t.router[sub], sub) {
      KeptRoute(s, t, c, gone, sub);
    }
    forall d: Id, tid: Id, sub: Subdomain | Serves(t, d, tid, sub) ensures At(t.router, sub) == Some(tid) {
      KeptServer(s, t, c, gone, d, tid, sub);
    }
  }

  lemma KeptRoute(s: Server, t: Server, c: Id, gone: map<Id, Tunnel>, sub: Subdomain)
    requires TunnelsOk(s) && RouterOk(s) && GaveUp(s, t, c, gone) && sub in t.router
    ensures exists d: Id :: Serves(t, d, t.router[sub], sub)
  {
    var d: Id :| Serves(s, d, s.router[sub], sub);
    assert s.router[sub] in gone && d == c ==> gone[s.router[sub]] == Http(sub) && sub in Subs(gone);
    assert Serves(t, d, t.router[sub], sub);
  }

  lemma KeptServer(s: Server, t: Server, c: Id, gone: map<Id, Tunnel>, d: Id, tid: Id, sub: Subdomain)
    requires TunnelsOk(s) && RouterOk(s) && GaveUp(s, t, c, gone) && Serves(t, d, tid, sub)
    ensures At(t.router, sub) == Some(tid)
  {
    assert Serves(s, d, tid, sub);
    if sub in Subs(gone) {
      var g :| g in gone && gone[g].Http? && gone[g].sub == sub;
      assert Serves(s, c, g, sub);
    }
  }

  lemma GivingUpKeepsBuffers(inspect: bool, s: Server, t: Server, c: Id, gone: map<Id, Tunnel>)
    requires TunnelsOk(s) && BuffersOk(inspect, s) && GaveUp(s, t, c, gone)
    ensures BuffersOk(inspect, t)
  {
    forall tid | tid in t.buffers ensures inspect && exists d: Id :: OwnsHttp(t, d, tid) {
      var d: Id :| OwnsHttp(s, d, tid);
      assert OwnsHttp(t, d, tid);
    }
    if inspect {
      forall d: Id, tid: Id | OwnsHttp(t, d, tid) ensures At(t.buffers, tid) == Some(t.sessions[d].user) {
        assert OwnsHttp(s, d, tid);
        assert tid in HttpIds(gone) ==> Owns(s, c, tid);
      }
    }
  }

  lemma GainKeepsAgreement(inspect: bool, s: Server, t: Server, c: Id, got: map<Id, Tunnel>)
    requires Agrees(inspect, s) && Gained(inspect, s, t, c, got) && IndexOk(t)
    ensures Agrees(inspect, t)
  {
    GainingKeepsRouter(inspect, s, t, c, got);
    GainingKeepsBuffers(inspect, s, t, c, got);
  }

  lemma LossKeepsAgreement(inspect: bool, s: Server, t: Server, c: Id, gone: map<Id, Tunnel>)
    requires Agrees(inspect, s) && GaveUp(s, t, c, gone) && IndexOk(t)
    ensures Agrees(inspect, t)
  {
    GivingUpKeepsRouter(s, t, c, gone);
    GivingUpKeepsBuffers(inspect, s, t, c, gone);
  }

  lemma OpenKeepsAgreement(inspect: bool, s: Server, c: Id, sub: Subdomain)
    requires Agrees(inspect, s) && c in s.sessions
    ensures Agrees(inspect, OpenedHttp(inspect, s, c, sub))
  {
    var t := OpenedHttp(inspect, s, c, sub);
    SameUsersKeepIndex(s, t);
    if sub in s.router {
      RefusedOpeningGains(inspect, s, c, sub);
      GainKeepsAgreement(inspect, s, t, c, map[]);
    } else {
      OpeningGains(inspect, s, c, sub);
      GainKeepsAgreement(inspect, s, t, c, map[s.nextId := Http(sub)]);
    }
  }

  lemma DisconnectKeepsAgreement(inspect: bool, s: Server, c: Id)
    requires Agrees(inspect, s)
    ensures Agrees(inspect, Disconnected(s, c))
  {
    DisconnectKeepsIndex(s, c);
    if c in s.sessions { LossKeepsAgreement(inspect, s, Disconnected(s, c), c, s.sessions[c].tunnels); }
  }

  lemma ConnectKeepsAgreement(inspect: bool, s: Server, user: int)
    requires Agrees(inspect, s)
    ensures Agrees(inspect, Connected(s, user))
  {
    ConnectKeepsIndex(s, user);
    ConnectingGains(inspect, s, user);
    GainKeepsAgreement(inspect, s, Connected(s, user), s.nextId, map[]);
  }

  lemma SocketKeepsAgreement(inspect: bool, s: Server, c: Id, port: Port)
    requires Agrees(inspect, s) && c in s.sessions
    ensures Agrees(inspect, WithTunnel(s, c, Socket(port)))
  {
    var t := WithTunnel(s, c, Socket(port));
    SameUsersKeepIndex(s, t);
    OpeningSocketGains(inspect, s, c, port);
    GainKeepsAgreement(inspect, s, t, c, map[s.nextId := Socket(port)]);
  }

  lemma CloseKeepsAgreement(inspect: bool, s: Server, c: Id, tid: Id)
    requires Agrees(inspect, s) && c in s.sessions
    ensures Agrees(inspect, ClosedTunnel(s, c, tid))
  {
    var t := ClosedTunnel(s, c, tid);
    SameUsersKeepIndex(s, t);
    LossKeepsAgreement(inspect, s, t, c, Only(s.sessions[c].tunnels, tid));
  }

  lemma CallKeepsAgreement(inspect: bool, s: Server, call: Call)
    requires Possible(s, call) && Agrees(inspect, s)
    ensures Agrees(inspect, After(inspect, s, call))
  {
    match call
    case Connect(user) => ConnectKeepsAgreement(inspect, s, user);
    case OpenHttp(c, sub) => OpenKeepsAgreement(inspect, s, c, sub);
    case OpenSocket(c, port) => SocketKeepsAgreement(inspect, s, c, port);
    case CloseTunnel(c, tid) => CloseKeepsAgreement(inspect, s, c, tid);
    case Disconnect(c) => DisconnectKeepsAgreement(inspect, s, c);
  }

  lemma {:induction false} CallsKeepAgreement(inspect: bool, s: Server, calls: seq<Call>)
    requires Agrees(inspect, s) && AllPossible(inspect, s, calls)
    ensures Agrees(inspect, AfterAll(inspect, s, calls))
    decreases calls
  {
    if calls != [] {
      CallKeepsAgreement(inspect, s, calls[0]);
      CallsKeepAgreement(inspect, After(inspect, s, calls[0]), calls[1..]);
    }
  }

  // ----------------------------------------------------------------------- listings

  datatype Info = Info(tid: Id, tunnel: Tunnel, client: Id, user: int)

  function Infos(c: Id, k: Session): set<Info> {
    set tid | tid in k.tunnels :: Info(tid, k.tunnels[tid], c, k.user)
  }

  /** GetAllTunnels: every tunnel of every connected client. */
  function AllTunnels(sessions: map<Id, Session>): set<Info> {
    set c, tid | c in sessions && tid in sessions[c].tunnels :: Info(tid, sessions[c].tunnels[tid], c, sessions[c].user)
  }

  /** GetTunnelsByUserID walks a list of clients, as often as each is listed. */
  function TunnelsOfList(sessions: map<Id, Session>, list: seq<Id>): multiset<Info> {
    if list == [] then multiset{}
    else TunnelsOf(sessions, list[0]) + TunnelsOfList(sessions, list[1..])
  }

  function TunnelsOf(sessions: map<Id, Session>, c: Id): multiset<Info> {
    if c in sessions then multiset(Infos(c, sessions[c])) else multiset{}
  }

  /** CountTunnelsByUserID walks the same list. */
  function CountOfList(sessions: map<Id, Session>, list: seq<Id>): nat {
    if list == [] then 0
    else (if list[0] in sessions then |sessions[list[0]].tunnels| else 0) + CountOfList(sessions, list[1..])
  }

  lemma {:induction false} ListingOfDistinct(sessions: map<Id, Session>, list: seq<Id>, i: Info)
    requires Distinct(list)
    ensures TunnelsOfList(sessions, list)[i] == if i.client in list && i in AllTunnels(sessions) then 1 else 0
  {
    if list != [] {
      var rest := list[1..];
      assert list == [list[0]] + rest;
      assert forall j :: 0 <= j < |rest| ==> rest[j] == list[j + 1];
      assert list[0] !in rest;
      ListingOfDistinct(sessions, rest, i);
      assert list[0] in sessions ==>
               (i in Infos(list[0], sessions[list[0]]) <==> i in AllTunnels(sessions) && i.client == list[0]);
    }
  }

  lemma {:induction false} InfosAreAsManyAsTunnels(c: Id, k: Session)
    ensures |Infos(c, k)| == |k.tunnels|
    decreases |k.tunnels|
  {
    if k.tunnels == map[] {
      assert Infos(c, k) == {};
    } else {
      var tid :| tid in k.tunnels;
      var rest := k.(tunnels := k.tunnels - {tid});
      assert rest.tunnels.Keys == k.tunnels.Keys - {tid};
      InfosAreAsManyAsTunnels(c, rest);
      assert Infos(c, k) == Infos(c, rest) + {Info(tid, k.tunnels[tid], c, k.user)};
    }
  }

  /** Counting and listing agree on any list of clients. */
  lemma {:induction false} CountIsListed(sessions: map<Id, Session>, list: seq<Id>)
    ensures CountOfList(sessions, list) == |TunnelsOfList(sessions, list)|
  {
    if list != [] {
      CountIsListed(sessions, list[1..]);
      if list[0] in sessions { InfosAreAsManyAsTunnels(list[0], sessions[list[0]]); }
    }
  }

  /** For every user but 0, in every reachable state: the list has the user's connected clients,
      once each; the listing by user is the listing of everything, filtered; and the count used
      by the limits is its size. */
  lemma IndexAgreesWithScan(inspect: bool, calls: seq<Call>, user: int)
    requires AllPossible(inspect, NO_SESSIONS, calls) && user != 0
    ensures var s := AfterAll(inspect, NO_SESSIONS, calls);
            var list := Listed(s.index, user);
            && Distinct(list)
            && (forall c: Id :: c in list <==> c in s.sessions && s.sessions[c].user == user)
            && TunnelsOfList(s.sessions, list) == multiset(set i | i in AllTunnels(s.sessions) && i.user == user)
            && CountOfList(s.sessions, list) == |set i | i in AllTunnels(s.sessions) && i.user == user|
  {
    InitAgrees(inspect);
    CallsKeepAgreement(inspect, NO_SESSIONS, calls);
    var s := AfterAll(inspect, NO_SESSIONS, calls);
    assert ListOk(s, user);
    ListingIsFiltered(s, user);
    CountIsListed(s.sessions, Listed(s.index, user));
  }

  lemma InitAgrees(inspect: bool)
    ensures Agrees(inspect, NO_SESSIONS)
  {
  }

  lemma ListingIsFiltered(s: Server, user: int)
    requires ListOk(s, user) && user != 0
    ensures TunnelsOfList(s.sessions, Listed(s.index, user)) ==
        multiset(set i | i in AllTunnels(s.sessions) && i.user == user)
  {
    var list := Listed(s.index, user);
    forall i: Info
      ensures TunnelsOfList(s.sessions, list)[i] == multiset(set i | i in AllTunnels(s.sessions) && i.user == user)[i]
    {
      ListingOfDistinct(s.sessions, list, i);
    }
  }

  /** A user can close by number exactly the tunnels of the user's own listing; closing takes that
      tunnel, and no other, out of the listing of everything. */
  lemma UserClosesOwnTunnelsOnly(inspect: bool, calls: seq<Call>, user: int, tid: Id)
    requires AllPossible(inspect, NO_SESSIONS, calls) && user != 0
    ensures var s := AfterAll(inspect, NO_SESSIONS, calls);
            && ((exists c: Id :: c in Listed(s.index, user) && Owns(s, c, tid)) <==>
                exists i :: i in AllTunnels(s.sessions) && i.tid == tid && i.user == user)
            && forall c: Id :: Owns(s, c, tid) ==>
                 AllTunnels(ClosedTunnel(s, c, tid).sessions) == set i | i in AllTunnels(s.sessions) && i.tid != tid
  {
    InitAgrees(inspect);
    CallsKeepAgreement(inspect, NO_SESSIONS, calls);
    var s := AfterAll(inspect, NO_SESSIONS, calls);
    assert ListOk(s, user);
    if c: Id :| c in Listed(s.index, user) && Owns(s, c, tid) {
      assert Info(tid, s.sessions[c].tunnels[tid], c, user) in AllTunnels(s.sessions);
    }
    if i :| i in AllTunnels(s.sessions) && i.tid == tid && i.user == user {
      assert Owns(s, i.client, tid);
    }
    forall c: Id | Owns(s, c, tid)
      ensures AllTunnels(ClosedTunnel(s, c, tid).sessions) == set i | i in AllTunnels(s.sessions) && i.tid != tid
    {
      ClosingUnlists(s, c, tid);
    }
  }

  lemma ClosingUnlists(s: Server, c: Id, tid: Id)
    requires TunnelsOk(s) && Owns(s, c, tid)
    ensures AllTunnels(ClosedTunnel(s, c, tid).sessions) == set i | i in AllTunnels(s.sessions) && i.tid != tid
  {
    var t := ClosedTunnel(s, c, tid);
    forall i: Info ensures i in AllTunnels(t.sessions) <==> i in AllTunnels(s.sessions) && i.tid != tid {
      if i in AllTunnels(t.sessions) {
        assert Owns(t, i.client, i.tid) && Owns(s, i.client, i.tid);
        assert i.tid == tid ==> Owns(s, i.client, tid);
      }
      if i in AllTunnels(s.sessions) && i.tid != tid {
        assert Owns(s, i.client, i.tid) && Owns(t, i.client, i.tid);
      }
    }
  }

  /** A name is routed only to a tunnel of that name of one connected client. */
  lemma RoutesLeadToConnectedClients(inspect: bool, calls: seq<Call>, sub: Subdomain)
    requires AllPossible(inspect, NO_SESSIONS, calls)
    ensures var s := AfterAll(inspect, NO_SESSIONS, calls);
            && (sub in s.router <==> exists c: Id, tid: Id :: Serves(s, c, tid, sub))
            && (sub in s.router ==> exists c: Id :: Serves(s, c, s.router[sub], sub))
            && (forall c: Id, d: Id, t: Id, u: Id :: Serves(s, c, t, sub) && Serves(s, d, u, sub) ==> c == d && t == u)
  {
    InitAgrees(inspect);
    CallsKeepAgreement(inspect, NO_SESSIONS, calls);
    var s := AfterAll(inspect, NO_SESSIONS, calls);
    forall c: Id, d: Id, t: Id, u: Id | Serves(s, c, t, sub) && Serves(s, d, u, sub) ensures c == d && t == u {
      assert At(s.router, sub) == Some(t) && At(s.router, sub) == Some(u);
      assert Owns(s, c, t) && Owns(s, d, t);
    }
  }

  /** With handlers atomic nothing of a client outlives its Close, and nothing else goes. */
  lemma CloseLeavesNothing(inspect: bool, calls: seq<Call>, c: Id)
    requires AllPossible(inspect, NO_SESSIONS, calls) && c in AfterAll(inspect, NO_SESSIONS, calls).sessions
    ensures var s := AfterAll(inspect, NO_SESSIONS, calls);
            var t := Disconnected(s, c);
            && t.sessions == s.sessions - {c}
            && (forall user :: user in t.index ==> c !in t.index[user])
            && (forall tid: Id :: Owns(s, c, tid) ==> tid !in t.buffers && tid !in t.router.Values)
            && (forall d: Id, tid: Id, sub :: d != c && Serves(s, d, tid, sub) ==> At(t.router, sub) == Some(tid))
            && (forall d: Id, tid: Id :: d != c && OwnsHttp(s, d, tid) ==> At(t.buffers, tid) == At(s.buffers, tid))
  {
    InitAgrees(inspect);
    CallsKeepAgreement(inspect, NO_SESSIONS, calls);
    var s := AfterAll(inspect, NO_SESSIONS, calls);
    var t := Disconnected(s, c);
    CallKeepsAgreement(inspect, s, Disconnect(c));
    forall user | user in t.index ensures c !in t.index[user] {
      assert ListOk(t, user);
    }
    forall tid: Id | Owns(s, c, tid) ensures tid !in t.buffers && tid !in t.router.Values {
      forall d: Id ensures !Owns(t, d, tid) {
        assert Owns(t, d, tid) ==> Owns(s, d, tid);
      }
    }
    forall d: Id, tid: Id, sub | d != c && Serves(s, d, tid, sub) ensures At(t.router, sub) == Some(tid) {
      assert Serves(t, d, tid, sub);
    }
    forall d: Id, tid: Id | d != c && OwnsHttp(s, d, tid) ensures At(t.buffers, tid) == At(s.buffers, tid) {
      assert tid in HttpIds(s.sessions[c].tunnels) ==> Owns(s, c, tid);
    }
  }
}
