/** The server's objects, called one at a time: every handler is proved to be the step of the
    same name in module Sessions (internal/server/server.go, client_manager.go, http_router.go,
    internal/inspect/manager.go). */
module TunnelServer {
  import opened Registry
  import opened Sessions
  import opened Text
  import Hosts
  import RingBuffers
  import opened Wrappers

  /** A name folded to lower case is a subdomain, and subdomains are folded already. */
  function Folded(name: string): (sub: Subdomain)
    ensures sub == ToLower(name)
  {
    LowerTwice(name);
    ToLower(name)
  }

  class HTTPRouter {
    var tunnels: map<Subdomain, Id>

    constructor ()
      ensures tunnels == map[]
    {
      tunnels := map[];
    }

    method RegisterTunnel(name: string, tid: Id) returns (ok: bool)
      modifies this
      ensures ok <==> Folded(name) !in old(tunnels)
      ensures tunnels == if ok then old(tunnels)[Folded(name) := tid] else old(tunnels)
    {
      var sub := Folded(name);
      if sub in tunnels {
        return false;
      }
      tunnels := tunnels[sub := tid];
      return true;
    }

    method UnregisterTunnel(name: string)
      modifies this
      ensures tunnels == old(tunnels) - {Folded(name)}
    {
      tunnels := tunnels - {Folded(name)};
    }

    method GetTunnel(name: string) returns (tid: Option<Id>)
      ensures tid == At(tunnels, Folded(name))
    {
      var sub := Folded(name);
      return if sub in tunnels then Some(tunnels[sub]) else None;
    }
  }

  class InspectManager {
    const capacity: nat
    var buffers: map<Id, RingBuffers.RingBuffer>
    var userIDs: map<Id, int>

    constructor (capacity: nat)
      ensures this.capacity == capacity && buffers == map[] && userIDs == map[]
    {
      this.capacity := capacity;
      buffers := map[];
      userIDs := map[];
    }

    /** A buffer that exists is kept; a disabled manager has none. */
    method GetOrCreate(tid: Id) returns (buffer: RingBuffers.RingBuffer?)
      modifies this`buffers
      ensures capacity == 0 ==> buffer == null && buffers == old(buffers)
      ensures capacity > 0 ==> buffer != null && buffers == old(buffers)[tid := buffer]
      ensures capacity > 0 && tid in old(buffers) ==> buffer == old(buffers)[tid]
      ensures capacity > 0 && tid !in old(buffers) ==> fresh(buffer) && buffer.Valid() && buffer.history == []
    {
      if capacity == 0 {
        return null;
      }
      if tid in buffers {
        return buffers[tid];
      }
      buffer := new RingBuffers.RingBuffer(capacity);
      buffers := buffers[tid := buffer];
    }

    method GetOrCreateWithUser(tid: Id, user: int) returns (buffer: RingBuffers.RingBuffer?)
      modifies this
      ensures buffers.Keys == old(buffers.Keys) + (if capacity > 0 then {tid} else {})
      ensures forall t :: t in old(buffers) ==> buffers[t] == old(buffers[t])
      ensures tid in buffers && tid !in old(buffers) ==> fresh(buffers[tid])
      ensures userIDs == if capacity > 0 then old(userIDs)[tid := user] else old(userIDs)
    {
      buffer := GetOrCreate(tid);
      if buffer != null {
        userIDs := userIDs[tid := user];
      }
    }

    method Remove(tid: Id)
      modifies this, if tid in buffers then {buffers[tid]} else {}
      ensures buffers == old(buffers) - {tid} && userIDs == old(userIDs) - {tid}
      ensures tid in old(buffers) ==> old(buffers)[tid].closed && old(buffers)[tid].history == old(buffers[tid].history)
    {
      if tid in buffers {
        var buffer := buffers[tid];
        buffers := buffers - {tid};
        buffer.Close();
      }
      userIDs := userIDs - {tid};
    }
  }

  class ClientManager {
    var clients: map<Id, Client>
    var userClients: map<int, seq<Id>>

    constructor ()
      ensures clients == map[] && userClients == map[]
    {
      clients := map[];
      userClients := map[];
    }

    /** Clients are filed under their own numbers. */
    ghost predicate Valid()
      reads this
    {
      forall c :: c in clients ==> clients[c].id == c
    }

    ghost function View(): map<Id, Session>
      reads this, clients.Values
    {
      map c | c in clients :: clients[c].View()
    }

    method AddClient(client: Client)
      modifies this`clients
      ensures clients == old(clients)[client.id := client]
    {
      clients := clients[client.id := client];
    }

    method RemoveClient(c: Id)
      modifies this`clients
      ensures clients == old(clients) - {c}
    {
      clients := clients - {c};
    }

    method LinkUserClient(user: int, c: Id)
      modifies this`userClients
      ensures userClients == LinkIn(old(userClients), user, c)
    {
      if user == 0 {
        return;
      }
      var list := if user in userClients then userClients[user] else [];
      userClients := userClients[user := list + [c]];
    }

    method UnlinkUserClient(user: int, c: Id)
      modifies this`userClients
      ensures userClients == UnlinkFrom(old(userClients), user, c)
    {
      if user == 0 {
        return;
      }
      if user in userClients {
        var list := Splice(userClients[user], c);
        userClients := userClients[user := list];
      }
      if user !in userClients || userClients[user] == [] {
        userClients := userClients - {user};
      }
    }

    method GetTunnelsByUserID(user: int) returns (infos: seq<Info>)
      requires Valid()
      ensures multiset(infos) == TunnelsOfList(View(), Listed(userClients, user))
    {
      var ids := if user in userClients then userClients[user] else [];
      ghost var view := View();
      infos := [];
      for i := 0 to |ids|
        invariant multiset(infos) == TunnelsOfList(view, ids[..i])
      {
        var own := TunnelsOfClient(ids[i]);
        ListingGrows(view, ids, i, infos, own);
        infos := infos + own;
      }
      assert ids[..|ids|] == ids;
    }

    method TunnelsOfClient(c: Id) returns (infos: seq<Info>)
      requires Valid()
      ensures multiset(infos) == TunnelsOf(View(), c)
    {
      if c !in clients {
        return [];
      }
      infos := clients[c].ListTunnels();
    }

    method GetAllTunnels() returns (infos: seq<Info>)
      requires Valid()
      ensures multiset(infos) == multiset(AllTunnels(View()))
    {
      infos := [];
      var todo := clients.Keys;
      ghost var view := View();
      while todo != {}
        invariant todo <= clients.Keys
        invariant multiset(infos) == multiset(AllTunnels(view - todo))
        decreases |todo|
      {
        var c :| c in todo;
        var own := TunnelsOfClient(c);
        AllTunnelsGrow(view, todo, c);
        infos := infos + own;
        todo := todo - {c};
      }
      assert view - {} == view;
    }

    /** Close the tunnel wherever it is. */
    method AdminCloseTunnel(tid: Id, server: Server) returns (ok: bool)
      requires server.Valid() && server.clientMgr == this
      modifies clients.Values, server.httpRouter, server.inspectMgr, server.inspectMgr.buffers.Values
      ensures server.Valid() && unchanged(this)
      ensures ok <==> exists c: Id :: Owns(old(server.Contents()), c, tid)
      ensures ok ==> exists c: Id :: Owns(old(server.Contents()), c, tid)
                                     && server.Contents() == ClosedTunnel(old(server.Contents()), c, tid)
      ensures !ok ==> server.Contents() == old(server.Contents())
    {
      var todo := clients.Keys;
      while todo != {}
        invariant todo <= clients.Keys
        invariant forall c: Id :: Owns(server.Contents(), c, tid) ==> c in todo
        decreases |todo|
      {
        var c :| c in todo;
        if tid in clients[c].tunnels {
          assert Owns(server.Contents(), c, tid);
          clients[c].CloseTunnel(tid);
          return true;
        }
        todo := todo - {c};
      }
      return false;
    }

    /** Close the tunnel if one of the user's listed clients has it. */
    method CloseTunnelByID(tid: Id, user: int, server: Server) returns (ok: bool)
      requires server.Valid() && server.clientMgr == this
      modifies clients.Values, server.httpRouter, server.inspectMgr, server.inspectMgr.buffers.Values
      ensures server.Valid() && unchanged(this)
      ensures ok <==> exists c: Id :: c in Listed(userClients, user) && Owns(old(server.Contents()), c, tid)
      ensures ok ==> exists c: Id :: c in Listed(userClients, user) && Owns(old(server.Contents()), c, tid)
                                     && server.Contents() == ClosedTunnel(old(server.Contents()), c, tid)
      ensures !ok ==> server.Contents() == old(server.Contents())
    {
      var ids := if user in userClients then userClients[user] else [];
      for i := 0 to |ids|
        invariant forall c: Id :: c in ids[..i] ==> !Owns(server.Contents(), c, tid)
      {
        if ids[i] in clients && tid in clients[ids[i]].tunnels {
          assert Owns(server.Contents(), ids[i], tid);
          clients[ids[i]].CloseTunnel(tid);
          return true;
        }
      }
      return false;
    }

    method CountTunnelsByUserID(user: int) returns (count: nat)
      ensures count == CountOfList(View(), Listed(userClients, user))
    {
      var ids := if user in userClients then userClients[user] else [];
      count := 0;
      for i := 0 to |ids|
        invariant CountOfList(View(), ids) == count + CountOfList(View(), ids[i..])
      {
        assert ids[i..][1..] == ids[i + 1..];
        if ids[i] in clients {
          count := count + |clients[ids[i]].tunnels|;
        }
      }
    }
  }

  /** A random name is given exactly when none is asked for. */
  lemma GrantedIsFolded(requested: string, random: Subdomain)
    ensures Folded(Hosts.Granted(requested, random)) == if Folded(requested) == "" then random else Folded(requested)
  {
    LowerTwice(requested);
  }

  lemma {:induction false} WithoutAt(list: seq<Id>, c: Id, i: nat)
    requires i <= |list| && c !in list[..i] && (i < |list| ==> list[i] == c)
    ensures Without(list, c) == if i < |list| then list[..i] + list[i + 1..] else list
  {
    if list != [] && i > 0 {
      assert list[..i][0] == list[0] && list[..i][1..] == list[1..][..i - 1];
      WithoutAt(list[1..], c, i - 1);
    }
  }

  /** Take the first occurrence of c out of the list. */
  method Splice(list: seq<Id>, c: Id) returns (rest: seq<Id>)
    ensures rest == Without(list, c)
  {
    var i := 0;
    while i < |list| && list[i] != c
      invariant 0 <= i <= |list|
      invariant c !in list[..i]
    {
      i := i + 1;
    }
    WithoutAt(list, c, i);
    if i == |list| {
      return list;
    }
    return list[..i] + list[i + 1..];
  }

  lemma ListingGrows(view: map<Id, Session>, ids: seq<Id>, i: nat, infos: seq<Info>, own: seq<Info>)
    requires i < |ids|
    requires multiset(infos) == TunnelsOfList(view, ids[..i]) && multiset(own) == TunnelsOf(view, ids[i])
    ensures multiset(infos + own) == TunnelsOfList(view, ids[..i + 1])
  {
    assert ids[..i + 1] == ids[..i] + [ids[i]];
    ListingAppends(view, ids[..i], ids[i]);
  }

  lemma {:induction false} ListingAppends(view: map<Id, Session>, ids: seq<Id>, c: Id)
    ensures TunnelsOfList(view, ids + [c]) == TunnelsOfList(view, ids) + TunnelsOf(view, c)
  {
    if ids == [] {
      assert (ids + [c])[1..] == [];
    } else {
      assert (ids + [c])[1..] == ids[1..] + [c];
      ListingAppends(view, ids[1..], c);
    }
  }

  lemma AllTunnelsGrow(view: map<Id, Session>, todo: set<Id>, c: Id)
    requires c in todo && todo <= view.Keys
    ensures multiset(AllTunnels(view - (todo - {c}))) == multiset(AllTunnels(view - todo)) + TunnelsOf(view, c)
  {
    var before, own, after := AllTunnels(view - todo), Infos(c, view[c]), AllTunnels(view - (todo - {c}));
    forall i: Info ensures i in after <==> i in before || i in own {
      if i in own { assert c in view - (todo - {c}) && i.tid in view[c].tunnels && i.client == c; }
      if i in before { assert i.client in view - (todo - {c}); }
      if i in after && i.client != c { assert i.client in view - todo; }
    }
    assert after == before + own && before !! own;
  }

  lemma InfosGrow(c: Id, user: int, tunnels: map<Id, Tunnel>, todo: set<Id>, tid: Id)
    requires tid in todo && todo <= tunnels.Keys
    ensures multiset(Infos(c, Session(user, tunnels - (todo - {tid}))))
            == multiset(Infos(c, Session(user, tunnels - todo))) + multiset{Info(tid, tunnels[tid], c, user)}
  {
    var before, own := tunnels - todo, tunnels - (todo - {tid});
    assert own == before[tid := tunnels[tid]] && tid !in before;
    var i := Info(tid, tunnels[tid], c, user);
    forall j: Info ensures j in Infos(c, Session(user, own)) <==> j in Infos(c, Session(user, before)) || j == i {
      if j in Infos(c, Session(user, before)) { assert own[j.tid] == before[j.tid]; }
      if j in Infos(c, Session(user, own)) && j != i { assert j.tid in before; }
      assert tid in own;
    }
    assert Infos(c, Session(user, own)) == Infos(c, Session(user, before)) + {i};
    assert i !in Infos(c, Session(user, before));
  }

  ghost predicate Split(all: map<Id, Tunnel>, gone: map<Id, Tunnel>, rest: map<Id, Tunnel>) {
    all == gone + rest && gone.Keys !! rest.Keys
  }

  lemma Moving(all: map<Id, Tunnel>, gone: map<Id, Tunnel>, rest: map<Id, Tunnel>, tid: Id)
    requires Split(all, gone, rest) && tid in rest
    ensures Split(all, gone[tid := rest[tid]], rest - {tid}) && tid !in gone
  {
  }

  class Client {
    const id: Id
    const user: int
    const server: Server
    var tunnels: map<Id, Tunnel>
    var closed: bool                    // closeOnce has run

    constructor (id: Id, user: int, server: Server)
      ensures this.id == id && this.user == user && this.server == server && tunnels == map[] && !closed
    {
      closed := false;
      this.id := id;
      this.user := user;
      this.server := server;
      tunnels := map[];
    }

    ghost function View(): Session
      reads this
    {
      Session(user, tunnels)
    }

    method ListTunnels() returns (infos: seq<Info>)
      ensures multiset(infos) == multiset(Infos(id, View()))
    {
      infos := [];
      var todo := tunnels.Keys;
      while todo != {}
        invariant todo <= tunnels.Keys
        invariant multiset(infos) == multiset(Infos(id, Session(user, tunnels - todo)))
        decreases |todo|
      {
        var tid :| tid in todo;
        var info := Info(tid, tunnels[tid], id, user);
        InfosGrow(id, user, tunnels, todo, tid);
        infos := infos + [info];
        todo := todo - {tid};
      }
      assert tunnels - {} == tunnels;
    }

    /** Connected, and nothing else is filed under its number. */
    ghost predicate Online()
      reads this, server, server.clientMgr, server.inspectMgr
    {
      server.Valid() && id in server.clientMgr.clients && server.clientMgr.clients[id] == this
    }

    /** What the server's view of its clients becomes when only this client's tunnels change. */
    twostate lemma OnlyThisChanged()
      requires old(Online()) && unchanged(server.clientMgr)
      requires forall k :: k in server.clientMgr.clients.Values && k != this ==> unchanged(k)
      ensures server.clientMgr.View() == old(server.clientMgr.View())[id := View()]
    {
      var clients := server.clientMgr.clients;
      forall c | c in clients && c != id ensures clients[c].View() == old(clients[c].View()) {
        assert clients[c] in clients.Values && clients[c] != this;
      }
    }

    /** `random` is what generateShortID makes, `allowed` what the token permits. */
    method CreateHTTPTunnel(requested: string, random: Subdomain, allowed: string -> bool) returns (created: Option<Id>)
      requires Online()
      modifies this`tunnels, server, server.httpRouter, server.inspectMgr
      ensures Online() && unchanged(server.clientMgr)
      ensures var sub := Folded(Hosts.Granted(requested, random));
              && server.Contents() == (if allowed(sub)
                                       then OpenedHttp(server.inspectMgr.capacity > 0, old(server.Contents()), id, sub)
                                       else old(server.Contents()))
              && created ==
                  (if allowed(sub) && sub !in old(server.httpRouter.tunnels) then Some(old(server.nextId)) else None)
    {
      var sub := Folded(requested);
      if sub == "" {
        sub := random;
      }
      GrantedIsFolded(requested, random);
      if !allowed(sub) {
        return None;
      }
      var tid := server.GenerateID();
      var ok := server.Register(tid, user, sub);
      if !ok {
        OnlyThisChanged();
        return None;
      }
      tunnels := tunnels[tid := Http(sub)];
      OnlyThisChanged();
      assert server.Contents().sessions == WithTunnel(old(server.Contents()), id, Http(sub)).sessions;
      return Some(tid);
    }

    method CreateSocketTunnel(port: Port) returns (tid: Id)
      requires Online()
      modifies this`tunnels, server
      ensures Online() && unchanged(server.clientMgr)
      ensures server.Contents() == WithTunnel(old(server.Contents()), id, Socket(port))
    {
      tid := server.GenerateID();
      tunnels := tunnels[tid := Socket(port)];
      OnlyThisChanged();
    }

    method CloseTunnel(tid: Id)
      requires Online()
      modifies this`tunnels, server.httpRouter, server.inspectMgr, server.inspectMgr.buffers.Values
      ensures Online() && unchanged(server.clientMgr)
      ensures server.Contents() == ClosedTunnel(old(server.Contents()), id, tid)
    {
      ClosingOne(server.Contents(), id, tid);
      if tid !in tunnels {
        return;
      }
      var tunnel := tunnels[tid];
      tunnels := tunnels - {tid};
      server.Unregister(tid, tunnel);
      OnlyThisChanged();
    }

    /** The loop of Client.Close. */
    method CloseTunnels()
      requires server.inspectMgr.userIDs.Keys == server.inspectMgr.buffers.Keys
      modifies this`tunnels, server.httpRouter, server.inspectMgr, server.inspectMgr.buffers.Values
      ensures tunnels == map[]
      ensures server.httpRouter.tunnels == old(server.httpRouter.tunnels) - Subs(old(tunnels))
      ensures server.BufferUsers() == old(server.BufferUsers()) - HttpIds(old(tunnels))
      ensures server.inspectMgr.userIDs.Keys == server.inspectMgr.buffers.Keys
    {
      ghost var gone: map<Id, Tunnel> := map[];
      assert Subs(gone) == {} && HttpIds(gone) == {};
      while tunnels != map[]
        invariant Split(old(tunnels), gone, tunnels)
        invariant server.httpRouter.tunnels == old(server.httpRouter.tunnels) - Subs(gone)
        invariant server.BufferUsers() == old(server.BufferUsers()) - HttpIds(gone)
        invariant server.inspectMgr.userIDs.Keys == server.inspectMgr.buffers.Keys
        invariant server.inspectMgr.buffers.Values <= old(server.inspectMgr.buffers.Values)
        decreases tunnels.Keys
      {
        var tid :| tid in tunnels;
        var tunnel := tunnels[tid];
        server.Unregister(tid, tunnel);
        MinusBoth(old(server.httpRouter.tunnels), Subs(gone), SubOf(tunnel));
        MinusBoth(old(server.BufferUsers()), HttpIds(gone), if tunnel.Http? then {tid} else {});
        Moving(old(tunnels), gone, tunnels, tid);
        SubsGrow(gone, tid, tunnel);
        gone := gone[tid := tunnel];
        tunnels := tunnels - {tid};
      }
      assert gone == old(tunnels);
    }

    /** Only the first call does anything. */
    method Close()
      requires if closed then server.Valid() && id !in server.clientMgr.clients else Online()
      modifies this, server.httpRouter, server.inspectMgr, server.clientMgr, server.inspectMgr.buffers.Values
      ensures closed && server.Valid() && id !in server.clientMgr.clients && (old(!closed) ==> tunnels == map[])
      ensures server.Contents() == Disconnected(old(server.Contents()), id)
    {
      if closed {
        return;
      }
      closed := true;
      CloseTunnels();
      server.clientMgr.UnlinkUserClient(user, id);
      server.clientMgr.RemoveClient(id);
      OnlyThisGone();
    }

    twostate lemma OnlyThisGone()
      requires old(Online()) && server.clientMgr.clients == old(server.clientMgr.clients) - {id}
      requires forall k :: k in old(server.clientMgr.clients).Values && k != this ==> unchanged(k)
      ensures server.clientMgr.View() == old(server.clientMgr.View()) - {id}
    {
      var clients := old(server.clientMgr.clients);
      forall c | c in clients && c != id ensures clients[c].View() == old(clients[c].View()) {
        assert clients[c] in clients.Values && clients[c] != this;
      }
    }
  }

  class Server {
    const clientMgr: ClientManager
    const httpRouter: HTTPRouter
    const inspectMgr: InspectManager
    var nextId: Id

    constructor (capacity: nat)
      ensures Valid() && Contents() == NO_SESSIONS && inspectMgr.capacity == capacity
      ensures fresh(clientMgr) && fresh(httpRouter) && fresh(inspectMgr)
    {
      clientMgr := new ClientManager();
      httpRouter := new HTTPRouter();
      inspectMgr := new InspectManager(capacity);
      nextId := 0;
    }

    ghost predicate Valid()
      reads this, clientMgr, inspectMgr
    {
      && clientMgr.Valid()
      && (forall c :: c in clientMgr.clients ==> clientMgr.clients[c].server == this && c < nextId)
      && inspectMgr.userIDs.Keys == inspectMgr.buffers.Keys
      && (forall tid :: tid in inspectMgr.buffers ==> tid < nextId)
    }

    ghost function BufferUsers(): map<Id, int>
      reads this, inspectMgr
    {
      inspectMgr.userIDs
    }

    ghost function Contents(): Sessions.Server
      reads this, clientMgr, httpRouter, inspectMgr, clientMgr.clients.Values
    {
      Sessions.Server(nextId, clientMgr.View(), clientMgr.userClients, httpRouter.tunnels, BufferUsers())
    }

    method GenerateID() returns (id: Id)
      modifies this
      ensures id == old(nextId) && nextId == id + 1
    {
      id := nextId;
      nextId := nextId + 1;
    }

    /** Make the buffer and the route of a new tunnel, or neither. */
    method Register(tid: Id, user: int, sub: Subdomain) returns (ok: bool)
      requires tid !in inspectMgr.buffers && inspectMgr.userIDs.Keys == inspectMgr.buffers.Keys
      modifies httpRouter, inspectMgr
      ensures ok <==> sub !in old(httpRouter.tunnels)
      ensures httpRouter.tunnels == if ok then old(httpRouter.tunnels)[sub := tid] else old(httpRouter.tunnels)
      ensures BufferUsers()
              == if ok && inspectMgr.capacity > 0 then old(BufferUsers())[tid := user] else old(BufferUsers())
      ensures inspectMgr.userIDs.Keys == inspectMgr.buffers.Keys
    {
      var _ := inspectMgr.GetOrCreateWithUser(tid, user);
      ok := httpRouter.RegisterTunnel(sub, tid);
      if !ok {
        inspectMgr.Remove(tid);
      }
    }

    /** Give up the buffer and the route of a tunnel. */
    method Unregister(tid: Id, tunnel: Tunnel)
      modifies httpRouter, inspectMgr, if tid in inspectMgr.buffers then {inspectMgr.buffers[tid]} else {}
      ensures httpRouter.tunnels == old(httpRouter.tunnels) - (if tunnel.Http? then {tunnel.sub} else {})
      ensures BufferUsers() == old(BufferUsers()) - (if tunnel.Http? then {tid} else {})
      ensures inspectMgr.buffers == old(inspectMgr.buffers) - (if tunnel.Http? then {tid} else {})
    {
      if tunnel.Http? {
        httpRouter.UnregisterTunnel(tunnel.sub);
        inspectMgr.Remove(tid);
      }
    }

    method Connect(user: int) returns (client: Client)
      requires Valid()
      modifies this, clientMgr
      ensures client.Online() && !client.closed && fresh(client) && client.server == this
      ensures Contents() == Connected(old(Contents()), user)
    {
      var id := GenerateID();
      client := new Client(id, user, this);
      clientMgr.AddClient(client);
      clientMgr.LinkUserClient(user, id);
      OnlyAdded(client);
    }

    twostate lemma OnlyAdded(new client: Client)
      requires old(clientMgr.Valid()) && clientMgr.clients == old(clientMgr.clients)[client.id := client]
      requires forall k :: k in old(clientMgr.clients).Values ==> unchanged(k)
      ensures clientMgr.View() == old(clientMgr.View())[client.id := client.View()]
    {
      var clients := old(clientMgr.clients);
      forall c | c in clients ensures clients[c].View() == old(clients[c].View()) {
        assert clients[c] in clients.Values;
      }
    }
  }
}
