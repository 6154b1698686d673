/** From creating an HTTP tunnel to the requests it serves. */
module Routing {
  import opened Registry
  import opened Sessions
  import opened Text
  import Hosts
  import opened Wrappers

  /** In every reachable state, and whatever custom domains are cached, a request for the host
      advertised for a tunnel goes to exactly that tunnel of a connected client. */
  lemma AdvertisedHostReachesTunnel(inspect: bool, calls: seq<Call>, c: Id, tid: Id, sub: Subdomain, base: string,
                                    aliases: seq<string>, port: string, cache: map<string, Hosts.CustomDomain>)
    requires AllPossible(inspect, NO_SESSIONS, calls) && Serves(AfterAll(inspect, NO_SESSIONS, calls), c, tid, sub)
    requires sub != "" && sub != "www" && !HasPrefix(sub, "www.") && ':' !in sub && ':' !in base && ':' !in port
    ensures var s := AfterAll(inspect, NO_SESSIONS, calls);
            var host := Hosts.Advertised(sub, base);
            && Hosts.Routed(host, [base] + aliases, cache, s.router) == Some(tid)
            && Hosts.Routed(host + ":" + port, [base] + aliases, cache, s.router) == Some(tid)
  {
    var s := AfterAll(inspect, NO_SESSIONS, calls);
    InitAgrees(inspect);
    CallsKeepAgreement(inspect, NO_SESSIONS, calls);
    assert At(s.router, sub) == Some(tid);
    Hosts.AliasesDoNotInterfere(sub, base, aliases, port);
  }

  /** The name of a served tunnel is free once the client is gone, or has closed the tunnel. */
  lemma NameIsFreed(inspect: bool, s: Server, c: Id, tid: Id, sub: Subdomain, last: Call)
    requires Agrees(inspect, s) && Serves(s, c, tid, sub) && (last == Disconnect(c) || last == CloseTunnel(c, tid))
    ensures Possible(s, last) && sub !in After(inspect, s, last).router
  {
    if last.CloseTunnel? { ClosingOne(s, c, tid); }
    assert sub in Subs(s.sessions[c].tunnels);
  }

  /** Once the client is gone, or has closed the tunnel, the same request finds no tunnel until
      the name is taken again. */
  lemma ClosedTunnelIsNotReached(inspect: bool, calls: seq<Call>, c: Id, tid: Id, sub: Subdomain, last: Call,
                                 base: string, aliases: seq<string>, cache: map<string, Hosts.CustomDomain>)
    requires AllPossible(inspect, NO_SESSIONS, calls) && Serves(AfterAll(inspect, NO_SESSIONS, calls), c, tid, sub)
    requires last == Disconnect(c) || last == CloseTunnel(c, tid)
    requires sub != "" && sub != "www" && !HasPrefix(sub, "www.") && ':' !in sub && ':' !in base
    ensures var s := AfterAll(inspect, NO_SESSIONS, calls);
            Hosts.Routed(Hosts.Advertised(sub, base), [base] + aliases, cache, After(inspect, s, last).router) == None
  {
    InitAgrees(inspect);
    CallsKeepAgreement(inspect, NO_SESSIONS, calls);
    NameIsFreed(inspect, AfterAll(inspect, NO_SESSIONS, calls), c, tid, sub, last);
    Hosts.AliasesDoNotInterfere(sub, base, aliases, "");
  }
}
