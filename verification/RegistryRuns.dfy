/** What the ownership invariant means over whole runs of the registry machine. */
module RegistryRuns {
  import opened Ports
  import opened Registry
  import opened RegistryOwnership
  import opened Wrappers

  ghost predicate TunnelsOwned(cfg: Config, s: State) {
    exists home :: Homes(s, home) && Routes(s, home) && Buffers(cfg.inspect, s, home)
  }

  ghost predicate PortsOwned(cfg: Config, s: State) {
    exists ports :: PortHomes(cfg, s, ports)
  }

  ghost predicate Owned(cfg: Config, s: State) {
    Orderly(s) && TunnelsOwned(cfg, s) && PortsOwned(cfg, s)
  }

  lemma StepKeepsTunnels(cfg: Config, s: State, e: Step)
    requires Enabled(s, e) && Owned(cfg, s)
    ensures Orderly(Next(cfg, s, e)) && TunnelsOwned(cfg, Next(cfg, s, e))
  {
    var f := EffectOf(cfg, s, e);
    var home :| Homes(s, home) && Routes(s, home) && Buffers(cfg.inspect, s, home);
    var home' := Moves(s, e, home);
    forall x: Id ensures HomeAt(f, home, home', x) && BufferAt(cfg.inspect, s, f, home, home', x) {
      StepHome(cfg, s, e, home, x);
      StepBuffer(cfg, s, e, home, x);
    }
    forall sub ensures RouteAt(s, f, home, home', sub) {
      StepRoute(cfg, s, e, home, sub);
    }
    HomesFromEffect(s, f, home, home');
    RoutesFromEffect(s, f, home, home');
    BuffersFromEffect(cfg.inspect, s, f, home, home');
    StepOrder(cfg, s, e);
    OrderFromEffect(s, f);
  }

  lemma StepKeepsPorts(cfg: Config, s: State, e: Step)
    requires Enabled(s, e) && Owned(cfg, s)
    ensures PortsOwned(cfg, Next(cfg, s, e))
  {
    var f := EffectOf(cfg, s, e);
    var ports :| PortHomes(cfg, s, ports);
    var ports' := PortMoves(cfg, s, e, ports);
    forall p, l: Id ensures PortAt(cfg, f, ports, ports', p, l) {
      StepPort(cfg, s, e, ports, p, l);
    }
    PortsFromEffect(cfg, s, f, ports, ports');
  }

  lemma {:induction false} RunKeepsOwned(cfg: Config, s: State, run: seq<Step>)
    requires Legal(cfg, s, run) && Owned(cfg, s)
    ensures Owned(cfg, Final(cfg, s, run))
    decreases run
  {
    if run != [] {
      StepKeepsTunnels(cfg, s, run[0]);
      StepKeepsPorts(cfg, s, run[0]);
      RunKeepsOwned(cfg, Next(cfg, s, run[0]), run[1..]);
    }
  }

  lemma InitIsOwned(cfg: Config)
    ensures Owned(cfg, INIT)
  {
    var home: map<Id, Holder>, ports: map<Port, Holder> := map[], map[];
    assert Homes(INIT, home) && Routes(INIT, home) && Buffers(cfg.inspect, INIT, home);
    assert PortHomes(cfg, INIT, ports);
  }

  lemma RouteHasOneOwner(s: State, home: map<Id, Holder>, sub: Subdomain)
    requires Homes(s, home) && Routes(s, home)
    ensures forall h, tid: Id :: HoldsRoute(s, h, sub, tid) ==>
        At(s.tables.router, sub) == Some(tid) && At(home, tid) == Some(h)
    ensures sub in s.tables.router ==> exists h :: HoldsRoute(s, h, sub, s.tables.router[sub])
  {
    forall h, tid: Id | HoldsRoute(s, h, sub, tid)
      ensures At(s.tables.router, sub) == Some(tid) && At(home, tid) == Some(h)
    {
      assert HoldsTunnel(s, h, tid);
    }
    if sub in s.tables.router {
      assert Routed(s, home, sub);
      assert HoldsRoute(s, home[s.tables.router[sub]], sub, s.tables.router[sub]);
    }
  }

  /** In every reachable state a router entry has one owner, and it is that owner's tunnel:
      an unfinished creation, one client's map, or an unfinished close. */
  lemma RoutesHaveOneOwner(cfg: Config, run: seq<Step>, sub: Subdomain)
    requires Legal(cfg, INIT, run)
    ensures var s := Final(cfg, INIT, run);
            && (sub in s.tables.router <==> exists h, tid: Id :: HoldsRoute(s, h, sub, tid))
            && (sub in s.tables.router ==> exists h :: HoldsRoute(s, h, sub, s.tables.router[sub]))
            && (forall h, h', tid: Id, tid': Id :: HoldsRoute(s, h, sub, tid) && HoldsRoute(s, h', sub, tid') ==>
                  h == h' && tid == tid' && s.tables.router[sub] == tid)
  {
    InitIsOwned(cfg);
    RunKeepsOwned(cfg, INIT, run);
    var s := Final(cfg, INIT, run);
    var home :| Homes(s, home) && Routes(s, home) && Buffers(cfg.inspect, s, home);
    RouteHasOneOwner(s, home, sub);
  }

  /** The same for inspect buffers; with inspection on every owner has its buffer. */
  lemma BuffersHaveOneOwner(cfg: Config, run: seq<Step>, tid: Id)
    requires Legal(cfg, INIT, run)
    ensures var s := Final(cfg, INIT, run);
            && (tid in s.tables.buffers ==> exists h :: HoldsBuffer(s, h, tid))
            && (cfg.inspect ==> (tid in s.tables.buffers <==> exists h :: HoldsBuffer(s, h, tid)))
            && (forall h, h' :: HoldsBuffer(s, h, tid) && HoldsBuffer(s, h', tid) ==> h == h')
            && (tid in s.tables.bufferUsers ==> tid in s.tables.buffers)
  {
    InitIsOwned(cfg);
    RunKeepsOwned(cfg, INIT, run);
    var s := Final(cfg, INIT, run);
    var home :| Homes(s, home) && Routes(s, home) && Buffers(cfg.inspect, s, home);
    if tid in s.tables.buffers {
      assert HoldsBuffer(s, home[tid], tid);
    }
    forall h, h' | HoldsBuffer(s, h, tid) && HoldsBuffer(s, h', tid) ensures h == h' {
      assert HoldsTunnel(s, h, tid) && HoldsTunnel(s, h', tid);
    }
    if cfg.inspect && exists h :: HoldsBuffer(s, h, tid) {
      var h :| HoldsBuffer(s, h, tid);
      assert Expected(cfg.inspect, s, h);
    }
  }

  /** Step e runs UnregisterTunnel(sub) while closing tunnel tid on behalf of `me`. */
  predicate Unregisters(s: State, e: Step, me: Holder, tid: Id, sub: Subdomain) {
    && Enabled(s, e)
    && match e
       case SweepUnroute(c, t) => me == OnList(c) && t == tid && s.clients[c].tunnels[t] == Http(sub)
       case Do(th, _) => me == Doing(th) && s.work[th] == Unroute(tid, sub)
       case _ => false
  }

  lemma UnregisterTouchesOneEntry(cfg: Config, s: State, e: Step, me: Holder, tid: Id, sub: Subdomain)
    requires Unregisters(s, e, me, tid, sub)
    ensures HoldsRoute(s, me, sub, tid)
    ensures Next(cfg, s, e).tables.router == s.tables.router - {sub}
    ensures forall h, sub', tid': Id :: h != me && HoldsRoute(s, h, sub', tid') ==>
        HoldsRoute(Next(cfg, s, e), h, sub', tid')
  {
  }

  /** Unregistering by name, in closeTunnel and in Close, removes the closer's own tunnel and
      leaves the entry of every other owner alone. */
  lemma UnregisterRemovesOwnTunnel(cfg: Config, run: seq<Step>, e: Step, me: Holder, tid: Id, sub: Subdomain)
    requires Legal(cfg, INIT, run) && Unregisters(Final(cfg, INIT, run), e, me, tid, sub)
    ensures var s := Final(cfg, INIT, run);
            var t := Next(cfg, s, e);
            && At(s.tables.router, sub) == Some(tid)
            && sub !in t.tables.router
            && (forall h, sub', tid': Id :: h != me && HoldsRoute(s, h, sub', tid') ==>
                  At(t.tables.router, sub') == Some(tid') && HoldsRoute(t, h, sub', tid'))
  {
    var s := Final(cfg, INIT, run);
    UnregisterTouchesOneEntry(cfg, s, e, me, tid, sub);
    RoutesHaveOneOwner(cfg, run, sub);
    forall h, sub', tid': Id | h != me && HoldsRoute(s, h, sub', tid')
      ensures sub' != sub && At(s.tables.router, sub') == Some(tid')
    {
      RoutesHaveOneOwner(cfg, run, sub');
    }
  }

  /** A used port has one holder: an unfinished creation or one running loop; so no two running
      loops share a port, and every held port is in its range. */
  lemma PortsHaveOneOwner(cfg: Config, run: seq<Step>, p: Port)
    requires Legal(cfg, INIT, run)
    ensures var s := Final(cfg, INIT, run);
            && (p in s.tables.used <==> exists h :: HoldsPort(s, h, p))
            && (p in s.tables.used ==> InRange(cfg, p))
            && (forall h, h' :: HoldsPort(s, h, p) && HoldsPort(s, h', p) ==> h == h')
  {
    InitIsOwned(cfg);
    RunKeepsOwned(cfg, INIT, run);
    var s := Final(cfg, INIT, run);
    var ports :| PortHomes(cfg, s, ports);
    if p in s.tables.used {
      assert HoldsPort(s, ports[p], p);
    }
  }

  // ------------------------------------------------------- grants against releases

  predicate Grants(cfg: Config, s: State, e: Step, p: Port)
    requires Enabled(s, e)
  {
    e.Do? && s.work[e.th].Allocate? &&
    var a := Answered(cfg, s, s.work[e.th]);
    a.Granted? && p == Port(s.work[e.th].proto, a.port)
  }

  predicate Releases(s: State, e: Step, p: Port)
    requires Enabled(s, e)
  {
    (e.Do? && s.work[e.th] == GiveBack(p)) || (e.LoopEnds? && s.tables.running[e.loopId] == p)
  }

  function Granted(cfg: Config, s: State, run: seq<Step>, p: Port): nat
    requires Legal(cfg, s, run)
    decreases run
  {
    if run == [] then 0
    else (if Grants(cfg, s, run[0], p) then 1 else 0) + Granted(cfg, Next(cfg, s, run[0]), run[1..], p)
  }

  function Released(cfg: Config, s: State, run: seq<Step>, p: Port): nat
    requires Legal(cfg, s, run)
    decreases run
  {
    if run == [] then 0
    else (if Releases(s, run[0], p) then 1 else 0) + Released(cfg, Next(cfg, s, run[0]), run[1..], p)
  }

  function InUse(s: State, p: Port): int {
    if p in s.tables.used then 1 else 0
  }

  /** What a step did to the set of used ports, as far as p is concerned. */
  predicate Balances(cfg: Config, s: State, e: Step, p: Port)
    requires Enabled(s, e)
  {
    InUse(Next(cfg, s, e), p)
      == InUse(s, p) + (if Grants(cfg, s, e, p) then 1 else 0) - (if Releases(s, e, p) then 1 else 0)
  }

  lemma AllocationBalances(cfg: Config, s: State, e: Step, p: Port)
    requires Enabled(s, e) && e.Do? && s.work[e.th].Allocate?
    ensures Balances(cfg, s, e, p)
  {
    var w := s.work[e.th];
    var numbers := UsedNumbers(s.tables.used, w.proto);
    AllocationIsRight(RangeOf(cfg, w.proto), numbers, w.requested);
    assert p in s.tables.used && p.proto == w.proto ==> p.number in numbers;
  }

  lemma ReleaseBalances(cfg: Config, s: State, e: Step, p: Port)
    requires Enabled(s, e) && Releases(s, e, p) && Owned(cfg, s)
    ensures Balances(cfg, s, e, p)
  {
    ReleasedPortIsUsed(cfg, s, e, p);
  }

  lemma OtherWorkBalances(cfg: Config, s: State, e: Step, p: Port)
    requires Enabled(s, e) && e.Do? && !s.work[e.th].Allocate? && !Releases(s, e, p)
    ensures Balances(cfg, s, e, p)
  {
  }

  lemma StepBalances(cfg: Config, s: State, e: Step, p: Port)
    requires Enabled(s, e) && Owned(cfg, s)
    ensures Balances(cfg, s, e, p)
  {
    if e.Do? && s.work[e.th].Allocate? {
      AllocationBalances(cfg, s, e, p);
    } else if Releases(s, e, p) {
      ReleaseBalances(cfg, s, e, p);
    } else if e.Do? {
      OtherWorkBalances(cfg, s, e, p);
    } else {
      QuietStepBalances(cfg, s, e, p);
    }
  }

  lemma QuietStepBalances(cfg: Config, s: State, e: Step, p: Port)
    requires Enabled(s, e) && !e.Do? && !Releases(s, e, p)
    ensures Balances(cfg, s, e, p)
  {
  }

  lemma ReleasedPortIsUsed(cfg: Config, s: State, e: Step, p: Port)
    requires Enabled(s, e) && Releases(s, e, p) && Owned(cfg, s)
    ensures p in s.tables.used
  {
    var ports :| PortHomes(cfg, s, ports);
    assert HoldsPort(s, if e.Do? then Doing(e.th) else Serving(e.loopId), p);
  }

  /** Over any run a port is granted as often as it is released, plus once if it is still in
      use: no release is ever spent on a port somebody else was granted. */
  lemma {:induction false} GrantsMatchReleases(cfg: Config, s: State, run: seq<Step>, p: Port)
    requires Legal(cfg, s, run) && Owned(cfg, s)
    ensures InUse(s, p) + Granted(cfg, s, run, p) == Released(cfg, s, run, p) + InUse(Final(cfg, s, run), p)
    decreases run
  {
    if run != [] {
      StepBalances(cfg, s, run[0], p);
      StepKeepsTunnels(cfg, s, run[0]);
      StepKeepsPorts(cfg, s, run[0]);
      GrantsMatchReleases(cfg, Next(cfg, s, run[0]), run[1..], p);
    }
  }

  ghost predicate Held(s: State, p: Port) {
    exists h :: HoldsPort(s, h, p)
  }

  /** An automatic port request is refused exactly when its whole range is held. */
  lemma AutomaticPortFailsOnlyWhenFull(cfg: Config, run: seq<Step>, th: Thread, binds: bool)
    requires Legal(cfg, INIT, run)
    requires var s := Final(cfg, INIT, run); th in s.work && s.work[th].Allocate? && s.work[th].requested == 0
    ensures var s := Final(cfg, INIT, run);
            var proto := s.work[th].proto;
            th !in Next(cfg, s, Do(th, binds)).work <==>
              forall n :: RangeOf(cfg, proto).lo <= n <= RangeOf(cfg, proto).hi ==> Held(s, Port(proto, n))
  {
    var s := Final(cfg, INIT, run);
    var w := s.work[th];
    var numbers := UsedNumbers(s.tables.used, w.proto);
    AllocationIsRight(RangeOf(cfg, w.proto), numbers, 0);
    forall n ensures n in numbers <==> Held(s, Port(w.proto, n)) {
      PortsHaveOneOwner(cfg, run, Port(w.proto, n));
      assert n in numbers <==> Port(w.proto, n) in s.tables.used;
    }
  }
}
