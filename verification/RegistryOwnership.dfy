/** Every router entry, inspect buffer and used port has exactly one owner in every reachable
    state of the registry machine. The invariant names the owners by maps: from tunnels to their
    holders, and from ports to theirs. A step writes one thread, one client and the tables, so what
    the invariant says can be proved of one tunnel, one name or one port at a time, for that thread
    and that client only (HomeAt, RouteAt, BufferAt, PortAt); everything else is as it was. */
module RegistryOwnership {
  import opened Ports
  import opened Registry
  import opened Wrappers

  datatype Holder = Doing(th: Thread) | OnList(c: Id) | Serving(loopId: Id)

  // ------------------------------------------------- who holds what, read off the state

  /** The tunnel a Work item is about; at Spawn the client's map already lists it. */
  function Subject(w: Option<Work>): Option<Id> {
    if w == None then None
    else
      match w.value
      case MakeBuffer(t, _) => Some(t)
      case NoteUser(t, _) => Some(t)
      case Register(t, _) => Some(t)
      case Undo(t) => Some(t)
      case Publish(t, _) => Some(t)
      case PublishSocket(t, _) => Some(t)
      case Unroute(t, _) => Some(t)
      case Discard(t) => Some(t)
      case _ => None
  }

  predicate Has(k: Option<Client>, tid: Id) {
    k.Some? && tid in k.value.tunnels
  }

  predicate HoldsTunnel(s: State, h: Holder, tid: Id) {
    match h
    case Doing(th) => Subject(At(s.work, th)) == Some(tid)
    case OnList(c) => Has(At(s.clients, c), tid)
    case Serving(_) => false
  }

  /** A route belongs to its tunnel from Register's insertion until the unregistering step. */
  predicate WorkRoutes(w: Option<Work>, sub: Subdomain, tid: Id) {
    w == Some(Publish(tid, sub)) || w == Some(Unroute(tid, sub))
  }

  predicate ListRoutes(k: Option<Client>, sub: Subdomain, tid: Id) {
    && Has(k, tid) && k.value.tunnels[tid] == Http(sub)
    && k.value.sweep != Unrouted(tid) && k.value.sweep != Discarded(tid)
  }

  predicate HoldsRoute(s: State, h: Holder, sub: Subdomain, tid: Id) {
    match h
    case Doing(th) => WorkRoutes(At(s.work, th), sub, tid)
    case OnList(c) => ListRoutes(At(s.clients, c), sub, tid)
    case Serving(_) => false
  }

  // ------------------------------------------------------------------ invariant

  /** Facts about single clients and threads. */
  ghost predicate Orderly(s: State) {
    && (forall c :: c in s.clients ==> c < s.tables.nextId && SweepOk(s.clients[c]))
    && (forall th :: th in s.work ==> ThreadOk(th, s.work[th], At(s.clients, OwnClient(th))))
  }

  predicate SweepOk(k: Client) {
    k.sweep.Unrouted? || k.sweep.Discarded? ==> k.sweep.tid in k.tunnels && k.tunnels[k.sweep.tid].Http?
  }

  /** A message loop runs one Work item at a time; administrative calls only close. */
  predicate ThreadOk(th: Thread, w: Work, k: Option<Client>) {
    match th
    case MessageLoop(_) => k.Some? && k.value.loop.Working?
    case Admin(_) => w.Unroute? || w.Discard?
  }

  /** `home` gives each tunnel in existence its only holder. */
  ghost predicate Homes(s: State, home: map<Id, Holder>) {
    && (forall h, tid: Id :: HoldsTunnel(s, h, tid) <==> At(home, tid) == Some(h))
    && (forall tid :: tid in home ==> tid < s.tables.nextId)
  }

  /** How a step moves tunnels between holders. */
  function Moves(s: State, e: Step, home: map<Id, Holder>): map<Id, Holder>
    requires Enabled(s, e)
  {
    match e
    case Admit(c) =>
      if s.clients[c].loop.want.WantHttp? then home[s.tables.nextId := Doing(MessageLoop(c))] else home
    case ReceiveClose(c, tid) => Leaves(s, home, MessageLoop(c), s.clients[c], tid)
    case AdminClose(call, c, tid) => Leaves(s, home, Admin(call), s.clients[c], tid)
    case SweepDelete(_, tid) => home - {tid}
    case Do(th, binds) =>
      (match s.work[th]
       case Undo(tid) => home - {tid}
       case Discard(tid) => home - {tid}
       case Publish(tid, _) => home[tid := OnList(th.client)]
       case PublishSocket(tid, _) => home[tid := OnList(th.client)]
       case Listen(_) => if binds then home[s.tables.nextId := Doing(th)] else home
       case _ => home)
    case _ => home
  }

  function Leaves(s: State, home: map<Id, Holder>, th: Thread, k: Client, tid: Id): map<Id, Holder> {
    if tid !in k.tunnels then home
    else if k.tunnels[tid].Http? then home[tid := Doing(th)]
    else home - {tid}
  }

  // ------------------------------------------------------------- every step is local

  predicate Written(f: Effect, o: Option<Holder>) {
    o == None || o == Some(Doing(f.th)) || o == Some(OnList(f.c))
  }

  /** The Homes facts at tunnel x for the thread and the client an effect writes. */
  predicate HomeAt(f: Effect, home: map<Id, Holder>, home': map<Id, Holder>, x: Id) {
    && (Subject(f.work) == Some(x) <==> At(home', x) == Some(Doing(f.th)))
    && (Has(f.client, x) <==> At(home', x) == Some(OnList(f.c)))
    && (At(home', x) == At(home, x) || (Written(f, At(home, x)) && Written(f, At(home', x))))
    && (x in home' ==> x < f.tables.nextId)
  }

  lemma HomesFromEffect(s: State, f: Effect, home: map<Id, Holder>, home': map<Id, Holder>)
    requires Homes(s, home) && forall x: Id :: HomeAt(f, home, home', x)
    ensures Homes(Apply(s, f), home')
  {
    var t := Apply(s, f);
    forall h, x: Id ensures HoldsTunnel(t, h, x) <==> At(home', x) == Some(h) {
      assert HoldsTunnel(s, h, x) <==> At(home, x) == Some(h);
      assert HomeAt(f, home, home', x);
    }
    forall x | x in home' ensures x < t.tables.nextId {
      assert HomeAt(f, home, home', x);
    }
  }

  lemma TakeHome(s: State, th: Thread, c: Id, tid: Id, home: map<Id, Holder>, x: Id)
    requires Homes(s, home) && c in s.clients && th !in s.work
    ensures HomeAt(Take(s, th, c, s.clients[c], tid), home, Leaves(s, home, th, s.clients[c], tid), x)
  {
    assert HoldsTunnel(s, Doing(th), x) <==> At(home, x) == Some(Doing(th));
    assert HoldsTunnel(s, OnList(c), x) <==> At(home, x) == Some(OnList(c));
  }

  /** The Homes facts at tunnel x for one thread and its client. */
  predicate HomeFacts(s: State, th: Thread, home: map<Id, Holder>, x: Id) {
    && (Subject(At(s.work, th)) == Some(x) <==> At(home, x) == Some(Doing(th)))
    && (Has(At(s.clients, OwnClient(th)), x) <==> At(home, x) == Some(OnList(OwnClient(th))))
    && (x in home ==> x < s.tables.nextId)
  }

  lemma HttpHome(inspect: bool, s: State, th: Thread, binds: bool, home: map<Id, Holder>, x: Id)
    requires MayDo(s, th) && !AboutSocket(s.work[th]) && ThreadOk(th, s.work[th], At(s.clients, OwnClient(th)))
    requires HomeFacts(s, th, home, x)
    ensures HomeAt(HttpEffect(inspect, s, th), home, Moves(s, Do(th, binds), home), x)
  {
  }

  lemma SocketHome(s: State, th: Thread, answer: Answer, binds: bool, home: map<Id, Holder>, x: Id)
    requires MayDo(s, th) && AboutSocket(s.work[th]) && ThreadOk(th, s.work[th], At(s.clients, OwnClient(th)))
    requires HomeFacts(s, th, home, x)
    ensures HomeAt(SocketEffect(s, th, answer, binds), home, Moves(s, Do(th, binds), home), x)
  {
  }

  lemma WorkHome(cfg: Config, s: State, th: Thread, binds: bool, home: map<Id, Holder>, x: Id)
    requires MayDo(s, th) && Homes(s, home) && Orderly(s)
    ensures HomeAt(EffectOf(cfg, s, Do(th, binds)), home, Moves(s, Do(th, binds), home), x)
  {
    assert HoldsTunnel(s, Doing(th), x) <==> At(home, x) == Some(Doing(th));
    assert HoldsTunnel(s, OnList(OwnClient(th)), x) <==> At(home, x) == Some(OnList(OwnClient(th)));
    if AboutSocket(s.work[th]) {
      SocketHome(s, th, Answered(cfg, s, s.work[th]), binds, home, x);
    } else {
      HttpHome(cfg.inspect, s, th, binds, home, x);
    }
    assert EffectOf(cfg, s, Do(th, binds)) == WorkEffect(cfg, s, th, binds);
  }

  lemma StepHome(cfg: Config, s: State, e: Step, home: map<Id, Holder>, x: Id)
    requires Enabled(s, e) && Homes(s, home) && Orderly(s)
    ensures HomeAt(EffectOf(cfg, s, e), home, Moves(s, e, home), x)
  {
    if e.Do? {
      WorkHome(cfg, s, e.th, e.binds, home, x);
    } else if e.ReceiveClose? || e.AdminClose? {
      TakesHome(cfg, s, e, home, x);
    } else if OfClose(e) {
      SweepHome(cfg, s, e, home, x);
    } else {
      LoopHome(cfg, s, e, home, x);
    }
  }

  lemma TakesHome(cfg: Config, s: State, e: Step, home: map<Id, Holder>, x: Id)
    requires Enabled(s, e) && (e.ReceiveClose? || e.AdminClose?) && Homes(s, home) && Orderly(s)
    ensures HomeAt(EffectOf(cfg, s, e), home, Moves(s, e, home), x)
  {
    if e.ReceiveClose? { LoopIsFree(s, e.c); }
    TakeHome(s, if e.ReceiveClose? then MessageLoop(e.c) else Admin(e.call), e.c, e.tid, home, x);
  }

  /** The steps of a message loop that neither close a tunnel nor run Work. */
  predicate OfLoop(e: Step) {
    !e.Do? && !e.ReceiveClose? && !e.AdminClose? && !OfClose(e)
  }

  lemma LoopHome(cfg: Config, s: State, e: Step, home: map<Id, Holder>, x: Id)
    requires Enabled(s, e) && OfLoop(e) && Homes(s, home) && Orderly(s)
    ensures HomeAt(EffectOf(cfg, s, e), home, Moves(s, e, home), x)
  {
    var f := EffectOf(cfg, s, e);
    if e.Admit? { LoopIsFree(s, e.c); }
    assert s.tables.nextId !in home && s.tables.nextId !in s.clients;
    assert HoldsTunnel(s, Doing(f.th), x) <==> At(home, x) == Some(Doing(f.th));
    assert HoldsTunnel(s, OnList(f.c), x) <==> At(home, x) == Some(OnList(f.c));
  }

  lemma SweepHome(cfg: Config, s: State, e: Step, home: map<Id, Holder>, x: Id)
    requires Enabled(s, e) && OfClose(e) && Homes(s, home) && Orderly(s)
    ensures HomeAt(EffectOf(cfg, s, e), home, Moves(s, e, home), x)
  {
    assert EffectOf(cfg, s, e) == SweepEffect(s, e);
    assert HoldsTunnel(s, Doing(MessageLoop(e.c)), x) <==> At(home, x) == Some(Doing(MessageLoop(e.c)));
    assert HoldsTunnel(s, OnList(e.c), x) <==> At(home, x) == Some(OnList(e.c));
  }

  lemma LoopIsFree(s: State, c: Id)
    requires Orderly(s) && c in s.clients && !s.clients[c].loop.Working?
    ensures MessageLoop(c) !in s.work
  {
    assert MessageLoop(c) in s.work ==> ThreadOk(MessageLoop(c), s.work[MessageLoop(c)], At(s.clients, c));
  }

  /** The order facts, for the one thread and the one client an effect writes. */
  predicate OrderAt(s: State, f: Effect) {
    && s.tables.nextId <= f.tables.nextId
    && (f.client.Some? ==> f.c < f.tables.nextId && SweepOk(f.client.value))
    && (f.work.Some? ==>
          ThreadOk(f.th, f.work.value, if OwnClient(f.th) == f.c then f.client else At(s.clients, OwnClient(f.th))))
    && (f.th != MessageLoop(f.c) && MessageLoop(f.c) in s.work ==> f.client.Some? && f.client.value.loop.Working?)
  }

  lemma OrderFromEffect(s: State, f: Effect)
    requires Orderly(s) && OrderAt(s, f)
    ensures Orderly(Apply(s, f))
  {
    var t := Apply(s, f);
    forall th | th in t.work ensures ThreadOk(th, t.work[th], At(t.clients, OwnClient(th))) {
      assert th != f.th ==> ThreadOk(th, s.work[th], At(s.clients, OwnClient(th)));
    }
  }

  lemma HttpOrder(inspect: bool, s: State, th: Thread)
    requires MayDo(s, th) && !AboutSocket(s.work[th]) && Orderly(s)
    ensures OrderAt(s, HttpEffect(inspect, s, th))
  {
    assert ThreadOk(th, s.work[th], At(s.clients, OwnClient(th)));
    LoopOfZero(s);
  }

  lemma SocketOrder(s: State, th: Thread, answer: Answer, binds: bool)
    requires MayDo(s, th) && AboutSocket(s.work[th]) && Orderly(s)
    ensures OrderAt(s, SocketEffect(s, th, answer, binds))
  {
    assert ThreadOk(th, s.work[th], At(s.clients, OwnClient(th)));
  }

  lemma LoopOfZero(s: State)
    requires Orderly(s)
    ensures MessageLoop(0) in s.work ==> 0 in s.clients && s.clients[0].loop.Working?
  {
    if MessageLoop(0) in s.work {
      assert ThreadOk(MessageLoop(0), s.work[MessageLoop(0)], At(s.clients, 0));
    }
  }

  lemma StepOrder(cfg: Config, s: State, e: Step)
    requires Enabled(s, e) && Orderly(s)
    ensures OrderAt(s, EffectOf(cfg, s, e))
  {
    if e.Do? {
      WorkOrder(cfg, s, e.th, e.binds);
    } else {
      CallOrder(cfg, s, e);
    }
  }

  lemma WorkOrder(cfg: Config, s: State, th: Thread, binds: bool)
    requires MayDo(s, th) && Orderly(s)
    ensures OrderAt(s, EffectOf(cfg, s, Do(th, binds)))
  {
    if AboutSocket(s.work[th]) {
      SocketOrder(s, th, Answered(cfg, s, s.work[th]), binds);
    } else {
      HttpOrder(cfg.inspect, s, th);
    }
    assert EffectOf(cfg, s, Do(th, binds)) == WorkEffect(cfg, s, th, binds);
  }

  lemma CallOrder(cfg: Config, s: State, e: Step)
    requires Enabled(s, e) && !e.Do? && Orderly(s)
    ensures OrderAt(s, EffectOf(cfg, s, e))
  {
    LoopOfZero(s);
    if OfClose(e) {
      CloseOrder(cfg, s, e);
    } else {
      LoopOrder(cfg, s, e);
    }
  }

  lemma CloseOrder(cfg: Config, s: State, e: Step)
    requires Enabled(s, e) && OfClose(e) && Orderly(s)
    ensures OrderAt(s, EffectOf(cfg, s, e))
  {
    assert EffectOf(cfg, s, e) == SweepEffect(s, e);
    if !s.clients[e.c].loop.Working? { LoopIsFree(s, e.c); }
  }

  lemma LoopOrder(cfg: Config, s: State, e: Step)
    requires Enabled(s, e) && !e.Do? && !OfClose(e) && Orderly(s)
    requires MessageLoop(0) in s.work ==> 0 in s.clients && s.clients[0].loop.Working?
    ensures OrderAt(s, EffectOf(cfg, s, e))
  {
    var c := EffectOf(cfg, s, e).c;
    if c in s.clients && !s.clients[c].loop.Working? { LoopIsFree(s, c); }
  }

  // ------------------------------------------------------------------------ routes

  ghost predicate Routes(s: State, home: map<Id, Holder>) {
    && (forall h, sub, tid: Id :: HoldsRoute(s, h, sub, tid) ==> At(s.tables.router, sub) == Some(tid))
    && (forall sub :: sub in s.tables.router ==> Routed(s, home, sub))
  }

  predicate Routed(s: State, home: map<Id, Holder>, sub: Subdomain)
    requires sub in s.tables.router
  {
    var tid := s.tables.router[sub];
    tid in home && HoldsRoute(s, home[tid], sub, tid)
  }

  /** The Routes facts at one subdomain for the thread and the client an effect writes. */
  ghost predicate RouteAt(s: State, f: Effect, home: map<Id, Holder>, home': map<Id, Holder>, sub: Subdomain) {
    var old', new' := At(s.tables.router, sub), At(f.tables.router, sub);
    && (forall tid: Id :: WorkRoutes(f.work, sub, tid) || ListRoutes(f.client, sub, tid) ==> new' == Some(tid))
    && (old' == new' || old' == None || (old'.value in home && Written(f, At(home, old'.value))))
    && (new'.Some? ==>
          match At(home', new'.value)
          case None => false
          case Some(h) =>
            if h == Doing(f.th) then WorkRoutes(f.work, sub, new'.value)
            else if h == OnList(f.c) then ListRoutes(f.client, sub, new'.value)
            else old' == new' && At(home, new'.value) == Some(h))
  }

  lemma RoutesFromEffect(s: State, f: Effect, home: map<Id, Holder>, home': map<Id, Holder>)
    requires Homes(s, home) && Routes(s, home) && forall sub :: RouteAt(s, f, home, home', sub)
    ensures Routes(Apply(s, f), home')
  {
    var t := Apply(s, f);
    forall h, sub, tid: Id | HoldsRoute(t, h, sub, tid) ensures At(t.tables.router, sub) == Some(tid) {
      HolderFromEffect(s, f, home, home', h, sub, tid);
    }
    forall sub | sub in t.tables.router ensures Routed(t, home', sub) {
      assert RouteAt(s, f, home, home', sub);
      assert sub in s.tables.router ==> Routed(s, home, sub);
    }
  }

  lemma HolderFromEffect(s: State, f: Effect, home: map<Id, Holder>, home': map<Id, Holder>, h: Holder, sub: Subdomain,
                         tid: Id)
    requires Homes(s, home) && Routes(s, home) && RouteAt(s, f, home, home', sub)
    requires HoldsRoute(Apply(s, f), h, sub, tid)
    ensures At(f.tables.router, sub) == Some(tid)
  {
    if h != Doing(f.th) && h != OnList(f.c) {
      assert HoldsRoute(s, h, sub, tid) && HoldsTunnel(s, h, tid);
    }
  }

  /** What the invariant says at one subdomain about a thread and a client. */
  ghost predicate RoutesOf(s: State, th: Thread, c: Id, home: map<Id, Holder>, sub: Subdomain) {
    && (forall tid: Id :: WorkRoutes(At(s.work, th), sub, tid) || ListRoutes(At(s.clients, c), sub, tid) ==>
          At(s.tables.router, sub) == Some(tid))
    && (forall tid: Id :: Subject(At(s.work, th)) == Some(tid) <==> At(home, tid) == Some(Doing(th)))
    && (forall tid: Id :: Has(At(s.clients, c), tid) <==> At(home, tid) == Some(OnList(c)))
    && (sub in s.tables.router ==> Routed(s, home, sub))
    && s.tables.nextId !in home
  }

  lemma RouteFacts(s: State, th: Thread, c: Id, home: map<Id, Holder>, sub: Subdomain)
    requires Homes(s, home) && Routes(s, home)
    ensures RoutesOf(s, th, c, home, sub)
  {
    forall tid: Id | WorkRoutes(At(s.work, th), sub, tid) || ListRoutes(At(s.clients, c), sub, tid)
      ensures At(s.tables.router, sub) == Some(tid)
    {
      assert HoldsRoute(s, Doing(th), sub, tid) || HoldsRoute(s, OnList(c), sub, tid);
    }
    forall tid: Id ensures Subject(At(s.work, th)) == Some(tid) <==> At(home, tid) == Some(Doing(th)) {
      assert HoldsTunnel(s, Doing(th), tid) <==> At(home, tid) == Some(Doing(th));
    }
    forall tid: Id ensures Has(At(s.clients, c), tid) <==> At(home, tid) == Some(OnList(c)) {
      assert HoldsTunnel(s, OnList(c), tid) <==> At(home, tid) == Some(OnList(c));
    }
  }

  /** The sections that leave the router alone. */
  lemma HttpKeepsRoute(inspect: bool, s: State, th: Thread, binds: bool, home: map<Id, Holder>, sub: Subdomain)
    requires MayDo(s, th)
    requires s.work[th].MakeBuffer? || s.work[th].NoteUser? || s.work[th].Undo? || s.work[th].Discard?
    requires ThreadOk(th, s.work[th], At(s.clients, OwnClient(th))) && RoutesOf(s, th, OwnClient(th), home, sub)
    ensures RouteAt(s, HttpEffect(inspect, s, th), home, Moves(s, Do(th, binds), home), sub)
  {
  }

  lemma RegisterRoute(inspect: bool, s: State, th: Thread, binds: bool, home: map<Id, Holder>, sub: Subdomain)
    requires MayDo(s, th) && s.work[th].Register?
    requires ThreadOk(th, s.work[th], At(s.clients, OwnClient(th))) && RoutesOf(s, th, OwnClient(th), home, sub)
    ensures RouteAt(s, HttpEffect(inspect, s, th), home, Moves(s, Do(th, binds), home), sub)
  {
  }

  lemma PublishRoute(inspect: bool, s: State, th: Thread, binds: bool, home: map<Id, Holder>, sub: Subdomain)
    requires MayDo(s, th) && s.work[th].Publish?
    requires ThreadOk(th, s.work[th], At(s.clients, OwnClient(th))) && RoutesOf(s, th, OwnClient(th), home, sub)
    ensures RouteAt(s, HttpEffect(inspect, s, th), home, Moves(s, Do(th, binds), home), sub)
  {
  }

  lemma UnrouteRoute(inspect: bool, s: State, th: Thread, binds: bool, home: map<Id, Holder>, sub: Subdomain)
    requires MayDo(s, th) && s.work[th].Unroute?
    requires ThreadOk(th, s.work[th], At(s.clients, OwnClient(th))) && RoutesOf(s, th, OwnClient(th), home, sub)
    ensures RouteAt(s, HttpEffect(inspect, s, th), home, Moves(s, Do(th, binds), home), sub)
  {
  }

  lemma PortKeepsRoute(s: State, th: Thread, answer: Answer, binds: bool, home: map<Id, Holder>, sub: Subdomain)
    requires MayDo(s, th) && (s.work[th].Allocate? || s.work[th].Listen? || s.work[th].GiveBack?)
    requires ThreadOk(th, s.work[th], At(s.clients, OwnClient(th))) && RoutesOf(s, th, OwnClient(th), home, sub)
    ensures RouteAt(s, SocketEffect(s, th, answer, binds), home, Moves(s, Do(th, binds), home), sub)
  {
  }

  lemma SocketKeepsRoute(s: State, th: Thread, answer: Answer, binds: bool, home: map<Id, Holder>, sub: Subdomain)
    requires MayDo(s, th) && (s.work[th].PublishSocket? || s.work[th].Spawn?)
    requires ThreadOk(th, s.work[th], At(s.clients, OwnClient(th))) && RoutesOf(s, th, OwnClient(th), home, sub)
    ensures RouteAt(s, SocketEffect(s, th, answer, binds), home, Moves(s, Do(th, binds), home), sub)
  {
  }

  lemma TakeRoute(s: State, th: Thread, c: Id, tid: Id, home: map<Id, Holder>, sub: Subdomain)
    requires Homes(s, home) && Routes(s, home) && c in s.clients && !Locked(s.clients[c]) && th !in s.work
    ensures RouteAt(s, Take(s, th, c, s.clients[c], tid), home, Leaves(s, home, th, s.clients[c], tid), sub)
  {
    RouteFacts(s, th, c, home, sub);
  }

  lemma SweepUnrouteRoute(s: State, e: Step, home: map<Id, Holder>, sub: Subdomain)
    requires Enabled(s, e) && e.SweepUnroute? && Homes(s, home) && Routes(s, home) && Orderly(s)
    ensures RouteAt(s, SweepEffect(s, e), home, Moves(s, e, home), sub)
  {
    RouteFacts(s, MessageLoop(e.c), e.c, home, sub);
    assert Has(At(s.clients, e.c), e.tid);
    assert ListRoutes(At(s.clients, e.c), s.clients[e.c].tunnels[e.tid].sub, e.tid);
    assert HoldsRoute(s, OnList(e.c), s.clients[e.c].tunnels[e.tid].sub, e.tid);
  }

  lemma SweepTakesTunnelRoute(s: State, e: Step, home: map<Id, Holder>, sub: Subdomain)
    requires Enabled(s, e) && (e.SweepDiscard? || e.SweepDelete?) && Homes(s, home) && Routes(s, home) && Orderly(s)
    ensures RouteAt(s, SweepEffect(s, e), home, Moves(s, e, home), sub)
  {
    RouteFacts(s, MessageLoop(e.c), e.c, home, sub);
  }

  lemma SweepKeepsRoute(s: State, e: Step, home: map<Id, Holder>, sub: Subdomain)
    requires Enabled(s, e) && OfClose(e) && !e.SweepUnroute? && !e.SweepDiscard? && !e.SweepDelete?
    requires SweepOk(s.clients[e.c]) && RoutesOf(s, MessageLoop(e.c), e.c, home, sub)
    ensures RouteAt(s, SweepEffect(s, e), home, Moves(s, e, home), sub)
  {
  }

  lemma SweepRoute(cfg: Config, s: State, e: Step, home: map<Id, Holder>, sub: Subdomain)
    requires Enabled(s, e) && OfClose(e) && Homes(s, home) && Routes(s, home) && Orderly(s)
    ensures RouteAt(s, EffectOf(cfg, s, e), home, Moves(s, e, home), sub)
  {
    if e.SweepUnroute? {
      SweepUnrouteRoute(s, e, home, sub);
    } else if e.SweepDiscard? || e.SweepDelete? {
      SweepTakesTunnelRoute(s, e, home, sub);
    } else {
      RouteFacts(s, MessageLoop(e.c), e.c, home, sub);
      SweepKeepsRoute(s, e, home, sub);
    }
    assert EffectOf(cfg, s, e) == SweepEffect(s, e);
  }

  lemma WorkRoute(cfg: Config, s: State, th: Thread, binds: bool, home: map<Id, Holder>, sub: Subdomain)
    requires MayDo(s, th) && Homes(s, home) && Routes(s, home) && Orderly(s)
    ensures RouteAt(s, EffectOf(cfg, s, Do(th, binds)), home, Moves(s, Do(th, binds), home), sub)
  {
    assert ThreadOk(th, s.work[th], At(s.clients, OwnClient(th)));
    RouteFacts(s, th, OwnClient(th), home, sub);
    if AboutSocket(s.work[th]) {
      SocketRoute(s, th, Answered(cfg, s, s.work[th]), binds, home, sub);
    } else {
      HttpRoute(cfg.inspect, s, th, binds, home, sub);
    }
    assert EffectOf(cfg, s, Do(th, binds)) == WorkEffect(cfg, s, th, binds);
  }

  lemma SocketRoute(s: State, th: Thread, answer: Answer, binds: bool, home: map<Id, Holder>, sub: Subdomain)
    requires MayDo(s, th) && AboutSocket(s.work[th])
    requires ThreadOk(th, s.work[th], At(s.clients, OwnClient(th))) && RoutesOf(s, th, OwnClient(th), home, sub)
    ensures RouteAt(s, SocketEffect(s, th, answer, binds), home, Moves(s, Do(th, binds), home), sub)
  {
    if s.work[th].PublishSocket? || s.work[th].Spawn? {
      SocketKeepsRoute(s, th, answer, binds, home, sub);
    } else {
      PortKeepsRoute(s, th, answer, binds, home, sub);
    }
  }

  lemma HttpRoute(inspect: bool, s: State, th: Thread, binds: bool, home: map<Id, Holder>, sub: Subdomain)
    requires MayDo(s, th) && !AboutSocket(s.work[th])
    requires ThreadOk(th, s.work[th], At(s.clients, OwnClient(th))) && RoutesOf(s, th, OwnClient(th), home, sub)
    ensures RouteAt(s, HttpEffect(inspect, s, th), home, Moves(s, Do(th, binds), home), sub)
  {
    var w := s.work[th];
    if w.Register? {
      RegisterRoute(inspect, s, th, binds, home, sub);
    } else if w.Publish? {
      PublishRoute(inspect, s, th, binds, home, sub);
    } else if w.Unroute? {
      UnrouteRoute(inspect, s, th, binds, home, sub);
    } else {
      HttpKeepsRoute(inspect, s, th, binds, home, sub);
    }
  }

  lemma StepRoute(cfg: Config, s: State, e: Step, home: map<Id, Holder>, sub: Subdomain)
    requires Enabled(s, e) && Homes(s, home) && Routes(s, home) && Orderly(s)
    ensures RouteAt(s, EffectOf(cfg, s, e), home, Moves(s, e, home), sub)
  {
    if e.Do? {
      WorkRoute(cfg, s, e.th, e.binds, home, sub);
    } else if e.ReceiveClose? || e.AdminClose? {
      TakesRoute(cfg, s, e, home, sub);
    } else if OfClose(e) {
      SweepRoute(cfg, s, e, home, sub);
    } else {
      LoopRoute(cfg, s, e, home, sub);
    }
  }

  lemma TakesRoute(cfg: Config, s: State, e: Step, home: map<Id, Holder>, sub: Subdomain)
    requires Enabled(s, e) && (e.ReceiveClose? || e.AdminClose?) && Homes(s, home) && Routes(s, home) && Orderly(s)
    ensures RouteAt(s, EffectOf(cfg, s, e), home, Moves(s, e, home), sub)
  {
    if e.ReceiveClose? { LoopIsFree(s, e.c); }
    TakeRoute(s, if e.ReceiveClose? then MessageLoop(e.c) else Admin(e.call), e.c, e.tid, home, sub);
  }

  lemma LoopRoute(cfg: Config, s: State, e: Step, home: map<Id, Holder>, sub: Subdomain)
    requires Enabled(s, e) && OfLoop(e) && Homes(s, home) && Routes(s, home) && Orderly(s)
    ensures RouteAt(s, EffectOf(cfg, s, e), home, Moves(s, e, home), sub)
  {
    RouteFacts(s, EffectOf(cfg, s, e).th, EffectOf(cfg, s, e).c, home, sub);
    if e.Admit? {
      LoopIsFree(s, e.c);
      AdmitRoute(cfg, s, e, home, sub);
    } else {
      assert s.tables.nextId !in s.clients;
      LoopKeepsRoute(cfg, s, e, home, sub);
    }
  }

  lemma AdmitRoute(cfg: Config, s: State, e: Step, home: map<Id, Holder>, sub: Subdomain)
    requires Enabled(s, e) && e.Admit? && MessageLoop(e.c) !in s.work && RoutesOf(s, MessageLoop(e.c), e.c, home, sub)
    ensures RouteAt(s, EffectOf(cfg, s, e), home, Moves(s, e, home), sub)
  {
  }

  lemma LoopKeepsRoute(cfg: Config, s: State, e: Step, home: map<Id, Holder>, sub: Subdomain)
    requires Enabled(s, e) && OfLoop(e) && !e.Admit? && s.tables.nextId !in s.clients
    requires RoutesOf(s, EffectOf(cfg, s, e).th, EffectOf(cfg, s, e).c, home, sub)
    ensures RouteAt(s, EffectOf(cfg, s, e), home, Moves(s, e, home), sub)
  {
  }

  // ----------------------------------------------------------------- inspect buffers

  /** A buffer belongs to its tunnel from its creation until the removing step. */
  predicate WorkBuffers(w: Option<Work>, tid: Id) {
    Subject(w) == Some(tid) && !w.value.MakeBuffer? && !w.value.PublishSocket?
  }

  predicate ListBuffers(k: Option<Client>, tid: Id) {
    Has(k, tid) && k.value.tunnels[tid].Http? && k.value.sweep != Discarded(tid)
  }

  predicate HoldsBuffer(s: State, h: Holder, tid: Id) {
    match h
    case Doing(th) => WorkBuffers(At(s.work, th), tid)
    case OnList(c) => ListBuffers(At(s.clients, c), tid)
    case Serving(_) => false
  }

  /** With inspection off no buffer is ever made, so holders need not have one. */
  predicate Expected(inspect: bool, s: State, h: Holder) {
    inspect || (h.Doing? && h.th in s.work && s.work[h.th].NoteUser?)
  }

  ghost predicate Buffers(inspect: bool, s: State, home: map<Id, Holder>) {
    && (forall h, tid: Id :: HoldsBuffer(s, h, tid) && Expected(inspect, s, h) ==> tid in s.tables.buffers)
    && (forall tid: Id :: tid in s.tables.buffers ==> tid in home && HoldsBuffer(s, home[tid], tid))
    && s.tables.bufferUsers.Keys <= s.tables.buffers
  }

  predicate BufferAt(inspect: bool, s: State, f: Effect, home: map<Id, Holder>, home': map<Id, Holder>, tid: Id) {
    var new' := tid in f.tables.buffers;
    && (WorkBuffers(f.work, tid) && (inspect || f.work.value.NoteUser?) ==> new')
    && (ListBuffers(f.client, tid) && inspect ==> new')
    && ((tid in s.tables.buffers) == new' || Written(f, At(home, tid)))
    && (new' ==>
          match At(home', tid)
          case None => false
          case Some(h) =>
            if h == Doing(f.th) then WorkBuffers(f.work, tid)
            else if h == OnList(f.c) then ListBuffers(f.client, tid)
            else tid in s.tables.buffers && At(home, tid) == Some(h))
    && (tid in f.tables.bufferUsers ==> new')
  }

  lemma BuffersFromEffect(inspect: bool, s: State, f: Effect, home: map<Id, Holder>, home': map<Id, Holder>)
    requires Homes(s, home) && Buffers(inspect, s, home)
    requires forall tid: Id :: BufferAt(inspect, s, f, home, home', tid)
    ensures Buffers(inspect, Apply(s, f), home')
  {
    var t := Apply(s, f);
    forall h, tid: Id | HoldsBuffer(t, h, tid) && Expected(inspect, t, h) ensures tid in t.tables.buffers {
      assert BufferAt(inspect, s, f, home, home', tid);
      if h != Doing(f.th) && h != OnList(f.c) {
        assert HoldsBuffer(s, h, tid) && HoldsTunnel(s, h, tid);
      }
    }
    forall tid: Id | tid in t.tables.buffers ensures tid in home' && HoldsBuffer(t, home'[tid], tid) {
      assert BufferAt(inspect, s, f, home, home', tid);
    }
    forall tid: Id | tid in t.tables.bufferUsers ensures tid in t.tables.buffers {
      assert BufferAt(inspect, s, f, home, home', tid);
    }
  }

  /** What the invariant says at one tunnel about a thread and a client. */
  predicate BuffersOf(inspect: bool, s: State, th: Thread, c: Id, home: map<Id, Holder>, tid: Id) {
    && (Subject(At(s.work, th)) == Some(tid) <==> At(home, tid) == Some(Doing(th)))
    && (Has(At(s.clients, c), tid) <==> At(home, tid) == Some(OnList(c)))
    && (WorkBuffers(At(s.work, th), tid) && (inspect || s.work[th].NoteUser?) ==> tid in s.tables.buffers)
    && (ListBuffers(At(s.clients, c), tid) && inspect ==> tid in s.tables.buffers)
    && (tid in s.tables.buffers ==> tid in home && HoldsBuffer(s, home[tid], tid))
    && (tid in s.tables.bufferUsers ==> tid in s.tables.buffers)
  }

  lemma BufferFacts(inspect: bool, s: State, th: Thread, c: Id, home: map<Id, Holder>, tid: Id)
    requires Homes(s, home) && Buffers(inspect, s, home)
    ensures BuffersOf(inspect, s, th, c, home, tid)
  {
    assert HoldsTunnel(s, Doing(th), tid) <==> At(home, tid) == Some(Doing(th));
    assert HoldsTunnel(s, OnList(c), tid) <==> At(home, tid) == Some(OnList(c));
    assert HoldsBuffer(s, Doing(th), tid) && Expected(inspect, s, Doing(th)) ==> tid in s.tables.buffers;
    assert HoldsBuffer(s, OnList(c), tid) && Expected(inspect, s, OnList(c)) ==> tid in s.tables.buffers;
  }

  lemma HttpBuffer(inspect: bool, s: State, th: Thread, binds: bool, home: map<Id, Holder>, tid: Id)
    requires MayDo(s, th) && !AboutSocket(s.work[th]) && ThreadOk(th, s.work[th], At(s.clients, OwnClient(th)))
    requires BuffersOf(inspect, s, th, OwnClient(th), home, tid)
    requires BuffersOf(inspect, s, th, OwnClient(th), home, s.work[th].tid)
    ensures BufferAt(inspect, s, HttpEffect(inspect, s, th), home, Moves(s, Do(th, binds), home), tid)
  {
    if s.work[th].Undo? || s.work[th].Discard? {
      HttpDropsBuffer(inspect, s, th, binds, home, tid);
    } else {
      HttpMakesBuffer(inspect, s, th, binds, home, tid);
    }
  }

  lemma HttpDropsBuffer(inspect: bool, s: State, th: Thread, binds: bool, home: map<Id, Holder>, tid: Id)
    requires MayDo(s, th) && (s.work[th].Undo? || s.work[th].Discard?)
    requires ThreadOk(th, s.work[th], At(s.clients, OwnClient(th)))
    requires BuffersOf(inspect, s, th, OwnClient(th), home, tid)
    ensures BufferAt(inspect, s, HttpEffect(inspect, s, th), home, Moves(s, Do(th, binds), home), tid)
  {
  }

  lemma HttpMakesBuffer(inspect: bool, s: State, th: Thread, binds: bool, home: map<Id, Holder>, tid: Id)
    requires MayDo(s, th) && !AboutSocket(s.work[th]) && !s.work[th].Undo? && !s.work[th].Discard?
    requires ThreadOk(th, s.work[th], At(s.clients, OwnClient(th)))
    requires BuffersOf(inspect, s, th, OwnClient(th), home, tid)
    requires BuffersOf(inspect, s, th, OwnClient(th), home, s.work[th].tid)
    ensures BufferAt(inspect, s, HttpEffect(inspect, s, th), home, Moves(s, Do(th, binds), home), tid)
  {
  }

  lemma SocketBuffer(inspect: bool, s: State, th: Thread, answer: Answer, binds: bool, home: map<Id, Holder>, tid: Id)
    requires MayDo(s, th) && AboutSocket(s.work[th]) && ThreadOk(th, s.work[th], At(s.clients, OwnClient(th)))
    requires BuffersOf(inspect, s, th, OwnClient(th), home, tid) && s.tables.nextId !in home
    ensures BufferAt(inspect, s, SocketEffect(s, th, answer, binds), home, Moves(s, Do(th, binds), home), tid)
  {
    if s.work[th].Listen? || s.work[th].PublishSocket? {
      SocketMovesNoBuffer(inspect, s, th, answer, binds, home, tid);
    } else {
      PortMovesNoBuffer(inspect, s, th, answer, binds, home, tid);
    }
  }

  lemma SocketMovesNoBuffer(inspect: bool, s: State, th: Thread, answer: Answer, binds: bool, home: map<Id, Holder>,
                            tid: Id)
    requires MayDo(s, th) && (s.work[th].Listen? || s.work[th].PublishSocket?)
    requires ThreadOk(th, s.work[th], At(s.clients, OwnClient(th)))
    requires BuffersOf(inspect, s, th, OwnClient(th), home, tid) && s.tables.nextId !in home
    ensures BufferAt(inspect, s, SocketEffect(s, th, answer, binds), home, Moves(s, Do(th, binds), home), tid)
  {
  }

  lemma PortMovesNoBuffer(inspect: bool, s: State, th: Thread, answer: Answer, binds: bool, home: map<Id, Holder>,
                          tid: Id)
    requires MayDo(s, th) && (s.work[th].Allocate? || s.work[th].GiveBack? || s.work[th].Spawn?)
    requires ThreadOk(th, s.work[th], At(s.clients, OwnClient(th)))
    requires BuffersOf(inspect, s, th, OwnClient(th), home, tid)
    ensures BufferAt(inspect, s, SocketEffect(s, th, answer, binds), home, Moves(s, Do(th, binds), home), tid)
  {
  }

  lemma TakeBuffer(inspect: bool, s: State, th: Thread, c: Id, x: Id, home: map<Id, Holder>, tid: Id)
    requires Homes(s, home) && Buffers(inspect, s, home)
    requires c in s.clients && !Locked(s.clients[c]) && th !in s.work
    ensures BufferAt(inspect, s, Take(s, th, c, s.clients[c], x), home, Leaves(s, home, th, s.clients[c], x), tid)
  {
    BufferFacts(inspect, s, th, c, home, tid);
  }

  lemma SweepDropsBuffer(inspect: bool, s: State, e: Step, home: map<Id, Holder>, tid: Id)
    requires Enabled(s, e) && (e.SweepDiscard? || e.SweepDelete?)
    requires Homes(s, home) && Buffers(inspect, s, home) && Orderly(s)
    ensures BufferAt(inspect, s, SweepEffect(s, e), home, Moves(s, e, home), tid)
  {
    BufferFacts(inspect, s, MessageLoop(e.c), e.c, home, tid);
    assert SweepOk(s.clients[e.c]);
  }

  lemma SweepBuffer(inspect: bool, s: State, e: Step, home: map<Id, Holder>, tid: Id)
    requires Enabled(s, e) && OfClose(e) && !e.SweepDiscard? && !e.SweepDelete?
    requires Homes(s, home) && Buffers(inspect, s, home) && Orderly(s)
    ensures BufferAt(inspect, s, SweepEffect(s, e), home, Moves(s, e, home), tid)
  {
    BufferFacts(inspect, s, MessageLoop(e.c), e.c, home, tid);
    assert SweepOk(s.clients[e.c]);
  }

  lemma LoopBuffer(cfg: Config, s: State, e: Step, home: map<Id, Holder>, tid: Id)
    requires Enabled(s, e) && OfLoop(e) && Homes(s, home) && Buffers(cfg.inspect, s, home) && Orderly(s)
    ensures BufferAt(cfg.inspect, s, EffectOf(cfg, s, e), home, Moves(s, e, home), tid)
  {
    BufferFacts(cfg.inspect, s, EffectOf(cfg, s, e).th, EffectOf(cfg, s, e).c, home, tid);
    if e.Admit? {
      LoopIsFree(s, e.c);
      assert s.tables.nextId !in home;
      AdmitBuffer(cfg, s, e, home, tid);
    } else {
      assert s.tables.nextId !in s.clients;
      LoopKeepsBuffer(cfg, s, e, home, tid);
    }
  }

  lemma AdmitBuffer(cfg: Config, s: State, e: Step, home: map<Id, Holder>, tid: Id)
    requires Enabled(s, e) && e.Admit? && MessageLoop(e.c) !in s.work && s.tables.nextId !in home
    requires BuffersOf(cfg.inspect, s, MessageLoop(e.c), e.c, home, tid)
    ensures BufferAt(cfg.inspect, s, EffectOf(cfg, s, e), home, Moves(s, e, home), tid)
  {
  }

  lemma LoopKeepsBuffer(cfg: Config, s: State, e: Step, home: map<Id, Holder>, tid: Id)
    requires Enabled(s, e) && OfLoop(e) && !e.Admit? && s.tables.nextId !in s.clients
    requires BuffersOf(cfg.inspect, s, EffectOf(cfg, s, e).th, EffectOf(cfg, s, e).c, home, tid)
    ensures BufferAt(cfg.inspect, s, EffectOf(cfg, s, e), home, Moves(s, e, home), tid)
  {
  }

  lemma WorkBuffer(cfg: Config, s: State, th: Thread, binds: bool, home: map<Id, Holder>, tid: Id)
    requires MayDo(s, th) && Homes(s, home) && Buffers(cfg.inspect, s, home) && Orderly(s)
    ensures BufferAt(cfg.inspect, s, EffectOf(cfg, s, Do(th, binds)), home, Moves(s, Do(th, binds), home), tid)
  {
    var c := OwnClient(th);
    assert ThreadOk(th, s.work[th], At(s.clients, c));
    BufferFacts(cfg.inspect, s, th, c, home, tid);
    if AboutSocket(s.work[th]) {
      SocketBuffer(cfg.inspect, s, th, Answered(cfg, s, s.work[th]), binds, home, tid);
    } else {
      BufferFacts(cfg.inspect, s, th, c, home, s.work[th].tid);
      HttpBuffer(cfg.inspect, s, th, binds, home, tid);
    }
    assert EffectOf(cfg, s, Do(th, binds)) == WorkEffect(cfg, s, th, binds);
  }

  lemma StepBuffer(cfg: Config, s: State, e: Step, home: map<Id, Holder>, tid: Id)
    requires Enabled(s, e) && Homes(s, home) && Buffers(cfg.inspect, s, home) && Orderly(s)
    ensures BufferAt(cfg.inspect, s, EffectOf(cfg, s, e), home, Moves(s, e, home), tid)
  {
    if e.Do? {
      WorkBuffer(cfg, s, e.th, e.binds, home, tid);
    } else if e.ReceiveClose? || e.AdminClose? {
      TakesBuffer(cfg, s, e, home, tid);
    } else if OfClose(e) {
      CloseBuffer(cfg, s, e, home, tid);
    } else {
      LoopBuffer(cfg, s, e, home, tid);
    }
  }

  lemma TakesBuffer(cfg: Config, s: State, e: Step, home: map<Id, Holder>, tid: Id)
    requires Enabled(s, e) && (e.ReceiveClose? || e.AdminClose?)
    requires Homes(s, home) && Buffers(cfg.inspect, s, home) && Orderly(s)
    ensures BufferAt(cfg.inspect, s, EffectOf(cfg, s, e), home, Moves(s, e, home), tid)
  {
    if e.ReceiveClose? { LoopIsFree(s, e.c); }
    TakeBuffer(cfg.inspect, s, if e.ReceiveClose? then MessageLoop(e.c) else Admin(e.call), e.c, e.tid, home, tid);
  }

  lemma CloseBuffer(cfg: Config, s: State, e: Step, home: map<Id, Holder>, tid: Id)
    requires Enabled(s, e) && OfClose(e) && Homes(s, home) && Buffers(cfg.inspect, s, home) && Orderly(s)
    ensures BufferAt(cfg.inspect, s, EffectOf(cfg, s, e), home, Moves(s, e, home), tid)
  {
    if e.SweepDiscard? || e.SweepDelete? {
      SweepDropsBuffer(cfg.inspect, s, e, home, tid);
    } else {
      SweepBuffer(cfg.inspect, s, e, home, tid);
    }
    assert EffectOf(cfg, s, e) == SweepEffect(s, e);
  }

  // -------------------------------------------------------------------------- ports

  /** The port a Work item keeps reserved. */
  function PortOf(w: Option<Work>): Option<Port> {
    if w == None then None
    else
      match w.value
      case Listen(p) => Some(p)
      case GiveBack(p) => Some(p)
      case PublishSocket(_, p) => Some(p)
      case Spawn(_, p) => Some(p)
      case _ => None
  }

  predicate HoldsPort(s: State, h: Holder, p: Port) {
    match h
    case Doing(th) => PortOf(At(s.work, th)) == Some(p)
    case OnList(_) => false
    case Serving(l) => At(s.tables.running, l) == Some(p)
  }

  predicate InRange(cfg: Config, p: Port) {
    RangeOf(cfg, p.proto).lo <= p.number <= RangeOf(cfg, p.proto).hi
  }

  /** `ports` gives each used port its only holder. */
  ghost predicate PortHomes(cfg: Config, s: State, ports: map<Port, Holder>) {
    && (forall h, p :: HoldsPort(s, h, p) <==> At(ports, p) == Some(h))
    && ports.Keys == s.tables.used
    && (forall p :: p in s.tables.used ==> InRange(cfg, p))
    && (forall l: Id :: l in s.tables.running ==> l < s.tables.nextLoop)
  }

  function PortMoves(cfg: Config, s: State, e: Step, ports: map<Port, Holder>): map<Port, Holder>
    requires Enabled(s, e)
  {
    match e
    case LoopEnds(l) => ports - {s.tables.running[l]}
    case Do(th, _) =>
      (match s.work[th]
       case Allocate(proto, _) =>
         var a := Answered(cfg, s, s.work[th]);
         if a.Granted? then ports[Port(proto, a.port) := Doing(th)] else ports
       case GiveBack(p) => ports - {p}
       case Spawn(_, p) => ports[p := Serving(s.tables.nextLoop)]
       case _ => ports)
    case _ => ports
  }

  predicate Movable(f: Effect, o: Option<Holder>) {
    o == None || o == Some(Doing(f.th)) || o.value.Serving?
  }

  /** The PortHomes facts at port p and loop l. */
  predicate PortAt(cfg: Config, f: Effect, ports: map<Port, Holder>, ports': map<Port, Holder>, p: Port, l: Id) {
    && (PortOf(f.work) == Some(p) <==> At(ports', p) == Some(Doing(f.th)))
    && (At(f.tables.running, l) == Some(p) <==> At(ports', p) == Some(Serving(l)))
    && (At(ports', p) == At(ports, p) || (Movable(f, At(ports, p)) && Movable(f, At(ports', p))))
    && (p in ports' <==> p in f.tables.used)
    && (p in f.tables.used ==> InRange(cfg, p))
    && (l in f.tables.running ==> l < f.tables.nextLoop)
  }

  lemma PortsFromEffect(cfg: Config, s: State, f: Effect, ports: map<Port, Holder>, ports': map<Port, Holder>)
    requires PortHomes(cfg, s, ports) && forall p, l: Id :: PortAt(cfg, f, ports, ports', p, l)
    ensures PortHomes(cfg, Apply(s, f), ports')
  {
    var t := Apply(s, f);
    forall h, p ensures HoldsPort(t, h, p) <==> At(ports', p) == Some(h) {
      assert HoldsPort(s, h, p) <==> At(ports, p) == Some(h);
      assert PortAt(cfg, f, ports, ports', p, if h.Serving? then h.loopId else 0);
    }
    forall p ensures p in ports' <==> p in t.tables.used
             ensures p in t.tables.used ==> InRange(cfg, p)
    {
      assert PortAt(cfg, f, ports, ports', p, 0);
    }
    forall l: Id | l in t.tables.running ensures l < t.tables.nextLoop {
      assert PortAt(cfg, f, ports, ports', Port(Tcp, 0), l);
    }
  }

  predicate PortsOf(cfg: Config, s: State, th: Thread, ports: map<Port, Holder>, p: Port, l: Id) {
    && (PortOf(At(s.work, th)) == Some(p) <==> At(ports, p) == Some(Doing(th)))
    && (At(s.tables.running, l) == Some(p) <==> At(ports, p) == Some(Serving(l)))
    && (p in ports <==> p in s.tables.used)
    && (p in ports ==> InRange(cfg, p))
    && (l in s.tables.running ==> l < s.tables.nextLoop) && s.tables.nextLoop !in s.tables.running
  }

  lemma PortFacts(cfg: Config, s: State, th: Thread, ports: map<Port, Holder>, p: Port, l: Id)
    requires PortHomes(cfg, s, ports)
    ensures PortsOf(cfg, s, th, ports, p, l)
  {
    assert HoldsPort(s, Doing(th), p) <==> At(ports, p) == Some(Doing(th));
    assert HoldsPort(s, Serving(l), p) <==> At(ports, p) == Some(Serving(l));
  }

  lemma SocketPort(cfg: Config, s: State, th: Thread, binds: bool, ports: map<Port, Holder>, p: Port, l: Id)
    requires MayDo(s, th) && AboutSocket(s.work[th]) && PortHomes(cfg, s, ports)
    ensures PortAt(cfg, SocketEffect(s, th, Answered(cfg, s, s.work[th]), binds), ports,
                   PortMoves(cfg, s, Do(th, binds), ports), p, l)
  {
    PortFacts(cfg, s, th, ports, p, l);
    PortFacts(cfg, s, th, ports, p, s.tables.nextLoop);
    var w := s.work[th];
    if w.Allocate? {
      var numbers := UsedNumbers(s.tables.used, w.proto);
      AllocationIsRight(RangeOf(cfg, w.proto), numbers, w.requested);
      assert p in s.tables.used && p.proto == w.proto ==> p.number in numbers;
    }
  }

  lemma HttpPort(cfg: Config, s: State, th: Thread, binds: bool, ports: map<Port, Holder>, p: Port, l: Id)
    requires MayDo(s, th) && !AboutSocket(s.work[th]) && PortsOf(cfg, s, th, ports, p, l)
    ensures PortAt(cfg, HttpEffect(cfg.inspect, s, th), ports, PortMoves(cfg, s, Do(th, binds), ports), p, l)
  {
    var f := HttpEffect(cfg.inspect, s, th);
    HttpTouchesNoPort(cfg.inspect, s, th);
    KeepsPorts(cfg, s, f, ports, p, l);
  }

  /** The sections of an HTTP tunnel have nothing to do with ports. */
  predicate TouchesNoPort(s: State, f: Effect) {
    && PortOf(f.work) == None && f.tables.used == s.tables.used && f.tables.running == s.tables.running
    && f.tables.nextLoop == s.tables.nextLoop
  }

  lemma HttpTouchesNoPort(inspect: bool, s: State, th: Thread)
    requires MayDo(s, th) && !AboutSocket(s.work[th])
    ensures HttpEffect(inspect, s, th).th == th && TouchesNoPort(s, HttpEffect(inspect, s, th))
  {
  }

  lemma KeepsPorts(cfg: Config, s: State, f: Effect, ports: map<Port, Holder>, p: Port, l: Id)
    requires TouchesNoPort(s, f) && PortsOf(cfg, s, f.th, ports, p, l) && PortOf(At(s.work, f.th)) == None
    ensures PortAt(cfg, f, ports, ports, p, l)
  {
  }

  lemma SweepPort(cfg: Config, s: State, e: Step, ports: map<Port, Holder>, p: Port, l: Id)
    requires Enabled(s, e) && OfClose(e) && PortHomes(cfg, s, ports)
    ensures PortAt(cfg, EffectOf(cfg, s, e), ports, PortMoves(cfg, s, e, ports), p, l)
  {
    assert EffectOf(cfg, s, e) == SweepEffect(s, e);
    PortFacts(cfg, s, MessageLoop(e.c), ports, p, l);
  }

  lemma OtherPort(cfg: Config, s: State, e: Step, ports: map<Port, Holder>, p: Port, l: Id)
    requires Enabled(s, e) && !e.Do? && !OfClose(e) && PortHomes(cfg, s, ports) && Orderly(s)
    ensures PortAt(cfg, EffectOf(cfg, s, e), ports, PortMoves(cfg, s, e, ports), p, l)
  {
    if e.Admit? || e.ReceiveClose? { LoopIsFree(s, e.c); }
    PortFacts(cfg, s, EffectOf(cfg, s, e).th, ports, p, l);
    if e.LoopEnds? { PortFacts(cfg, s, Admin(0), ports, p, e.loopId); }
  }

  lemma StepPort(cfg: Config, s: State, e: Step, ports: map<Port, Holder>, p: Port, l: Id)
    requires Enabled(s, e) && PortHomes(cfg, s, ports) && Orderly(s)
    ensures PortAt(cfg, EffectOf(cfg, s, e), ports, PortMoves(cfg, s, e, ports), p, l)
  {
    if e.Do? {
      WorkPort(cfg, s, e.th, e.binds, ports, p, l);
    } else if OfClose(e) {
      SweepPort(cfg, s, e, ports, p, l);
    } else {
      OtherPort(cfg, s, e, ports, p, l);
    }
  }

  lemma WorkPort(cfg: Config, s: State, th: Thread, binds: bool, ports: map<Port, Holder>, p: Port, l: Id)
    requires MayDo(s, th) && PortHomes(cfg, s, ports)
    ensures PortAt(cfg, EffectOf(cfg, s, Do(th, binds)), ports, PortMoves(cfg, s, Do(th, binds), ports), p, l)
  {
    if AboutSocket(s.work[th]) {
      SocketPort(cfg, s, th, binds, ports, p, l);
    } else {
      PortFacts(cfg, s, th, ports, p, l);
      HttpPort(cfg, s, th, binds, ports, p, l);
    }
    assert EffectOf(cfg, s, Do(th, binds)) == WorkEffect(cfg, s, th, binds);
  }
}
