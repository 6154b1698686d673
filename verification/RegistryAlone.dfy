/** A handler whose sections run without anything in between is one step of module Sessions,
    whatever unfinished work of other threads surrounds it. */
module RegistryAlone {
  import opened Ports
  import opened Registry
  import opened Wrappers
  import Sessions

  /** What the tables say when unfinished work is left out of account. */
  function View(s: State): Sessions.Server {
    var t := s.tables;
    Sessions.Server(t.nextId,
                    map c | c in t.live && c in s.clients :: Sessions.Session(s.clients[c].user, s.clients[c].tunnels),
                    t.index, t.router, t.bufferUsers)
  }

  /** s with client c, its thread and the tables as given. */
  function Focus(s: State, c: Id, k: Client, w: Option<Work>, t: Tables): State {
    State(t, s.clients[c := k], Put(s.work, MessageLoop(c), w))
  }

  lemma Refocus(s: State, c: Id, k: Client, w: Option<Work>, t: Tables, k': Client, w': Option<Work>, t': Tables)
    ensures Apply(Focus(s, c, k, w, t), Effect(MessageLoop(c), w', c, Some(k'), t')) == Focus(s, c, k', w', t')
  {
    assert s.clients[c := k][c := k'] == s.clients[c := k'];
    assert Put(Put(s.work, MessageLoop(c), w), MessageLoop(c), w') == Put(s.work, MessageLoop(c), w');
  }

  lemma StartFocus(s: State, c: Id)
    requires c in s.clients
    ensures s == Focus(s, c, s.clients[c], At(s.work, MessageLoop(c)), s.tables)
  {
    assert s.clients[c := s.clients[c]] == s.clients;
    assert Put(s.work, MessageLoop(c), At(s.work, MessageLoop(c))) == s.work;
  }

  /** One more step, from one focus to the next. */
  lemma Extend(cfg: Config, from: State, run: seq<Step>, s: State, c: Id, k: Client, w: Option<Work>, t: Tables,
               e: Step, k': Client, w': Option<Work>, t': Tables) returns (longer: seq<Step>)
    requires Leads(cfg, from, run, Focus(s, c, k, w, t)) && Enabled(Focus(s, c, k, w, t), e)
    requires EffectOf(cfg, Focus(s, c, k, w, t), e) == Effect(MessageLoop(c), w', c, Some(k'), t')
    ensures longer == run + [e] && Leads(cfg, from, longer, Focus(s, c, k', w', t'))
  {
    longer := run + [e];
    Refocus(s, c, k, w, t, k', w', t');
    LeadsOne(cfg, Focus(s, c, k, w, t), e);
    LeadsOn(cfg, from, run, Focus(s, c, k, w, t), [e], Focus(s, c, k', w', t'));
  }

  lemma DoSection(cfg: Config, from: State, run: seq<Step>, s: State, c: Id, k: Client, w: Work, t: Tables,
                  k': Client, w': Option<Work>, t': Tables) returns (longer: seq<Step>)
    requires Leads(cfg, from, run, Focus(s, c, k, Some(w), t)) && !AboutSocket(w) && (w.Publish? ==> !Locked(k))
    requires MayDo(Focus(s, c, k, Some(w), t), MessageLoop(c))
    requires HttpEffect(cfg.inspect, Focus(s, c, k, Some(w), t), MessageLoop(c)) ==
        Effect(MessageLoop(c), w', c, Some(k'), t')
    ensures Leads(cfg, from, longer, Focus(s, c, k', w', t'))
  {
    longer := Extend(cfg, from, run, s, c, k, Some(w), t, Do(MessageLoop(c), false), k', w', t');
  }

  // ---------------------------------------------------------------- opening a tunnel

  /** The buffer of a new tunnel is made, when there are buffers. */
  function Buffered(cfg: Config, t: Tables, user: int, tid: Id): Tables {
    if cfg.inspect then t.(buffers := t.buffers + {tid}, bufferUsers := t.bufferUsers[tid := user]) else t
  }

  /** From an admitted request to its registration. */
  lemma BuffersAlone(cfg: Config, from: State, run: seq<Step>, s: State, c: Id, k: Client, t: Tables, tid: Id,
                     sub: Subdomain)
      returns (longer: seq<Step>)
    requires Leads(cfg, from, run, Focus(s, c, k, Some(MakeBuffer(tid, sub)), t))
    ensures Leads(cfg, from, longer, Focus(s, c, k, Some(Register(tid, sub)), Buffered(cfg, t, k.user, tid)))
  {
    if cfg.inspect {
      var t' := t.(buffers := t.buffers + {tid});
      longer := DoSection(cfg, from, run, s, c, k, MakeBuffer(tid, sub), t, k, Some(NoteUser(tid, sub)), t');
      longer := DoSection(cfg, from, longer, s, c, k, NoteUser(tid, sub), t',
                          k, Some(Register(tid, sub)), Buffered(cfg, t, k.user, tid));
    } else {
      longer := DoSection(cfg, from, run, s, c, k, MakeBuffer(tid, sub), t, k, Some(Register(tid, sub)), t);
    }
  }

  lemma TakenAlone(cfg: Config, from: State, run: seq<Step>, s: State, c: Id, k: Client, t: Tables, tid: Id,
                   sub: Subdomain)
      returns (longer: seq<Step>)
    requires Leads(cfg, from, run, Focus(s, c, k, Some(Register(tid, sub)), t)) && sub in t.router
    ensures Leads(cfg, from, longer, Focus(s, c, k.(loop := Top), None, RemoveBuffer(t, tid)))
  {
    longer := DoSection(cfg, from, run, s, c, k, Register(tid, sub), t, k, Some(Undo(tid)), t);
    longer := DoSection(cfg, from, longer, s, c, k, Undo(tid), t, k.(loop := Top), None, RemoveBuffer(t, tid));
  }

  lemma FreeAlone(cfg: Config, from: State, run: seq<Step>, s: State, c: Id, k: Client, t: Tables, tid: Id,
                  sub: Subdomain)
      returns (longer: seq<Step>)
    requires Leads(cfg, from, run, Focus(s, c, k, Some(Register(tid, sub)), t)) && sub !in t.router && !Locked(k)
    ensures Leads(cfg, from, longer,
                  Focus(s, c, k.(loop := Top, tunnels := k.tunnels[tid := Http(sub)]), None,
                        t.(router := t.router[sub := tid])))
  {
    var t' := t.(router := t.router[sub := tid]);
    longer := DoSection(cfg, from, run, s, c, k, Register(tid, sub), t, k, Some(Publish(tid, sub)), t');
    longer := DoSection(cfg, from, longer, s, c, k, Publish(tid, sub), t',
                        k.(loop := Top, tunnels := k.tunnels[tid := Http(sub)]), None, t');
  }

  /** Client c has asked for a tunnel and will be admitted. */
  predicate Asking(s: State, c: Id, want: Want) {
    && c in s.clients && c in s.tables.live && s.clients[c].loop == Asked(want) && !Locked(s.clients[c])
    && MessageLoop(c) !in s.work && UnderPlan(s, c) && UnderToken(s.clients[c])
  }

  /** The two limit tests. */
  lemma CountedAlone(cfg: Config, from: State, run: seq<Step>, s: State, c: Id, k: Client, t: Tables)
      returns (longer: seq<Step>)
    requires Leads(cfg, from, run, Focus(s, c, k, None, t)) && k.loop.Asked? && UnderPlan(Focus(s, c, k, None, t), c)
    ensures Leads(cfg, from, longer, Focus(s, c, k.(loop := Counted(k.loop.want)), None, t))
  {
    longer := Extend(cfg, from, run, s, c, k, None, t, PassPlan(c), k.(loop := Counted(k.loop.want)), None, t);
  }

  lemma AdmittedHttp(cfg: Config, from: State, run: seq<Step>, s: State, c: Id, k: Client, t: Tables)
      returns (longer: seq<Step>)
    requires Leads(cfg, from, run, Focus(s, c, k, None, t)) && k.loop.Asked? && k.loop.want.WantHttp?
    requires UnderPlan(Focus(s, c, k, None, t), c) && UnderToken(k)
    ensures Leads(cfg, from, longer, Focus(s, c, k.(loop := Working), Some(MakeBuffer(t.nextId, k.loop.want.sub)),
                                           t.(nextId := t.nextId + 1)))
  {
    longer := CountedAlone(cfg, from, run, s, c, k, t);
    longer := Extend(cfg, from, longer, s, c, k.(loop := Counted(k.loop.want)), None, t, Admit(c), k.(loop := Working),
                     Some(MakeBuffer(t.nextId, k.loop.want.sub)), t.(nextId := t.nextId + 1));
  }

  /** From a request that will be admitted to its registration. */
  lemma RegisteringAlone(cfg: Config, from: State, run: seq<Step>, s: State, c: Id, k: Client, t: Tables)
      returns (longer: seq<Step>)
    requires Leads(cfg, from, run, Focus(s, c, k, None, t)) && k.loop.Asked? && k.loop.want.WantHttp?
    requires UnderPlan(Focus(s, c, k, None, t), c) && UnderToken(k)
    ensures Leads(cfg, from, longer, Focus(s, c, k.(loop := Working), Some(Register(t.nextId, k.loop.want.sub)),
                                           Buffered(cfg, t.(nextId := t.nextId + 1), k.user, t.nextId)))
  {
    longer := AdmittedHttp(cfg, from, run, s, c, k, t);
    longer := BuffersAlone(cfg, from, longer, s, c, k.(loop := Working), t.(nextId := t.nextId + 1), t.nextId,
                           k.loop.want.sub);
  }

  lemma TakenOpeningAlone(cfg: Config, s: State, c: Id, sub: Subdomain) returns (run: seq<Step>)
    requires Asking(s, c, WantHttp(sub)) && s.tables.nextId !in s.tables.bufferUsers && sub in s.tables.router
    ensures Legal(cfg, s, run) && View(Final(cfg, s, run)) == Sessions.OpenedHttp(cfg.inspect, View(s), c, sub)
  {
    var k, tid := s.clients[c], s.tables.nextId;
    var b := Buffered(cfg, s.tables.(nextId := tid + 1), k.user, tid);
    StartFocus(s, c);
    run := RegisteringAlone(cfg, s, [], s, c, k, s.tables);
    run := TakenAlone(cfg, s, run, s, c, k.(loop := Working), b, tid, sub);
    ViewOfFocus(s, c, k.(loop := Top), RemoveBuffer(b, tid));
    assert RemoveBuffer(b, tid).bufferUsers == s.tables.bufferUsers;
  }

  lemma FreeOpeningAlone(cfg: Config, s: State, c: Id, sub: Subdomain) returns (run: seq<Step>)
    requires Asking(s, c, WantHttp(sub)) && sub !in s.tables.router
    ensures Legal(cfg, s, run) && View(Final(cfg, s, run)) == Sessions.OpenedHttp(cfg.inspect, View(s), c, sub)
  {
    var k, tid := s.clients[c], s.tables.nextId;
    var b := Buffered(cfg, s.tables.(nextId := tid + 1), k.user, tid);
    StartFocus(s, c);
    run := RegisteringAlone(cfg, s, [], s, c, k, s.tables);
    run := FreeAlone(cfg, s, run, s, c, k.(loop := Working), b, tid, sub);
    ViewOfFocus(s, c, k.(loop := Top, tunnels := k.tunnels[tid := Http(sub)]), b.(router := b.router[sub := tid]));
  }

  /** An admitted request for an HTTP tunnel, alone, is Sessions.OpenedHttp. */
  lemma OpeningAlone(cfg: Config, s: State, c: Id, sub: Subdomain) returns (run: seq<Step>)
    requires Asking(s, c, WantHttp(sub)) && s.tables.nextId !in s.tables.bufferUsers
    ensures Legal(cfg, s, run) && View(Final(cfg, s, run)) == Sessions.OpenedHttp(cfg.inspect, View(s), c, sub)
  {
    if sub in s.tables.router {
      run := TakenOpeningAlone(cfg, s, c, sub);
    } else {
      run := FreeOpeningAlone(cfg, s, c, sub);
    }
  }

  lemma ViewOfFocus(s: State, c: Id, k: Client, t: Tables)
    requires c in s.clients && c in s.tables.live && t.live == s.tables.live && k.user == s.clients[c].user
    ensures View(Focus(s, c, k, None, t))
            == Sessions.Server(t.nextId, View(s).sessions[c := Sessions.Session(k.user, k.tunnels)],
                               t.index, t.router, t.bufferUsers)
    ensures k.tunnels == s.clients[c].tunnels ==> View(Focus(s, c, k, None, t)).sessions == View(s).sessions
  {
  }

  /** From a request that will be admitted to its bound port. */
  lemma BindingAlone(cfg: Config, s: State, c: Id, proto: Proto, requested: int, port: int) returns (run: seq<Step>)
    requires Asking(s, c, WantSocket(proto, requested))
    requires Answered(cfg, s, Allocate(proto, requested)) == Granted(port)
    ensures var t := s.tables;
            Leads(cfg, s, run,
                  Focus(s, c, s.clients[c].(loop := Working), Some(PublishSocket(t.nextId, Port(proto, port))),
                        t.(used := t.used + {Port(proto, port)}, nextId := t.nextId + 1)))
  {
    var k, p := s.clients[c].(loop := Working), Port(proto, port);
    var t := s.tables.(used := s.tables.used + {p});
    run := AllocatingAlone(cfg, s, c, proto, requested, port);
    run := DoSocketSection(cfg, s, run, s, c, k, Listen(p), t,
                           k, Some(PublishSocket(t.nextId, p)), t.(nextId := t.nextId + 1));
  }

  lemma AllocatingAlone(cfg: Config, s: State, c: Id, proto: Proto, requested: int, port: int) returns (run: seq<Step>)
    requires Asking(s, c, WantSocket(proto, requested))
    requires Answered(cfg, s, Allocate(proto, requested)) == Granted(port)
    ensures var t := s.tables;
            Leads(cfg, s, run, Focus(s, c, s.clients[c].(loop := Working), Some(Listen(Port(proto, port))),
                                     t.(used := t.used + {Port(proto, port)})))
  {
    var t, k, p, w := s.tables, s.clients[c].(loop := Working), Port(proto, port), Allocate(proto, requested);
    var counted := s.clients[c].(loop := Counted(WantSocket(proto, requested)));
    StartFocus(s, c);
    run := CountedAlone(cfg, s, [], s, c, s.clients[c], t);
    run := Extend(cfg, s, run, s, c, counted, None, t, Admit(c), k, Some(w), t);
    run := Extend(cfg, s, run, s, c, k, Some(w), t, Do(MessageLoop(c), true),
                  k, Some(Listen(p)), t.(used := t.used + {p}));
  }

  lemma DoSocketSection(cfg: Config, from: State, run: seq<Step>, s: State, c: Id, k: Client, w: Work, t: Tables,
                        k': Client, w': Option<Work>, t': Tables) returns (longer: seq<Step>)
    requires Leads(cfg, from, run, Focus(s, c, k, Some(w), t)) && AboutSocket(w) && !w.Allocate?
    requires MayDo(Focus(s, c, k, Some(w), t), MessageLoop(c))
    requires SocketEffect(Focus(s, c, k, Some(w), t), MessageLoop(c), Exhausted, true) ==
        Effect(MessageLoop(c), w', c, Some(k'), t')
    ensures Leads(cfg, from, longer, Focus(s, c, k', w', t'))
  {
    longer := Extend(cfg, from, run, s, c, k, Some(w), t, Do(MessageLoop(c), true), k', w', t');
  }

  lemma SpawningAlone(cfg: Config, from: State, run: seq<Step>, s: State, c: Id, k: Client, t: Tables, tid: Id, p: Port)
      returns (longer: seq<Step>)
    requires Leads(cfg, from, run, Focus(s, c, k, Some(PublishSocket(tid, p)), t)) && !Locked(k)
    ensures Leads(cfg, from, longer,
                  Focus(s, c, k.(loop := Top, tunnels := k.tunnels[tid := Socket(p)]), None,
                        t.(running := t.running[t.nextLoop := p], nextLoop := t.nextLoop + 1)))
  {
    var k' := k.(tunnels := k.tunnels[tid := Socket(p)]);
    longer := DoSocketSection(cfg, from, run, s, c, k, PublishSocket(tid, p), t, k', Some(Spawn(tid, p)), t);
    longer := DoSocketSection(cfg, from, longer, s, c, k', Spawn(tid, p), t, k'.(loop := Top), None,
                              t.(running := t.running[t.nextLoop := p], nextLoop := t.nextLoop + 1));
  }

  /** The same for a TCP or UDP tunnel whose port is free and can be bound. */
  lemma OpeningSocketAlone(cfg: Config, s: State, c: Id, proto: Proto, requested: int, port: int)
      returns (run: seq<Step>)
    requires Asking(s, c, WantSocket(proto, requested))
    requires Answered(cfg, s, Allocate(proto, requested)) == Granted(port)
    ensures Legal(cfg, s, run) && View(Final(cfg, s, run)) == Sessions.WithTunnel(View(s), c, Socket(Port(proto, port)))
    ensures Final(cfg, s, run).tables.used == s.tables.used + {Port(proto, port)}
    ensures s.tables.nextLoop in Final(cfg, s, run).tables.running
            && Final(cfg, s, run).tables.running[s.tables.nextLoop] == Port(proto, port)
  {
    var k, p, tid := s.clients[c].(loop := Working), Port(proto, port), s.tables.nextId;
    var t := s.tables.(used := s.tables.used + {p}, nextId := tid + 1);
    run := BindingAlone(cfg, s, c, proto, requested, port);
    run := SpawningAlone(cfg, s, run, s, c, k, t, tid, p);
    ViewOfFocus(s, c, k.(loop := Top, tunnels := k.tunnels[tid := Socket(p)]),
                t.(running := t.running[t.nextLoop := p], nextLoop := t.nextLoop + 1));
  }

  // --------------------------------------------------------- connecting and closing

  lemma AddingAlone(cfg: Config, s: State, user: int, plan: Plan, tokenMax: int) returns (run: seq<Step>)
    requires s.tables.nextId !in s.clients && MessageLoop(s.tables.nextId) !in s.work
    ensures var c, t := s.tables.nextId, s.tables;
            Leads(cfg, s, run, Focus(s, c, Client(user, plan, tokenMax, Starting, Idle, map[]), None,
                                     t.(nextId := c + 1, live := t.live + {c})))
  {
    var e := Connect(user, plan, tokenMax);
    LeadsOne(cfg, s, e);
    run := [e];
  }

  lemma LinkingAlone(cfg: Config, s: State, user: int, plan: Plan, tokenMax: int) returns (run: seq<Step>)
    requires s.tables.nextId !in s.clients && MessageLoop(s.tables.nextId) !in s.work
    ensures var c, t := s.tables.nextId, s.tables;
            Leads(cfg, s, run, Focus(s, c, Client(user, plan, tokenMax, Top, Idle, map[]), None,
                                     t.(nextId := c + 1, live := t.live + {c}, index := LinkIn(t.index, user, c))))
  {
    var c, k := s.tables.nextId, Client(user, plan, tokenMax, Starting, Idle, map[]);
    var t := s.tables.(nextId := c + 1, live := s.tables.live + {c});
    run := AddingAlone(cfg, s, user, plan, tokenMax);
    run := Extend(cfg, s, run, s, c, k, None, t, Link(c), k.(loop := Top), None, t.(index := LinkIn(t.index, user, c)));
  }

  /** Connecting and linking, alone, is Sessions.Connected. */
  lemma ConnectingAlone(cfg: Config, s: State, user: int, plan: Plan, tokenMax: int) returns (run: seq<Step>)
    requires s.tables.nextId !in s.clients && MessageLoop(s.tables.nextId) !in s.work
    ensures Legal(cfg, s, run) && View(Final(cfg, s, run)) == Sessions.Connected(View(s), user)
  {
    var c := s.tables.nextId;
    run := LinkingAlone(cfg, s, user, plan, tokenMax);
    assert View(Final(cfg, s, run)).sessions == View(s).sessions[c := Sessions.Session(user, map[])];
  }

  lemma ClosingHttpAlone(cfg: Config, s: State, c: Id, tid: Id) returns (run: seq<Step>)
    requires c in s.clients && s.clients[c].loop.Reading? && !Locked(s.clients[c]) && MessageLoop(c) !in s.work
    requires tid in s.clients[c].tunnels && s.clients[c].tunnels[tid].Http?
    ensures var k := s.clients[c];
            Leads(cfg, s, run, Focus(s, c, k.(tunnels := k.tunnels - {tid}, loop := Top), None,
                                    RemoveBuffer(s.tables.(router := s.tables.router - {k.tunnels[tid].sub}), tid)))
  {
    StartFocus(s, c);
    var t, k, sub := s.tables, s.clients[c], s.clients[c].tunnels[tid].sub;
    var k1, t1 := k.(tunnels := k.tunnels - {tid}, loop := Working), t.(router := t.router - {sub});
    run := Extend(cfg, s, [], s, c, k, None, t, ReceiveClose(c, tid), k1, Some(Unroute(tid, sub)), t);
    run := DoSection(cfg, s, run, s, c, k1, Unroute(tid, sub), t, k1, Some(Discard(tid)), t1);
    run := DoSection(cfg, s, run, s, c, k1, Discard(tid), t1, k1.(loop := Top), None, RemoveBuffer(t1, tid));
  }

  /** A close request, alone, is Sessions.ClosedTunnel. */
  lemma ClosingAlone(cfg: Config, s: State, c: Id, tid: Id) returns (run: seq<Step>)
    requires c in s.clients && c in s.tables.live && s.clients[c].loop.Reading? && !Locked(s.clients[c])
    requires MessageLoop(c) !in s.work
    ensures Legal(cfg, s, run) && View(Final(cfg, s, run)) == Sessions.ClosedTunnel(View(s), c, tid)
  {
    var t, k := s.tables, s.clients[c];
    var k' := k.(tunnels := k.tunnels - {tid}, loop := Top);
    Sessions.ClosingOne(View(s), c, tid);
    if tid in k.tunnels && k.tunnels[tid].Http? {
      run := ClosingHttpAlone(cfg, s, c, tid);
      ViewOfFocus(s, c, k', RemoveBuffer(t.(router := t.router - {k.tunnels[tid].sub}), tid));
    } else {
      StartFocus(s, c);
      run := Extend(cfg, s, [], s, c, k, None, t, ReceiveClose(c, tid), k', None, t);
      ViewOfFocus(s, c, k', t);
      assert tid !in k.tunnels ==> k'.tunnels == k.tunnels;
    }
  }

  function Dropped(t: Tables, gone: map<Id, Tunnel>): Tables {
    t.(router := t.router - Sessions.Subs(gone), buffers := t.buffers - Sessions.HttpIds(gone),
       bufferUsers := t.bufferUsers - Sessions.HttpIds(gone))
  }

  lemma DropMore(t: Tables, tunnels: map<Id, Tunnel>, tid: Id)
    requires tid in tunnels
    ensures Dropped(Dropped(t, map[tid := tunnels[tid]]), tunnels - {tid}) == Dropped(t, tunnels)
  {
    var rest, tunnel := tunnels - {tid}, tunnels[tid];
    assert rest[tid := tunnel] == tunnels;
    Sessions.SubsGrow(rest, tid, tunnel);
    OnlyTunnel(tid, tunnel);
    Sessions.MinusBoth(t.router, Sessions.SubOf(tunnel), Sessions.Subs(rest));
    Sessions.MinusBoth(t.bufferUsers, Sessions.HttpIds(map[tid := tunnel]), Sessions.HttpIds(rest));
  }

  lemma OnlyTunnel(tid: Id, tunnel: Tunnel)
    ensures Sessions.Subs(map[tid := tunnel]) == Sessions.SubOf(tunnel)
    ensures Sessions.HttpIds(map[tid := tunnel]) == if tunnel.Http? then {tid} else {}
  {
    Sessions.SubsGrow(map[], tid, tunnel);
    assert map[][tid := tunnel] == map[tid := tunnel];
    assert Sessions.Subs(map[]) == {} && Sessions.HttpIds(map[]) == {};
  }

  lemma DroppedOne(t: Tables, tid: Id, tunnel: Tunnel)
    ensures Dropped(t, map[tid := tunnel])
            == if tunnel.Http? then RemoveBuffer(t.(router := t.router - {tunnel.sub}), tid) else t
  {
    OnlyTunnel(tid, tunnel);
  }

  /** One round of the sweep. */
  lemma HttpRoundAlone(cfg: Config, from: State, run: seq<Step>, s: State, c: Id, k: Client, t: Tables,
                       w: Option<Work>, tid: Id)
      returns (longer: seq<Step>)
    requires Leads(cfg, from, run, Focus(s, c, k, w, t))
    requires k.sweep.Sweeping? && tid in k.tunnels && k.tunnels[tid].Http?
    ensures var t' := RemoveBuffer(t.(router := t.router - {k.tunnels[tid].sub}), tid);
            Leads(cfg, from, longer, Focus(s, c, k.(tunnels := k.tunnels - {tid}), w, t'))
  {
    var t1 := t.(router := t.router - {k.tunnels[tid].sub});
    var k1, k2, k3 := k.(sweep := Unrouted(tid)), k.(sweep := Discarded(tid)), k.(tunnels := k.tunnels - {tid});
    longer := Extend(cfg, from, run, s, c, k, w, t, SweepUnroute(c, tid), k1, w, t1);
    longer := Extend(cfg, from, longer, s, c, k1, w, t1, SweepDiscard(c), k2, w, RemoveBuffer(t1, tid));
    longer := Extend(cfg, from, longer, s, c, k2, w, RemoveBuffer(t1, tid), SweepDelete(c, tid),
                     k3, w, RemoveBuffer(t1, tid));
  }

  lemma RoundAlone(cfg: Config, from: State, run: seq<Step>, s: State, c: Id, k: Client, t: Tables,
                   w: Option<Work>, tid: Id)
      returns (longer: seq<Step>)
    requires Leads(cfg, from, run, Focus(s, c, k, w, t)) && k.sweep.Sweeping? && tid in k.tunnels
    ensures Leads(cfg, from, longer,
                  Focus(s, c, k.(tunnels := k.tunnels - {tid}), w, Dropped(t, map[tid := k.tunnels[tid]])))
  {
    DroppedOne(t, tid, k.tunnels[tid]);
    if k.tunnels[tid].Http? {
      longer := HttpRoundAlone(cfg, from, run, s, c, k, t, w, tid);
    } else {
      longer := Extend(cfg, from, run, s, c, k, w, t, SweepDelete(c, tid), k.(tunnels := k.tunnels - {tid}), w, t);
    }
  }

  lemma {:induction false} SweepAlone(cfg: Config, from: State, run: seq<Step>, s: State, c: Id, k: Client,
                                      t: Tables, w: Option<Work>)
      returns (longer: seq<Step>)
    requires Leads(cfg, from, run, Focus(s, c, k, w, t)) && k.sweep.Sweeping?
    ensures Leads(cfg, from, longer, Focus(s, c, k.(tunnels := map[]), w, Dropped(t, k.tunnels)))
    decreases |k.tunnels|
  {
    if k.tunnels == map[] {
      longer := run;
      DroppedNone(t);
      assert k.(tunnels := map[]) == k;
    } else {
      var tid :| tid in k.tunnels;
      var k1, t1 := k.(tunnels := k.tunnels - {tid}), Dropped(t, map[tid := k.tunnels[tid]]);
      assert k1.tunnels.Keys == k.tunnels.Keys - {tid};
      longer := RoundAlone(cfg, from, run, s, c, k, t, w, tid);
      DropMore(t, k.tunnels, tid);
      longer := SweepAlone(cfg, from, longer, s, c, k1, t1, w);
      assert k1.(tunnels := map[]) == k.(tunnels := map[]);
    }
  }

  lemma DroppedNone(t: Tables)
    ensures Dropped(t, map[]) == t
  {
    assert Sessions.Subs(map[]) == {} && Sessions.HttpIds(map[]) == {};
  }

  lemma SweepingAlone(cfg: Config, s: State, c: Id) returns (run: seq<Step>)
    requires c in s.clients && s.clients[c].sweep.Idle?
    ensures var k := s.clients[c];
            Leads(cfg, s, run,
                  Focus(s, c, k.(tunnels := map[], sweep := Sweeping), At(s.work, MessageLoop(c)),
                        Dropped(s.tables, k.tunnels)))
  {
    StartFocus(s, c);
    var t, k, w := s.tables, s.clients[c], At(s.work, MessageLoop(c));
    run := Extend(cfg, s, [], s, c, k, w, t, Cancel(c), k.(sweep := Cancelled), w, t);
    run := Extend(cfg, s, run, s, c, k.(sweep := Cancelled), w, t, SweepLock(c), k.(sweep := Sweeping), w, t);
    run := SweepAlone(cfg, s, run, s, c, k.(sweep := Sweeping), t, w);
  }

  lemma LeavingAlone(cfg: Config, from: State, run: seq<Step>, s: State, c: Id, k: Client, t: Tables, w: Option<Work>)
      returns (longer: seq<Step>)
    requires Leads(cfg, from, run, Focus(s, c, k, w, t)) && k.sweep.Sweeping? && k.tunnels == map[]
    ensures var t' := t.(index := UnlinkFrom(t.index, k.user, c), live := t.live - {c});
            Leads(cfg, from, longer, Focus(s, c, k.(sweep := Removed), w, t'))
  {
    var t1 := t.(index := UnlinkFrom(t.index, k.user, c));
    longer := Extend(cfg, from, run, s, c, k, w, t, SweepUnlock(c), k.(sweep := Swept), w, t);
    longer := Extend(cfg, from, longer, s, c, k.(sweep := Swept), w, t, Unlink(c), k.(sweep := Unlinked), w, t1);
    longer := Extend(cfg, from, longer, s, c, k.(sweep := Unlinked), w, t1,
                     Remove(c), k.(sweep := Removed), w, t1.(live := t.live - {c}));
  }

  /** Client.Close, alone, is Sessions.Disconnected, wherever the client's message loop stands. */
  lemma DisconnectingAlone(cfg: Config, s: State, c: Id) returns (run: seq<Step>)
    requires c in s.clients && c in s.tables.live && s.clients[c].sweep.Idle?
    ensures Legal(cfg, s, run) && View(Final(cfg, s, run)) == Sessions.Disconnected(View(s), c)
  {
    var k, w, t := s.clients[c], At(s.work, MessageLoop(c)), Dropped(s.tables, s.clients[c].tunnels);
    run := SweepingAlone(cfg, s, c);
    run := LeavingAlone(cfg, s, run, s, c, k.(tunnels := map[], sweep := Sweeping), t, w);
    var last := Focus(s, c, k.(tunnels := map[], sweep := Removed), w,
                      t.(index := UnlinkFrom(t.index, k.user, c), live := t.live - {c}));
    assert Final(cfg, s, run) == last;
    assert View(last).sessions == View(s).sessions - {c};
  }
}
