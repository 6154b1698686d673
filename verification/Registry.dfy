/** The tunnel server's registries as a machine whose steps are the lock-protected sections of
    the source: message loops, administrative closes, client sweeps and accept loops interleave
    freely between them (internal/server, internal/inspect/manager.go). */
module Registry {
  import opened Ports
  import opened Text
  import opened Wrappers

  /** Clients and tunnels take their numbers from one counter; the numbers of accept loops are the model's own. */
  type Id = nat
  /** createHTTPTunnel folds names to lower case before anything else sees them. */
  type Subdomain = s: string | ToLower(s) == s witness ""

  datatype Port = Port(proto: Proto, number: int)

  datatype Tunnel = Http(sub: Subdomain) | Socket(port: Port)

  /** What a tunnel request asks for; a requested port of 0 means any. */
  datatype Want = WantHttp(sub: Subdomain) | WantSocket(proto: Proto, requested: int)

  /** Where a client's message loop stands: Top tests the context, Reading waits for a message,
      Asked has a tunnel request whose limits are not checked yet, Counted one that has passed the
      plan limit but not the token limit, Working runs a Work item. */
  datatype Loop = Starting | Top | Reading | Asked(want: Want) | Counted(want: Want) | Working | Exited

  /** Progress of Client.Close. From Sweeping to Discarded it holds the client's TunnelsMu. */
  datatype Sweep =
    | Idle
    | Cancelled
    | Sweeping
    | Unrouted(tid: Id)
    | Discarded(tid: Id)
    | Swept
    | Unlinked
    | Removed

  /** The tunnel limit of a user's plan, if the user has one; 0 stands for no limit. */
  datatype Plan = NoPlan | Plan(maxTunnels: int)

  function GlobalMax(plan: Plan): int {
    match plan
    case NoPlan => 10
    case Plan(n) => if n < 0 then 0 else n
  }

  datatype Client = Client(
    user: int,
    plan: Plan,
    tokenMax: int,
    loop: Loop,
    sweep: Sweep,
    tunnels: map<Id, Tunnel>)

  /** A message loop or an administrative close. */
  datatype Thread = MessageLoop(client: Id) | Admin(call: Id)

  /** The next lock-protected section of an unfinished creation or close. */
  datatype Work =
    | MakeBuffer(tid: Id, sub: Subdomain)
    | NoteUser(tid: Id, sub: Subdomain)
    | Register(tid: Id, sub: Subdomain)
    | Undo(tid: Id)
    | Publish(tid: Id, sub: Subdomain)
    | Allocate(proto: Proto, requested: int)
    | Listen(port: Port)
    | GiveBack(port: Port)
    | PublishSocket(tid: Id, port: Port)
    | Spawn(tid: Id, port: Port)
    | Unroute(tid: Id, sub: Subdomain)
    | Discard(tid: Id)

  datatype Config = Config(inspect: bool, tcp: Range, udp: Range)

  /** Everything the threads share, apart from the clients' own tunnel maps. */
  datatype Tables = Tables(
    nextId: Id,
    nextLoop: Id,
    live: set<Id>,                      // ClientManager.clients
    index: map<int, seq<Id>>,           // ClientManager.userClients
    router: map<Subdomain, Id>,         // HTTPRouter.tunnels
    buffers: set<Id>,                   // inspect.Manager.buffers
    bufferUsers: map<Id, int>,          // inspect.Manager.userIDs
    used: set<Port>,                    // usedPorts of both allocators
    running: map<Id, Port>)             // accept and packet loops

  /** `clients` has every client object ever created, connected or not. */
  datatype State = State(tables: Tables, clients: map<Id, Client>, work: map<Thread, Work>)

  const INIT := State(Tables(0, 0, {}, map[], map[], {}, map[], {}, map[]), map[], map[])

  datatype Step =
    | Connect(user: int, plan: Plan, tokenMax: int)
    | Link(c: Id)
    | TestContext(c: Id)
    | ReceiveOther(c: Id)
    | ReceiveRequest(c: Id, want: Want)
    | Refuse(c: Id)
    | PassPlan(c: Id)
    | Admit(c: Id)
    | ReceiveClose(c: Id, tid: Id)
    | Leave(c: Id)
    | AdminClose(call: Id, c: Id, tid: Id)
    | Do(th: Thread, binds: bool)
    | LoopEnds(loopId: Id)
    | Cancel(c: Id)
    | SweepLock(c: Id)
    | SweepUnroute(c: Id, tid: Id)
    | SweepDiscard(c: Id)
    | SweepDelete(c: Id, tid: Id)
    | SweepUnlock(c: Id)
    | Unlink(c: Id)
    | Remove(c: Id)

  // ---------------------------------------------------------------- guards

  /** Close holds the lock on the client's tunnel map. */
  predicate Locked(k: Client) {
    k.sweep.Sweeping? || k.sweep.Unrouted? || k.sweep.Discarded?
  }

  function UsedNumbers(used: set<Port>, proto: Proto): set<int> {
    set p | p in used && p.proto == proto :: p.number
  }

  function RangeOf(cfg: Config, proto: Proto): Range {
    if proto.Tcp? then cfg.tcp else cfg.udp
  }

  /** CountTunnelsByUserID: the tunnels of the listed clients that are still connected. */
  function Count(s: State, listed: seq<Id>): nat {
    if listed == [] then 0
    else (if listed[0] in s.tables.live && listed[0] in s.clients then |s.clients[listed[0]].tunnels| else 0)
         + Count(s, listed[1..])
  }

  function Listed(index: map<int, seq<Id>>, user: int): seq<Id> {
    if user in index then index[user] else []
  }

  /** The plan limit's test in handleTunnelRequest; a limit of 0 is no limit. */
  predicate UnderPlan(s: State, c: Id)
    requires c in s.clients
  {
    var k := s.clients[c];
    var count := if k.user > 0 then Count(s, Listed(s.tables.index, k.user)) else |k.tunnels|;
    !(GlobalMax(k.plan) > 0 && count >= GlobalMax(k.plan))
  }

  /** The token limit's test, under a lock of its own. */
  predicate UnderToken(k: Client) {
    !(k.tokenMax > 0 && |k.tunnels| >= k.tokenMax)
  }

  predicate Enabled(s: State, e: Step) {
    match e
    case Connect(_, _, _) => true
    case Link(c) => c in s.clients && s.clients[c].loop.Starting?
    case TestContext(c) => c in s.clients && s.clients[c].loop.Top?
    case ReceiveOther(c) => c in s.clients && s.clients[c].loop.Reading?
    case ReceiveRequest(c, _) => c in s.clients && s.clients[c].loop.Reading?
    case Refuse(c) => c in s.clients && (s.clients[c].loop.Asked? || s.clients[c].loop.Counted?)
    case PassPlan(c) => c in s.clients && s.clients[c].loop.Asked? && UnderPlan(s, c)
    case Admit(c) => c in s.clients && s.clients[c].loop.Counted? && UnderToken(s.clients[c])
    case ReceiveClose(c, _) => c in s.clients && s.clients[c].loop.Reading? && !Locked(s.clients[c])
    case Leave(c) => c in s.clients && (s.clients[c].loop.Reading? || s.clients[c].loop.Top?)
    case AdminClose(call, c, _) => Admin(call) !in s.work && c in s.clients && !Locked(s.clients[c])
    case Do(th, _) => MayDo(s, th)
    case LoopEnds(l) => l in s.tables.running
    case Cancel(c) => c in s.clients && s.clients[c].sweep.Idle?
    case SweepLock(c) => c in s.clients && s.clients[c].sweep.Cancelled?
    case SweepUnroute(c, tid) =>
      c in s.clients && s.clients[c].sweep.Sweeping? && tid in s.clients[c].tunnels && s.clients[c].tunnels[tid].Http?
    case SweepDiscard(c) => c in s.clients && s.clients[c].sweep.Unrouted?
    case SweepDelete(c, tid) =>
      && c in s.clients && tid in s.clients[c].tunnels
      && (s.clients[c].sweep == Discarded(tid) || (s.clients[c].sweep.Sweeping? && s.clients[c].tunnels[tid].Socket?))
    case SweepUnlock(c) => c in s.clients && s.clients[c].sweep.Sweeping? && s.clients[c].tunnels == map[]
    case Unlink(c) => c in s.clients && s.clients[c].sweep.Swept?
    case Remove(c) => c in s.clients && s.clients[c].sweep.Unlinked?
  }

  /** Only the insertion into the client's tunnel map can be kept waiting, by the sweep. */
  predicate MayDo(s: State, th: Thread) {
    && th in s.work
    && (s.work[th].Publish? || s.work[th].PublishSocket? ==>
          th.MessageLoop? && th.client in s.clients && !Locked(s.clients[th.client]))
  }

  // --------------------------------------------------------------- effects

  function At<K, V>(m: map<K, V>, k: K): Option<V> {
    if k in m then Some(m[k]) else None
  }

  function Put<K, V>(m: map<K, V>, k: K, v: Option<V>): map<K, V> {
    if v.Some? then m[k := v.value] else m - {k}
  }

  /** What a step writes: one thread's work, one client, and the shared tables. */
  datatype Effect = Effect(th: Thread, work: Option<Work>, c: Id, client: Option<Client>, tables: Tables)

  function Apply(s: State, f: Effect): State {
    State(f.tables, Put(s.clients, f.c, f.client), Put(s.work, f.th, f.work))
  }

  function OwnClient(th: Thread): Id {
    if th.MessageLoop? then th.client else 0
  }

  /** The thread goes on with `w`. */
  function Goes(s: State, th: Thread, w: Work, tables: Tables): Effect {
    Effect(th, Some(w), OwnClient(th), At(s.clients, OwnClient(th)), tables)
  }

  /** The thread has no section left; a message loop goes back to its top. */
  function Ends(s: State, th: Thread, tables: Tables): Effect {
    var k := At(s.clients, OwnClient(th));
    Effect(th, None, OwnClient(th), if k.Some? && th.MessageLoop? then Some(k.value.(loop := Top)) else k, tables)
  }

  function OnClient(s: State, c: Id, k: Client, tables: Tables): Effect {
    Effect(MessageLoop(c), At(s.work, MessageLoop(c)), c, Some(k), tables)
  }

  /** The first section of closeTunnel: take the tunnel out of the client's map. */
  function Take(s: State, th: Thread, c: Id, k: Client, tid: Id): Effect {
    var own := th == MessageLoop(c);
    if tid in k.tunnels && k.tunnels[tid].Http? then
      Effect(th, Some(Unroute(tid, k.tunnels[tid].sub)), c,
             Some(k.(tunnels := k.tunnels - {tid}, loop := if own then Working else k.loop)), s.tables)
    else
      Effect(th, None, c, Some(k.(tunnels := k.tunnels - {tid}, loop := if own then Top else k.loop)), s.tables)
  }

  function RemoveBuffer(t: Tables, tid: Id): Tables {
    t.(buffers := t.buffers - {tid}, bufferUsers := t.bufferUsers - {tid})
  }

  predicate AboutSocket(w: Work) {
    w.Allocate? || w.Listen? || w.GiveBack? || w.PublishSocket? || w.Spawn?
  }

  function WorkEffect(cfg: Config, s: State, th: Thread, binds: bool): Effect
    requires MayDo(s, th)
  {
    if AboutSocket(s.work[th]) then SocketEffect(s, th, Answered(cfg, s, s.work[th]), binds)
    else HttpEffect(cfg.inspect, s, th)
  }

  /** What the port allocator would answer to this Work item. */
  function Answered(cfg: Config, s: State, w: Work): Answer {
    if w.Allocate? then Allocation(RangeOf(cfg, w.proto), UsedNumbers(s.tables.used, w.proto), w.requested)
    else Exhausted
  }

  function HttpEffect(inspect: bool, s: State, th: Thread): Effect
    requires MayDo(s, th) && !AboutSocket(s.work[th])
  {
    var t := s.tables;
    match s.work[th]
    case MakeBuffer(tid, sub) =>
      if inspect then Goes(s, th, NoteUser(tid, sub), t.(buffers := t.buffers + {tid}))
      else Goes(s, th, Register(tid, sub), t)
    case NoteUser(tid, sub) =>
      var k := At(s.clients, OwnClient(th));
      Goes(s, th, Register(tid, sub), t.(bufferUsers := t.bufferUsers[tid := if k.Some? then k.value.user else 0]))
    case Register(tid, sub) =>
      if sub in t.router then Goes(s, th, Undo(tid), t)
      else Goes(s, th, Publish(tid, sub), t.(router := t.router[sub := tid]))
    case Publish(tid, sub) =>
      var k := s.clients[th.client];
      Effect(th, None, th.client, Some(k.(loop := Top, tunnels := k.tunnels[tid := Http(sub)])), t)
    case Unroute(tid, sub) => Goes(s, th, Discard(tid), t.(router := t.router - {sub}))
    case Undo(tid) => Ends(s, th, RemoveBuffer(t, tid))
    case Discard(tid) => Ends(s, th, RemoveBuffer(t, tid))
  }

  function SocketEffect(s: State, th: Thread, answer: Answer, binds: bool): Effect
    requires MayDo(s, th) && AboutSocket(s.work[th])
  {
    var t := s.tables;
    match s.work[th]
    case Allocate(proto, _) =>
      if answer.Granted? then
        Goes(s, th, Listen(Port(proto, answer.port)), t.(used := t.used + {Port(proto, answer.port)}))
      else Ends(s, th, t)
    case Listen(port) =>
      if binds then Goes(s, th, PublishSocket(t.nextId, port), t.(nextId := t.nextId + 1))
      else Goes(s, th, GiveBack(port), t)
    case GiveBack(port) => Ends(s, th, t.(used := t.used - {port}))
    case PublishSocket(tid, port) =>
      var k := s.clients[th.client];
      Effect(th, Some(Spawn(tid, port)), th.client, Some(k.(tunnels := k.tunnels[tid := Socket(port)])), t)
    case Spawn(_, port) => Ends(s, th, t.(running := t.running[t.nextLoop := port], nextLoop := t.nextLoop + 1))
  }

  /** unlinkUserClient: drop the first occurrence, and the user when the list is empty. */
  function Without(list: seq<Id>, c: Id): seq<Id> {
    if list == [] then []
    else if list[0] == c then list[1..]
    else [list[0]] + Without(list[1..], c)
  }

  function UnlinkFrom(index: map<int, seq<Id>>, user: int, c: Id): map<int, seq<Id>> {
    if user == 0 || user !in index then index
    else if Without(index[user], c) == [] then index - {user}
    else index[user := Without(index[user], c)]
  }

  function LinkIn(index: map<int, seq<Id>>, user: int, c: Id): map<int, seq<Id>> {
    if user == 0 then index else index[user := Listed(index, user) + [c]]
  }

  function EffectOf(cfg: Config, s: State, e: Step): Effect
    requires Enabled(s, e)
  {
    var t := s.tables;
    match e
    case Connect(user, plan, tokenMax) =>
      OnClient(s, t.nextId, Client(user, plan, tokenMax, Starting, Idle, map[]),
               t.(nextId := t.nextId + 1, live := t.live + {t.nextId}))
    case Link(c) =>
      OnClient(s, c, s.clients[c].(loop := Top), t.(index := LinkIn(t.index, s.clients[c].user, c)))
    case TestContext(c) =>
      OnClient(s, c, s.clients[c].(loop := if s.clients[c].sweep.Idle? then Reading else Exited), t)
    case ReceiveOther(c) => OnClient(s, c, s.clients[c].(loop := Top), t)
    case ReceiveRequest(c, want) => OnClient(s, c, s.clients[c].(loop := Asked(want)), t)
    case Refuse(c) => OnClient(s, c, s.clients[c].(loop := Top), t)
    case PassPlan(c) => OnClient(s, c, s.clients[c].(loop := Counted(s.clients[c].loop.want)), t)
    case Admit(c) =>
      var k := s.clients[c];
      (match k.loop.want
       case WantHttp(sub) =>
         Effect(MessageLoop(c), Some(MakeBuffer(t.nextId, sub)), c, Some(k.(loop := Working)),
                t.(nextId := t.nextId + 1))
       case WantSocket(proto, requested) =>
         Effect(MessageLoop(c), Some(Allocate(proto, requested)), c, Some(k.(loop := Working)), t))
    case ReceiveClose(c, tid) => Take(s, MessageLoop(c), c, s.clients[c], tid)
    case Leave(c) => OnClient(s, c, s.clients[c].(loop := Exited), t)
    case AdminClose(call, c, tid) => Take(s, Admin(call), c, s.clients[c], tid)
    case Do(th, binds) => WorkEffect(cfg, s, th, binds)
    case LoopEnds(l) =>
      Effect(Admin(0), At(s.work, Admin(0)), 0, At(s.clients, 0),
             t.(used := t.used - {t.running[l]}, running := t.running - {l}))
    case _ => SweepEffect(s, e)
  }

  predicate OfClose(e: Step) {
    e.Cancel? || e.SweepLock? || e.SweepUnroute? || e.SweepDiscard? || e.SweepDelete? || e.SweepUnlock?
    || e.Unlink? || e.Remove?
  }

  /** The sections of Client.Close. */
  function SweepEffect(s: State, e: Step): Effect
    requires Enabled(s, e) && OfClose(e)
  {
    var t, k := s.tables, s.clients[e.c];
    match e
    case Cancel(c) => OnClient(s, c, k.(sweep := Cancelled), t)
    case SweepLock(c) => OnClient(s, c, k.(sweep := Sweeping), t)
    case SweepUnroute(c, tid) =>
      OnClient(s, c, k.(sweep := Unrouted(tid)), t.(router := t.router - {k.tunnels[tid].sub}))
    case SweepDiscard(c) => OnClient(s, c, k.(sweep := Discarded(k.sweep.tid)), RemoveBuffer(t, k.sweep.tid))
    case SweepDelete(c, tid) => OnClient(s, c, k.(tunnels := k.tunnels - {tid}, sweep := Sweeping), t)
    case SweepUnlock(c) => OnClient(s, c, k.(sweep := Swept), t)
    case Unlink(c) => OnClient(s, c, k.(sweep := Unlinked), t.(index := UnlinkFrom(t.index, k.user, c)))
    case Remove(c) => OnClient(s, c, k.(sweep := Removed), t.(live := t.live - {c}))
  }

  function Next(cfg: Config, s: State, e: Step): State
    requires Enabled(s, e)
  {
    Apply(s, EffectOf(cfg, s, e))
  }

  // ------------------------------------------------------------------ runs

  predicate Legal(cfg: Config, s: State, run: seq<Step>)
    decreases run
  {
    run == [] || (Enabled(s, run[0]) && Legal(cfg, Next(cfg, s, run[0]), run[1..]))
  }

  function Final(cfg: Config, s: State, run: seq<Step>): State
    requires Legal(cfg, s, run)
    decreases run
  {
    if run == [] then s else Final(cfg, Next(cfg, s, run[0]), run[1..])
  }

  /** The run leads from s to t. */
  predicate Leads(cfg: Config, s: State, run: seq<Step>, t: State) {
    Legal(cfg, s, run) && Final(cfg, s, run) == t
  }

  lemma LeadsOne(cfg: Config, s: State, e: Step)
    requires Enabled(s, e)
    ensures Leads(cfg, s, [e], Next(cfg, s, e))
  {
    assert [e][1..] == [];
  }

  lemma {:induction false} LeadsOn(cfg: Config, s: State, a: seq<Step>, t: State, b: seq<Step>, u: State)
    requires Leads(cfg, s, a, t) && Leads(cfg, t, b, u)
    ensures Leads(cfg, s, a + b, u)
    decreases a
  {
    if a == [] {
      assert a + b == b;
    } else {
      assert (a + b)[1..] == a[1..] + b;
      LeadsOn(cfg, Next(cfg, s, a[0]), a[1..], t, b, u);
    }
  }
}
