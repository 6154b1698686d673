/** A run in which the clients of one user get as many tunnels as their plan's limit can let
    through. It goes through four stages. First the clients connect, one after the other, each with
    its lock sections uninterrupted. Then client 0 opens tunnels until one more would reach the
    limit. Then every client asks for one more: as none of these has been opened yet, the count is
    still below the limit each time and all of them are admitted. Last, every client gets the tunnel
    it was admitted for. A stage says how far each client is; a step of the run moves one client on
    and leaves the others where they are. */
module RegistryParty {
  import opened Registry
  import opened RegistryAlone
  import opened Text
  import opened Wrappers

  // ------------------------------------------------------------ a party of clients

  /** The i-th of many different names. */
  function Name(i: nat): (name: Subdomain)
    ensures |name| == i
  {
    var name := seq(i, _ => 'a');
    assert ToLower(name) == name;
    name
  }

  /** The clients of one user on a plan of `limit` tunnels, in four stages: n clients have
      connected; client 0 has opened `base` tunnels; the first a clients have been admitted to one
      more; the first d have got it. */
  datatype Stage = Stage(user: int, limit: int, n: nat, base: nat, a: nat, d: nat)

  predicate Ordered(p: Stage) {
    p.user > 0 && p.limit > 0 && p.d <= p.a <= p.n && p.base < p.limit
  }

  function LoopAt(p: Stage, c: Id): Loop {
    if c < p.d then Top else if c < p.a then Working else Reading
  }

  function SizeAt(p: Stage, c: Id): nat {
    (if c == 0 then p.base else 0) + if c < p.d then 1 else 0
  }

  function WorkAt(p: Stage, c: Id): Option<Work> {
    if p.d <= c < p.a then Some(MakeBuffer(p.n + p.base + c, Name(p.base + c))) else None
  }

  predicate Member(p: Stage, c: Id, k: Client, w: Option<Work>, t: Tables) {
    && k.user == p.user && k.plan == Plan(p.limit) && k.tokenMax == 0 && k.sweep.Idle? && k.loop == LoopAt(p, c)
    && |k.tunnels| == SizeAt(p, c) && (c >= p.d ==> forall tid :: tid in k.tunnels ==> tid < p.n + p.base)
    && w == WorkAt(p, c) && c in t.live
  }

  function Everyone(n: nat): seq<Id> {
    seq(n, i => i)
  }

  ghost predicate Shared(p: Stage, t: Tables) {
    && Listed(t.index, p.user) == Everyone(p.n) && t.nextId == p.n + p.base + p.a
    && forall i: nat :: i >= p.base + p.d ==> Name(i) !in t.router
  }

  predicate PartyAt(p: Stage, s: State, d: Id) {
    && (d in s.clients <==> d < p.n) && (MessageLoop(d) in s.work ==> d < p.n)
    && (d < p.n ==> Member(p, d, s.clients[d], At(s.work, MessageLoop(d)), s.tables))
  }

  ghost predicate Party(p: Stage, s: State) {
    Ordered(p) && Shared(p, s.tables) && forall c: Id :: PartyAt(p, s, c)
  }

  /** A client other than c is as far in stage q as in stage p. */
  predicate Unmoved(p: Stage, q: Stage, d: Id) {
    && LoopAt(q, d) == LoopAt(p, d) && SizeAt(q, d) == SizeAt(p, d) && WorkAt(q, d) == WorkAt(p, d)
    && (d < p.d <==> d < q.d)
  }

  /** Only client c moves on from stage p to stage q. */
  ghost predicate OneMoves(p: Stage, q: Stage, c: Id) {
    && Ordered(q) && q.user == p.user && q.limit == p.limit && p.n + p.base <= q.n + q.base
    && c < q.n == (if c == p.n then p.n + 1 else p.n)
    && forall d: Id :: d < p.n && d != c ==> Unmoved(p, q, d)
  }

  lemma StagesMoveOne(p: Stage)
    requires Ordered(p)
    ensures p.base == p.a == 0 ==> OneMoves(p, p.(n := p.n + 1), p.n)
    ensures p.a == 0 < p.n && p.base + 1 < p.limit ==> OneMoves(p, p.(base := p.base + 1), 0)
    ensures p.d == 0 && p.a < p.n ==> OneMoves(p, p.(a := p.a + 1), p.a)
    ensures p.d < p.a == p.n ==> OneMoves(p, p.(d := p.d + 1), p.d)
  {
  }

  lemma PlaceInParty(p: Stage, q: Stage, s: State, c: Id, k: Client, w: Option<Work>, t: Tables, d: Id)
    requires PartyAt(p, s, d) && OneMoves(p, q, c) && s.tables.live <= t.live && Member(q, c, k, w, t)
    ensures PartyAt(q, Focus(s, c, k, w, t), d)
  {
    if d != c && d < p.n { assert Unmoved(p, q, d); }
    assert d != c ==> At(Focus(s, c, k, w, t).work, MessageLoop(d)) == At(s.work, MessageLoop(d));
  }

  lemma MovesOn(p: Stage, q: Stage, s: State, c: Id, k: Client, w: Option<Work>, t: Tables)
    requires Party(p, s) && OneMoves(p, q, c) && Shared(q, t) && s.tables.live <= t.live && Member(q, c, k, w, t)
    ensures Party(q, Focus(s, c, k, w, t))
  {
    forall d: Id ensures PartyAt(q, Focus(s, c, k, w, t), d) {
      assert PartyAt(p, s, d);
      PlaceInParty(p, q, s, c, k, w, t, d);
    }
  }

  // ------------------------------------------------------------------------ counting

  lemma {:induction false} NothingCounted(s: State, listed: seq<Id>)
    requires forall c :: c in listed && c in s.clients ==> s.clients[c].tunnels == map[]
    ensures Count(s, listed) == 0
  {
    if listed != [] {
      assert listed == [listed[0]] + listed[1..];
      NothingCounted(s, listed[1..]);
    }
  }

  /** As long as nobody has got the last tunnel, the count is that of client 0. */
  lemma PartyCount(p: Stage, s: State, c: Id, k: Client)
    requires Party(p, s) && p.d == 0 && c < p.n && c in s.clients && k.tunnels == s.clients[c].tunnels
    ensures Count(Focus(s, c, k, None, s.tables), Everyone(p.n)) == p.base
  {
    var f, all := Focus(s, c, k, None, s.tables), Everyone(p.n);
    forall d | d in all[1..] && d in f.clients ensures f.clients[d].tunnels == map[] {
      var i :| 0 <= i < |all[1..]| && all[1..][i] == d;
      assert d == all[i + 1] && PartyAt(p, s, d);
      assert |f.clients[d].tunnels| == 0;
    }
    NothingCounted(f, all[1..]);
    assert PartyAt(p, s, 0);
  }

  // ---------------------------------------------------------------------- the stages

  lemma ReadingAlone(cfg: Config, from: State, run: seq<Step>, s: State, c: Id, k: Client, t: Tables)
      returns (longer: seq<Step>)
    requires Leads(cfg, from, run, Focus(s, c, k, None, t)) && k.loop.Top? && k.sweep.Idle?
    ensures Leads(cfg, from, longer, Focus(s, c, k.(loop := Reading), None, t))
  {
    longer := Extend(cfg, from, run, s, c, k, None, t, TestContext(c), k.(loop := Reading), None, t);
  }

  lemma ClientMember(p: Stage, t: Tables)
    requires Ordered(p) && p.base == p.a == p.d == 0 && Shared(p, t)
    ensures var q, c := p.(n := p.n + 1), p.n;
            var t' := t.(nextId := c + 1, live := t.live + {c}, index := LinkIn(t.index, p.user, c));
            Member(q, c, Client(p.user, Plan(p.limit), 0, Reading, Idle, map[]), None, t') && Shared(q, t')
  {
    assert Everyone(p.n) + [p.n] == Everyone(p.n + 1);
  }

  lemma OneMoreClient(cfg: Config, p: Stage, s: State) returns (run: seq<Step>)
    requires Party(p, s) && p.base == p.a == p.d == 0
    ensures Legal(cfg, s, run) && Party(p.(n := p.n + 1), Final(cfg, s, run))
  {
    var c, t := p.n, s.tables;
    var k := Client(p.user, Plan(p.limit), 0, Top, Idle, map[]);
    var t' := t.(nextId := c + 1, live := t.live + {c}, index := LinkIn(t.index, p.user, c));
    assert PartyAt(p, s, c);
    run := LinkingAlone(cfg, s, p.user, Plan(p.limit), 0);
    run := ReadingAlone(cfg, s, run, s, c, k, t');
    ClientMember(p, t);
    assert OneMoves(p, p.(n := p.n + 1), c) by { StagesMoveOne(p); }
    MovesOn(p, p.(n := p.n + 1), s, c, k.(loop := Reading), None, t');
  }

  /** A reading client asks for a name and passes both limit tests. */
  lemma AskingAlone(cfg: Config, s: State, c: Id, k: Client, sub: Subdomain) returns (run: seq<Step>)
    requires At(s.clients, c) == Some(k) && k.loop.Reading? && MessageLoop(c) !in s.work
    requires UnderPlan(Focus(s, c, k.(loop := Asked(WantHttp(sub))), None, s.tables), c) && UnderToken(k)
    ensures var t := s.tables;
            Leads(cfg, s, run,
                  Focus(s, c, k.(loop := Working), Some(MakeBuffer(t.nextId, sub)), t.(nextId := t.nextId + 1)))
  {
    var k', t := k.(loop := Asked(WantHttp(sub))), s.tables;
    StartFocus(s, c);
    run := Extend(cfg, s, [], s, c, k, None, t, ReceiveRequest(c, WantHttp(sub)), k', None, t);
    run := AdmittedHttp(cfg, s, run, s, c, k', t);
  }

  /** Client c asks for the next name and is admitted. */
  lemma NextRequest(cfg: Config, p: Stage, s: State, c: Id, k: Client, sub: Subdomain) returns (run: seq<Step>)
    requires Party(p, s) && p.d == 0 && p.a <= c < p.n && At(s.clients, c) == Some(k)
    ensures Leads(cfg, s, run, Focus(s, c, k.(loop := Working), Some(MakeBuffer(s.tables.nextId, sub)),
                                     s.tables.(nextId := s.tables.nextId + 1)))
  {
    assert PartyAt(p, s, c);
    PartyCount(p, s, c, k.(loop := Asked(WantHttp(sub))));
    run := AskingAlone(cfg, s, c, k, sub);
  }

  function Opened(k: Client, loop: Loop, tid: Id, sub: Subdomain): Client {
    k.(loop := loop, tunnels := k.tunnels[tid := Http(sub)])
  }

  function Routed(cfg: Config, t: Tables, user: int, tid: Id, sub: Subdomain): Tables {
    var b := Buffered(cfg, t, user, tid);
    b.(router := b.router[sub := tid])
  }

  /** An admitted client gets its tunnel. */
  lemma GettingAlone(cfg: Config, from: State, run: seq<Step>, s: State, c: Id, k: Client, t: Tables, tid: Id,
                     sub: Subdomain)
      returns (longer: seq<Step>)
    requires Leads(cfg, from, run, Focus(s, c, k, Some(MakeBuffer(tid, sub)), t)) && sub !in t.router && !Locked(k)
    ensures Leads(cfg, from, longer, Focus(s, c, Opened(k, Top, tid, sub), None, Routed(cfg, t, k.user, tid, sub)))
  {
    longer := BuffersAlone(cfg, from, run, s, c, k, t, tid, sub);
    longer := FreeAlone(cfg, from, longer, s, c, k, Buffered(cfg, t, k.user, tid), tid, sub);
  }

  lemma OneMore(m: map<Id, Tunnel>, tid: Id, t: Tunnel)
    requires tid !in m
    ensures |m[tid := t]| == |m| + 1
  {
    assert m[tid := t].Keys == m.Keys + {tid};
  }

  lemma TunnelMember(cfg: Config, p: Stage, k: Client, t: Tables, sub: Subdomain)
    requires Ordered(p) && p.a == p.d == 0 < p.n && Shared(p, t) && Member(p, 0, k, None, t) && sub == Name(p.base)
    ensures var q, tid := p.(base := p.base + 1), t.nextId;
            var t' := Routed(cfg, t.(nextId := tid + 1), k.user, tid, sub);
            Member(q, 0, Opened(k, Reading, tid, sub), None, t') && Shared(q, t')
  {
    OneMore(k.tunnels, t.nextId, Http(sub));
  }

  lemma TunnelMoves(cfg: Config, p: Stage, s: State, k: Client, sub: Subdomain, t: Tables)
    requires Party(p, s) && p.a == p.d == 0 < p.n && p.base + 1 < p.limit && At(s.clients, 0) == Some(k)
    requires sub == Name(p.base)
    requires t == Routed(cfg, s.tables.(nextId := s.tables.nextId + 1), k.user, s.tables.nextId, sub)
    ensures Party(p.(base := p.base + 1), Focus(s, 0, Opened(k, Reading, s.tables.nextId, sub), None, t))
  {
    assert PartyAt(p, s, 0);
    TunnelMember(cfg, p, k, s.tables, sub);
    assert OneMoves(p, p.(base := p.base + 1), 0) by { StagesMoveOne(p); }
    MovesOn(p, p.(base := p.base + 1), s, 0, Opened(k, Reading, s.tables.nextId, sub), None, t);
  }

  lemma TunnelAlone(cfg: Config, p: Stage, s: State, k: Client, sub: Subdomain, t: Tables) returns (run: seq<Step>)
    requires Party(p, s) && p.a == p.d == 0 < p.n && At(s.clients, 0) == Some(k) && sub !in s.tables.router
    requires t == Routed(cfg, s.tables.(nextId := s.tables.nextId + 1), k.user, s.tables.nextId, sub)
    ensures Leads(cfg, s, run, Focus(s, 0, Opened(k, Reading, s.tables.nextId, sub), None, t))
  {
    var tid := s.tables.nextId;
    assert PartyAt(p, s, 0);
    run := NextRequest(cfg, p, s, 0, k, sub);
    run := GettingAlone(cfg, s, run, s, 0, k.(loop := Working), s.tables.(nextId := tid + 1), tid, sub);
    run := ReadingAlone(cfg, s, run, s, 0, Opened(k, Top, tid, sub), t);
  }

  lemma OneMoreTunnel(cfg: Config, p: Stage, s: State, k: Client, sub: Subdomain) returns (run: seq<Step>)
    requires Party(p, s) && p.a == p.d == 0 < p.n && p.base + 1 < p.limit
    requires At(s.clients, 0) == Some(k) && sub == Name(p.base)
    ensures Legal(cfg, s, run) && Party(p.(base := p.base + 1), Final(cfg, s, run))
  {
    var t := Routed(cfg, s.tables.(nextId := s.tables.nextId + 1), k.user, s.tables.nextId, sub);
    run := TunnelAlone(cfg, p, s, k, sub, t);
    TunnelMoves(cfg, p, s, k, sub, t);
  }

  lemma AdmittedMoves(p: Stage, s: State, c: Id, k: Client, sub: Subdomain)
    requires Party(p, s) && p.d == 0 && c == p.a < p.n && At(s.clients, c) == Some(k) && sub == Name(p.base + c)
    ensures Party(p.(a := p.a + 1), Focus(s, c, k.(loop := Working), Some(MakeBuffer(s.tables.nextId, sub)),
                                          s.tables.(nextId := s.tables.nextId + 1)))
  {
    assert PartyAt(p, s, c);
    assert OneMoves(p, p.(a := p.a + 1), c) by { StagesMoveOne(p); }
    MovesOn(p, p.(a := p.a + 1), s, c, k.(loop := Working), Some(MakeBuffer(s.tables.nextId, sub)),
            s.tables.(nextId := s.tables.nextId + 1));
  }

  lemma OneMoreAdmitted(cfg: Config, p: Stage, s: State, c: Id, k: Client, sub: Subdomain) returns (run: seq<Step>)
    requires Party(p, s) && p.d == 0 && c == p.a < p.n && At(s.clients, c) == Some(k) && sub == Name(p.base + c)
    ensures Legal(cfg, s, run) && Party(p.(a := p.a + 1), Final(cfg, s, run))
  {
    run := NextRequest(cfg, p, s, c, k, sub);
    AdmittedMoves(p, s, c, k, sub);
  }

  lemma OpenedMember(cfg: Config, p: Stage, k: Client, t: Tables, sub: Subdomain)
    requires Ordered(p) && p.d < p.a == p.n && Shared(p, t)
    requires Member(p, p.d, k, WorkAt(p, p.d), t) && sub == Name(p.base + p.d)
    ensures var q, tid := p.(d := p.d + 1), p.n + p.base + p.d;
            var t' := Routed(cfg, t, k.user, tid, sub);
            Member(q, p.d, Opened(k, Top, tid, sub), None, t') && Shared(q, t')
  {
    OneMore(k.tunnels, p.n + p.base + p.d, Http(sub));
  }

  lemma OpenedMoves(cfg: Config, p: Stage, s: State, c: Id, k: Client, tid: Id, sub: Subdomain)
    requires Party(p, s) && c == p.d < p.a == p.n && At(s.clients, c) == Some(k)
    requires tid == p.n + p.base + c && sub == Name(p.base + c)
    ensures Party(p.(d := p.d + 1),
                  Focus(s, c, Opened(k, Top, tid, sub), None, Routed(cfg, s.tables, k.user, tid, sub)))
  {
    assert PartyAt(p, s, c);
    OpenedMember(cfg, p, k, s.tables, sub);
    assert OneMoves(p, p.(d := p.d + 1), c) by { StagesMoveOne(p); }
    MovesOn(p, p.(d := p.d + 1), s, c, Opened(k, Top, tid, sub), None, Routed(cfg, s.tables, k.user, tid, sub));
  }

  lemma OpenedAlone(cfg: Config, s: State, c: Id, k: Client, tid: Id, sub: Subdomain) returns (run: seq<Step>)
    requires At(s.clients, c) == Some(k) && At(s.work, MessageLoop(c)) == Some(MakeBuffer(tid, sub))
    requires sub !in s.tables.router && !Locked(k)
    ensures Leads(cfg, s, run, Focus(s, c, Opened(k, Top, tid, sub), None, Routed(cfg, s.tables, k.user, tid, sub)))
  {
    StartFocus(s, c);
    run := GettingAlone(cfg, s, [], s, c, k, s.tables, tid, sub);
  }

  lemma OneMoreOpened(cfg: Config, p: Stage, s: State, c: Id, k: Client, tid: Id, sub: Subdomain)
      returns (run: seq<Step>)
    requires Party(p, s) && c == p.d < p.a == p.n && At(s.clients, c) == Some(k)
    requires tid == p.n + p.base + c && sub == Name(p.base + c)
    ensures Legal(cfg, s, run) && Party(p.(d := p.d + 1), Final(cfg, s, run))
  {
    assert PartyAt(p, s, c);
    run := OpenedAlone(cfg, s, c, k, tid, sub);
    OpenedMoves(cfg, p, s, c, k, tid, sub);
  }

  // ------------------------------------------------------------------ the whole run

  /** Stages in the order in which a run goes through them. */
  predicate InOrder(p: Stage) {
    Ordered(p) && (p.base > 0 ==> p.n > 0) && (p.a > 0 ==> p.base == p.limit - 1) && (p.d > 0 ==> p.a == p.n)
  }

  function Before(p: Stage): Stage
    requires p.n > 0 || p.base > 0
  {
    if p.d > 0 then p.(d := p.d - 1)
    else if p.a > 0 then p.(a := p.a - 1)
    else if p.base > 0 then p.(base := p.base - 1)
    else p.(n := p.n - 1)
  }

  lemma NextStage(cfg: Config, q: Stage, p: Stage, s: State) returns (run: seq<Step>)
    requires InOrder(p) && p.n > 0 && q == Before(p) && Party(q, s)
    ensures Legal(cfg, s, run) && Party(p, Final(cfg, s, run))
  {
    var c := if p.d > 0 then q.d else q.a;
    assert PartyAt(q, s, c);
    if p.d > 0 {
      assert p == q.(d := q.d + 1);
      run := OneMoreOpened(cfg, q, s, c, s.clients[c], q.n + q.base + c, Name(q.base + c));
    } else if p.a > 0 {
      assert p == q.(a := q.a + 1);
      run := OneMoreAdmitted(cfg, q, s, c, s.clients[c], Name(q.base + c));
    } else if p.base > 0 {
      assert p == q.(base := q.base + 1);
      run := OneMoreTunnel(cfg, q, s, s.clients[c], Name(q.base));
    } else {
      assert p == q.(n := q.n + 1);
      run := OneMoreClient(cfg, q, s);
    }
  }

  lemma {:induction false} PartyRun(cfg: Config, p: Stage) returns (run: seq<Step>)
    requires InOrder(p)
    ensures Legal(cfg, INIT, run) && Party(p, Final(cfg, INIT, run))
    decreases p.n + p.base + p.a + p.d
  {
    if p.n == 0 {
      run := [];
      assert Everyone(0) == [];
    } else {
      run := PartyRun(cfg, Before(p));
      var s := Final(cfg, INIT, run);
      var more := NextStage(cfg, Before(p), p, s);
      LeadsOn(cfg, INIT, run, s, more, Final(cfg, s, more));
      run := run + more;
    }
  }
}
