/** The user that the inspect manager files for a tunnel is the user of the client that owns it,
    in every reachable state (internal/inspect/manager.go:54-87). */
module RegistryUsers {
  import opened Ports
  import opened Registry
  import opened RegistryOwnership
  import opened RegistryRuns
  import opened Wrappers

  /** The user of the client that a holder works for; an administrative close works for none. */
  function UserOf(s: State, h: Holder): Option<int> {
    match h
    case OnList(c) => if c in s.clients then Some(s.clients[c].user) else None
    case Doing(MessageLoop(c)) => if c in s.clients then Some(s.clients[c].user) else None
    case _ => None
  }

  /** Past the section that files the user. */
  predicate Noted(w: Option<Work>) {
    w.Some? && !w.value.NoteUser?
  }

  predicate FiledAs(must: bool, users: map<Id, int>, tid: Id, user: int) {
    if tid in users then users[tid] == user else !must
  }

  predicate FiledFor(inspect: bool, s: State, h: Holder, tid: Id) {
    HoldsBuffer(s, h, tid) && UserOf(s, h).Some? ==>
      FiledAs(inspect && (h.Doing? ==> Noted(At(s.work, h.th))), s.tables.bufferUsers, tid, UserOf(s, h).value)
  }

  ghost predicate Filed(inspect: bool, s: State) {
    forall h, tid: Id :: FiledFor(inspect, s, h, tid)
  }

  /** What an effect does to the filed user of one tunnel. */
  predicate FiledAt(inspect: bool, s: State, f: Effect, home: map<Id, Holder>, tid: Id) {
    && (At(f.tables.bufferUsers, tid) == At(s.tables.bufferUsers, tid) || Written(f, At(home, tid)))
    && (f.th.MessageLoop? && WorkBuffers(f.work, tid) && f.client.Some? ==>
          f.th.client == f.c && FiledAs(inspect && Noted(f.work), f.tables.bufferUsers, tid, f.client.value.user))
    && (ListBuffers(f.client, tid) ==> FiledAs(inspect, f.tables.bufferUsers, tid, f.client.value.user))
  }

  predicate KeepsUser(s: State, f: Effect) {
    && (f.th.MessageLoop? ==> f.th.client == f.c)
    && if f.c in s.clients then f.client.Some? && f.client.value.user == s.clients[f.c].user
       else f.client.Some? ==> f.client.value.tunnels == map[] && f.work == None
  }

  lemma FiledFromEffect(inspect: bool, s: State, f: Effect, home: map<Id, Holder>, h: Holder, tid: Id)
    requires Homes(s, home) && FiledFor(inspect, s, h, tid) && FiledAt(inspect, s, f, home, tid) && KeepsUser(s, f)
    requires h.Doing? && h.th.MessageLoop? && h.th in s.work ==> h.th.client in s.clients
    ensures FiledFor(inspect, Apply(s, f), h, tid)
  {
    if h != Doing(f.th) && h != OnList(f.c) && HoldsBuffer(Apply(s, f), h, tid) {
      assert HoldsTunnel(s, h, tid) && At(home, tid) == Some(h);
    }
  }

  /** What holds of a thread and a client before a step. */
  predicate Facts(inspect: bool, s: State, th: Thread, c: Id, home: map<Id, Holder>, tid: Id) {
    && (Subject(At(s.work, th)) == Some(tid) <==> At(home, tid) == Some(Doing(th)))
    && (Has(At(s.clients, c), tid) <==> At(home, tid) == Some(OnList(c)))
    && (tid in s.tables.bufferUsers ==> tid in home && HoldsBuffer(s, home[tid], tid))
    && FiledFor(inspect, s, Doing(th), tid) && FiledFor(inspect, s, OnList(c), tid)
  }

  lemma FactsHold(inspect: bool, s: State, th: Thread, c: Id, home: map<Id, Holder>, tid: Id)
    requires Homes(s, home) && Buffers(inspect, s, home) && Filed(inspect, s)
    ensures Facts(inspect, s, th, c, home, tid)
  {
    BufferFacts(inspect, s, th, c, home, tid);
    assert FiledFor(inspect, s, Doing(th), tid) && FiledFor(inspect, s, OnList(c), tid);
  }

  lemma HttpFiles(inspect: bool, s: State, th: Thread, home: map<Id, Holder>, tid: Id)
    requires MayDo(s, th) && !AboutSocket(s.work[th]) && ThreadOk(th, s.work[th], At(s.clients, OwnClient(th)))
    requires Facts(inspect, s, th, OwnClient(th), home, tid)
    requires Facts(inspect, s, th, OwnClient(th), home, s.work[th].tid)
    ensures FiledAt(inspect, s, HttpEffect(inspect, s, th), home, tid)
  {
    if s.work[th].Undo? || s.work[th].Discard? {
      HttpDropsFile(inspect, s, th, home, tid);
    } else {
      HttpMakesFile(inspect, s, th, home, tid);
    }
  }

  lemma HttpDropsFile(inspect: bool, s: State, th: Thread, home: map<Id, Holder>, tid: Id)
    requires MayDo(s, th) && (s.work[th].Undo? || s.work[th].Discard?)
    requires ThreadOk(th, s.work[th], At(s.clients, OwnClient(th))) && Facts(inspect, s, th, OwnClient(th), home, tid)
    ensures FiledAt(inspect, s, HttpEffect(inspect, s, th), home, tid)
  {
  }

  lemma HttpMakesFile(inspect: bool, s: State, th: Thread, home: map<Id, Holder>, tid: Id)
    requires MayDo(s, th) && !AboutSocket(s.work[th]) && !s.work[th].Undo? && !s.work[th].Discard?
    requires ThreadOk(th, s.work[th], At(s.clients, OwnClient(th))) && Facts(inspect, s, th, OwnClient(th), home, tid)
    requires Facts(inspect, s, th, OwnClient(th), home, s.work[th].tid)
    ensures FiledAt(inspect, s, HttpEffect(inspect, s, th), home, tid)
  {
  }

  lemma SocketFiles(inspect: bool, s: State, th: Thread, answer: Answer, binds: bool, home: map<Id, Holder>, tid: Id)
    requires MayDo(s, th) && AboutSocket(s.work[th]) && ThreadOk(th, s.work[th], At(s.clients, OwnClient(th)))
    requires Facts(inspect, s, th, OwnClient(th), home, tid)
    ensures FiledAt(inspect, s, SocketEffect(s, th, answer, binds), home, tid)
  {
  }

  lemma TakeFiles(inspect: bool, s: State, th: Thread, c: Id, x: Id, home: map<Id, Holder>, tid: Id)
    requires c in s.clients && !Locked(s.clients[c]) && th !in s.work && (th.MessageLoop? ==> th.client == c)
    requires Facts(inspect, s, th, c, home, tid)
    ensures FiledAt(inspect, s, Take(s, th, c, s.clients[c], x), home, tid)
  {
  }

  lemma SweepFiles(inspect: bool, s: State, e: Step, home: map<Id, Holder>, tid: Id)
    requires Enabled(s, e) && OfClose(e) && SweepOk(s.clients[e.c])
    requires Facts(inspect, s, MessageLoop(e.c), e.c, home, tid)
    requires e.SweepDiscard? ==> At(home, s.clients[e.c].sweep.tid) == Some(OnList(e.c))
    ensures FiledAt(inspect, s, SweepEffect(s, e), home, tid)
  {
    if e.SweepDiscard? || e.SweepDelete? {
      SweepDropsFile(inspect, s, e, home, tid);
    } else {
      SweepKeepsFile(inspect, s, e, home, tid);
    }
  }

  lemma SweepDropsFile(inspect: bool, s: State, e: Step, home: map<Id, Holder>, tid: Id)
    requires Enabled(s, e) && (e.SweepDiscard? || e.SweepDelete?) && SweepOk(s.clients[e.c])
    requires Facts(inspect, s, MessageLoop(e.c), e.c, home, tid)
    requires e.SweepDiscard? ==> At(home, s.clients[e.c].sweep.tid) == Some(OnList(e.c))
    ensures FiledAt(inspect, s, SweepEffect(s, e), home, tid)
  {
  }

  lemma SweepKeepsFile(inspect: bool, s: State, e: Step, home: map<Id, Holder>, tid: Id)
    requires Enabled(s, e) && OfClose(e) && !e.SweepDiscard? && !e.SweepDelete?
    requires Facts(inspect, s, MessageLoop(e.c), e.c, home, tid)
    ensures FiledAt(inspect, s, SweepEffect(s, e), home, tid)
  {
  }

  lemma LoopFiles(cfg: Config, s: State, e: Step, home: map<Id, Holder>, tid: Id)
    requires Enabled(s, e) && !e.Do? && !e.ReceiveClose? && !e.AdminClose? && !OfClose(e)
    requires Orderly(s) && s.tables.nextId !in s.clients
    requires Facts(cfg.inspect, s, EffectOf(cfg, s, e).th, EffectOf(cfg, s, e).c, home, tid)
    requires e.Admit? ==> MessageLoop(e.c) !in s.work
    ensures FiledAt(cfg.inspect, s, EffectOf(cfg, s, e), home, tid)
  {
    if e.Connect? || e.Admit? || e.LoopEnds? {
      LoopBegins(cfg, s, e, home, tid);
    } else {
      LoopGoesOn(cfg, s, e, home, tid);
    }
  }

  lemma LoopBegins(cfg: Config, s: State, e: Step, home: map<Id, Holder>, tid: Id)
    requires Enabled(s, e) && (e.Connect? || e.Admit? || e.LoopEnds?) && Orderly(s) && s.tables.nextId !in s.clients
    requires Facts(cfg.inspect, s, EffectOf(cfg, s, e).th, EffectOf(cfg, s, e).c, home, tid)
    requires e.Admit? ==> MessageLoop(e.c) !in s.work
    ensures FiledAt(cfg.inspect, s, EffectOf(cfg, s, e), home, tid)
  {
  }

  lemma LoopGoesOn(cfg: Config, s: State, e: Step, home: map<Id, Holder>, tid: Id)
    requires Enabled(s, e) && !e.Do? && !e.ReceiveClose? && !e.AdminClose? && !OfClose(e)
    requires !e.Connect? && !e.Admit? && !e.LoopEnds?
    requires Facts(cfg.inspect, s, MessageLoop(e.c), e.c, home, tid)
    ensures FiledAt(cfg.inspect, s, EffectOf(cfg, s, e), home, tid)
  {
  }

  lemma StepFiles(cfg: Config, s: State, e: Step, home: map<Id, Holder>, tid: Id)
    requires Enabled(s, e) && Orderly(s) && Homes(s, home) && Buffers(cfg.inspect, s, home) && Filed(cfg.inspect, s)
    ensures FiledAt(cfg.inspect, s, EffectOf(cfg, s, e), home, tid)
  {
    var inspect := cfg.inspect;
    if e.Do? {
      var c, w := OwnClient(e.th), s.work[e.th];
      assert ThreadOk(e.th, w, At(s.clients, c));
      FactsHold(inspect, s, e.th, c, home, tid);
      if AboutSocket(w) {
        SocketFiles(inspect, s, e.th, Answered(cfg, s, w), e.binds, home, tid);
      } else {
        FactsHold(inspect, s, e.th, c, home, w.tid);
        HttpFiles(inspect, s, e.th, home, tid);
      }
      assert EffectOf(cfg, s, e) == WorkEffect(cfg, s, e.th, e.binds);
    } else if e.ReceiveClose? || e.AdminClose? {
      var th := if e.ReceiveClose? then MessageLoop(e.c) else Admin(e.call);
      if e.ReceiveClose? { LoopIsFree(s, e.c); }
      FactsHold(inspect, s, th, e.c, home, tid);
      TakeFiles(inspect, s, th, e.c, e.tid, home, tid);
    } else {
      QuietFiles(cfg, s, e, home, tid);
    }
  }

  lemma QuietFiles(cfg: Config, s: State, e: Step, home: map<Id, Holder>, tid: Id)
    requires Enabled(s, e) && !e.Do? && !e.ReceiveClose? && !e.AdminClose?
    requires Orderly(s) && Homes(s, home) && Buffers(cfg.inspect, s, home) && Filed(cfg.inspect, s)
    ensures FiledAt(cfg.inspect, s, EffectOf(cfg, s, e), home, tid)
  {
    if OfClose(e) {
      assert SweepOk(s.clients[e.c]);
      FactsHold(cfg.inspect, s, MessageLoop(e.c), e.c, home, tid);
      if e.SweepDiscard? { FactsHold(cfg.inspect, s, MessageLoop(e.c), e.c, home, s.clients[e.c].sweep.tid); }
      SweepFiles(cfg.inspect, s, e, home, tid);
      assert EffectOf(cfg, s, e) == SweepEffect(s, e);
    } else {
      FactsHold(cfg.inspect, s, EffectOf(cfg, s, e).th, EffectOf(cfg, s, e).c, home, tid);
      if e.Admit? { LoopIsFree(s, e.c); }
      LoopFiles(cfg, s, e, home, tid);
    }
  }

  lemma StepKeepsUser(cfg: Config, s: State, e: Step)
    requires Enabled(s, e) && Orderly(s)
    ensures KeepsUser(s, EffectOf(cfg, s, e))
  {
    if e.Do? {
      WorkKeepsUser(cfg, s, e.th, e.binds);
    } else {
      CallKeepsUser(cfg, s, e);
    }
  }

  lemma WorkKeepsUser(cfg: Config, s: State, th: Thread, binds: bool)
    requires MayDo(s, th) && Orderly(s)
    ensures KeepsUser(s, WorkEffect(cfg, s, th, binds))
  {
    assert ThreadOk(th, s.work[th], At(s.clients, OwnClient(th)));
  }

  lemma CallKeepsUser(cfg: Config, s: State, e: Step)
    requires Enabled(s, e) && !e.Do? && Orderly(s)
    ensures KeepsUser(s, EffectOf(cfg, s, e))
  {
    if OfClose(e) {
      SweepKeepsUser(cfg, s, e);
    } else {
      LoopKeepsUser(cfg, s, e);
    }
  }

  lemma SweepKeepsUser(cfg: Config, s: State, e: Step)
    requires Enabled(s, e) && OfClose(e)
    ensures KeepsUser(s, EffectOf(cfg, s, e))
  {
    assert EffectOf(cfg, s, e) == SweepEffect(s, e);
  }

  lemma LoopKeepsUser(cfg: Config, s: State, e: Step)
    requires Enabled(s, e) && !e.Do? && !OfClose(e) && Orderly(s)
    ensures KeepsUser(s, EffectOf(cfg, s, e))
  {
    var loop := MessageLoop(s.tables.nextId);
    assert loop in s.work ==> ThreadOk(loop, s.work[loop], At(s.clients, OwnClient(loop)));
  }

  lemma StepKeepsFiled(cfg: Config, s: State, e: Step)
    requires Enabled(s, e) && Owned(cfg, s) && Filed(cfg.inspect, s)
    ensures Filed(cfg.inspect, Next(cfg, s, e))
  {
    var f := EffectOf(cfg, s, e);
    var home :| Homes(s, home) && Routes(s, home) && Buffers(cfg.inspect, s, home);
    StepKeepsUser(cfg, s, e);
    forall h, tid: Id ensures FiledFor(cfg.inspect, Next(cfg, s, e), h, tid) {
      assert FiledFor(cfg.inspect, s, h, tid);
      assert h.Doing? && h.th in s.work ==> ThreadOk(h.th, s.work[h.th], At(s.clients, OwnClient(h.th)));
      StepFiles(cfg, s, e, home, tid);
      FiledFromEffect(cfg.inspect, s, f, home, h, tid);
    }
  }

  lemma {:induction false} RunKeepsFiled(cfg: Config, s: State, run: seq<Step>)
    requires Legal(cfg, s, run) && Owned(cfg, s) && Filed(cfg.inspect, s)
    ensures Filed(cfg.inspect, Final(cfg, s, run))
    decreases run
  {
    if run != [] {
      StepKeepsFiled(cfg, s, run[0]);
      StepKeepsTunnels(cfg, s, run[0]);
      StepKeepsPorts(cfg, s, run[0]);
      RunKeepsFiled(cfg, Next(cfg, s, run[0]), run[1..]);
    }
  }

  /** In every reachable state the user filed for an owned tunnel is the owning client's user, and
      with inspection on every HTTP tunnel in a client's map that still has its buffer is filed. */
  lemma BuffersAreFiledUnderTheirUser(cfg: Config, run: seq<Step>, c: Id, tid: Id)
    requires Legal(cfg, INIT, run) && c in Final(cfg, INIT, run).clients
    ensures var s := Final(cfg, INIT, run);
            var user := s.clients[c].user;
            && (cfg.inspect && HoldsBuffer(s, OnList(c), tid) ==> tid in s.tables.bufferUsers)
            && (HoldsBuffer(s, OnList(c), tid) || HoldsBuffer(s, Doing(MessageLoop(c)), tid) ==>
                  (tid in s.tables.bufferUsers ==> s.tables.bufferUsers[tid] == user))
  {
    InitIsOwned(cfg);
    RunKeepsFiled(cfg, INIT, run);
    var s := Final(cfg, INIT, run);
    assert FiledFor(cfg.inspect, s, OnList(c), tid) && FiledFor(cfg.inspect, s, Doing(MessageLoop(c)), tid);
  }
}
