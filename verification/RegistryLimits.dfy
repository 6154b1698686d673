/** How far the tunnel limits hold while requests, closes and sweeps interleave. */
module RegistryLimits {
  import opened Ports
  import opened Registry
  import opened RegistryOwnership
  import opened Sums
  import opened Wrappers

  /** An admitted request whose tunnel is in no map yet. */
  predicate Pending(w: Option<Work>) {
    w.Some? && (w.value.MakeBuffer? || w.value.NoteUser? || w.value.Register? || w.value.Publish?
                || w.value.Allocate? || w.value.Listen? || w.value.PublishSocket?)
  }

  /** Tunnels and an admitted request. */
  function Admitted(k: Client, w: Option<Work>): nat {
    |k.tunnels| + if Pending(w) then 1 else 0
  }

  /** Tunnels and a request past the plan limit's test. */
  function LoadOf(k: Client, w: Option<Work>): nat {
    |k.tunnels| + if Pending(w) || k.loop.Counted? then 1 else 0
  }

  /** The tunnels of a client plus its request past the plan limit's test. */
  function Load(s: State, c: Id): nat
    requires c in s.clients
  {
    LoadOf(s.clients[c], At(s.work, MessageLoop(c)))
  }

  function Loads(s: State, user: int): map<Id, nat> {
    map c | c in s.clients && s.clients[c].user == user :: Load(s, c)
  }

  function Excesses(s: State, user: int): map<Id, nat> {
    map c | c in s.clients && s.clients[c].user == user :: if Load(s, c) == 0 then 0 else Load(s, c) - 1
  }

  predicate SweptOut(k: Client) {
    k.sweep.Swept? || k.sweep.Unlinked? || k.sweep.Removed?
  }

  /** After its sweep a client handles at most the message it was already reading; before it, it
      is counted; and its own limits hold. */
  predicate Paced(c: Id, k: Client, w: Option<Work>, t: Tables) {
    && (SweptOut(k) ==>
          |k.tunnels| + (if Pending(w) || k.loop.Reading? || k.loop.Asked? || k.loop.Counted? then 1 else 0) <= 1)
    && (k.loop.Starting? ==> |k.tunnels| == 0 && !Pending(w))
    && (k.user > 0 && !k.loop.Starting? && !SweptOut(k) ==> c in t.live && c in Listed(t.index, k.user))
    && (k.tokenMax > 0 ==> Admitted(k, w) <= k.tokenMax)
    && (k.user <= 0 && GlobalMax(k.plan) > 0 ==> LoadOf(k, w) <= GlobalMax(k.plan))
    && (!k.sweep.Removed? ==> c in t.live)
    && (Pending(w) ==> k.loop.Working?)
  }

  ghost predicate AllPaced(s: State) {
    forall c :: c in s.clients ==> Paced(c, s.clients[c], At(s.work, MessageLoop(c)), s.tables)
  }

  /** The loop's work after an effect. */
  function WorkAfter(s: State, f: Effect, c: Id): Option<Work> {
    if f.th == MessageLoop(c) then f.work else At(s.work, MessageLoop(c))
  }

  lemma WithoutKeepsOthers(list: seq<Id>, c: Id, d: Id)
    requires c != d && d in list
    ensures d in Without(list, c)
  {
  }

  lemma UnlinkKeepsOthers(index: map<int, seq<Id>>, user: int, c: Id, other: int, d: Id)
    requires c != d && d in Listed(index, other)
    ensures d in Listed(UnlinkFrom(index, user, c), other)
  {
    if user == other { WithoutKeepsOthers(index[user], c, d); }
  }

  lemma CardinalityOfTunnels(m: map<Id, Tunnel>, tid: Id, t: Tunnel)
    ensures |m[tid := t]| <= |m| + 1
    ensures |m - {tid}| <= |m|
  {
    assert m[tid := t].Keys == m.Keys + {tid};
    assert (m - {tid}).Keys == m.Keys - {tid};
  }

  /** What a step does to the client it writes, as far as the limits are concerned. */
  predicate PaceAt(s: State, e: Step, f: Effect) {
    && (f.th.MessageLoop? ==> f.th.client == f.c)
    && (f.client.Some? ==> Paced(f.c, f.client.value, WorkAfter(s, f, f.c), f.tables))
    && (f.client.Some? && f.c in s.clients ==>
          && f.client.value.user == s.clients[f.c].user
          && f.client.value.plan == s.clients[f.c].plan && f.client.value.tokenMax == s.clients[f.c].tokenMax
          && LoadOf(f.client.value, WorkAfter(s, f, f.c)) <= Load(s, f.c) + (if e.PassPlan? then 1 else 0))
    && (f.client.Some? && f.c !in s.clients ==>
          e.Connect? && f.client.value.user == e.user && f.client.value.plan == e.plan
          && LoadOf(f.client.value, WorkAfter(s, f, f.c)) == 0)
    && (f.client.None? ==> f.c !in s.clients)
    && s.tables.live - {f.c} <= f.tables.live
  }

  /** What is known of the thread whose work is done. */
  predicate Known(s: State, th: Thread)
    requires MayDo(s, th)
  {
    ThreadOk(th, s.work[th], At(s.clients, OwnClient(th))) && PacedNow(s, OwnClient(th))
  }

  predicate PacedNow(s: State, c: Id) {
    c in s.clients ==> Paced(c, s.clients[c], At(s.work, MessageLoop(c)), s.tables)
  }

  lemma PublishPace(inspect: bool, s: State, th: Thread, binds: bool)
    requires MayDo(s, th) && s.work[th].Publish? && Known(s, th)
    ensures PaceAt(s, Do(th, binds), HttpEffect(inspect, s, th))
  {
    CardinalityOfTunnels(s.clients[th.client].tunnels, s.work[th].tid, Http(s.work[th].sub));
  }

  lemma CleanupPace(inspect: bool, s: State, th: Thread, binds: bool)
    requires MayDo(s, th) && (s.work[th].Undo? || s.work[th].Discard?) && Known(s, th)
    requires MessageLoop(0) in s.work ==> 0 in s.clients
    ensures PaceAt(s, Do(th, binds), HttpEffect(inspect, s, th))
  {
  }

  lemma HttpPace(inspect: bool, s: State, th: Thread, binds: bool)
    requires MayDo(s, th) && Known(s, th)
    requires s.work[th].MakeBuffer? || s.work[th].NoteUser? || s.work[th].Register? || s.work[th].Unroute?
    ensures PaceAt(s, Do(th, binds), HttpEffect(inspect, s, th))
  {
  }

  lemma PublishSocketPace(s: State, th: Thread, answer: Answer, binds: bool)
    requires MayDo(s, th) && s.work[th].PublishSocket? && Known(s, th)
    ensures PaceAt(s, Do(th, binds), SocketEffect(s, th, answer, binds))
  {
    CardinalityOfTunnels(s.clients[th.client].tunnels, s.work[th].tid, Socket(s.work[th].port));
  }

  lemma SocketPace(s: State, th: Thread, answer: Answer, binds: bool)
    requires MayDo(s, th) && AboutSocket(s.work[th]) && !s.work[th].PublishSocket? && Known(s, th)
    ensures PaceAt(s, Do(th, binds), SocketEffect(s, th, answer, binds))
  {
  }

  lemma ReceiveClosePace(s: State, e: Step)
    requires Enabled(s, e) && e.ReceiveClose? && PacedNow(s, e.c) && MessageLoop(e.c) !in s.work
    ensures PaceAt(s, e, Take(s, MessageLoop(e.c), e.c, s.clients[e.c], e.tid))
  {
    CardinalityOfTunnels(s.clients[e.c].tunnels, e.tid, Http(""));
  }

  lemma AdminClosePace(s: State, e: Step)
    requires Enabled(s, e) && e.AdminClose? && PacedNow(s, e.c)
    ensures PaceAt(s, e, Take(s, Admin(e.call), e.c, s.clients[e.c], e.tid))
  {
    var f, k := Take(s, Admin(e.call), e.c, s.clients[e.c], e.tid), s.clients[e.c];
    CardinalityOfTunnels(k.tunnels, e.tid, Http(""));
    assert f.tables == s.tables && f.client == Some(k.(tunnels := k.tunnels - {e.tid}));
    assert WorkAfter(s, f, e.c) == At(s.work, MessageLoop(e.c));
  }

  lemma SweepDeletePace(s: State, e: Step)
    requires Enabled(s, e) && e.SweepDelete? && PacedNow(s, e.c)
    ensures PaceAt(s, e, SweepEffect(s, e))
  {
    CardinalityOfTunnels(s.clients[e.c].tunnels, e.tid, Http(""));
  }

  lemma SweepLoopPace(s: State, e: Step)
    requires Enabled(s, e) && (e.Cancel? || e.SweepLock? || e.SweepUnroute? || e.SweepDiscard?) && PacedNow(s, e.c)
    ensures PaceAt(s, e, SweepEffect(s, e))
  {
    assert SweepEffect(s, e).client.value.tunnels == s.clients[e.c].tunnels;
    assert WorkAfter(s, SweepEffect(s, e), e.c) == At(s.work, MessageLoop(e.c));
  }

  lemma SweepEndPace(s: State, e: Step)
    requires Enabled(s, e) && (e.SweepUnlock? || e.Unlink? || e.Remove?) && PacedNow(s, e.c)
    ensures PaceAt(s, e, SweepEffect(s, e))
  {
  }

  lemma SweepPace(cfg: Config, s: State, e: Step)
    requires Enabled(s, e) && OfClose(e) && PacedNow(s, e.c)
    ensures PaceAt(s, e, EffectOf(cfg, s, e))
  {
    if e.SweepDelete? {
      SweepDeletePace(s, e);
    } else if e.SweepUnlock? || e.Unlink? || e.Remove? {
      SweepEndPace(s, e);
    } else {
      SweepLoopPace(s, e);
    }
    assert EffectOf(cfg, s, e) == SweepEffect(s, e);
  }

  lemma ConnectPace(cfg: Config, s: State, e: Step)
    requires e.Connect? && s.tables.nextId !in s.clients && MessageLoop(s.tables.nextId) !in s.work
    ensures PaceAt(s, e, EffectOf(cfg, s, e))
  {
  }

  lemma LinkPace(cfg: Config, s: State, e: Step)
    requires e.Link? && Enabled(s, e) && PacedNow(s, e.c)
    ensures PaceAt(s, e, EffectOf(cfg, s, e))
  {
  }

  lemma PassPlanPace(cfg: Config, s: State, e: Step)
    requires e.PassPlan? && Enabled(s, e) && PacedNow(s, e.c) && MessageLoop(e.c) !in s.work
    ensures PaceAt(s, e, EffectOf(cfg, s, e))
  {
  }

  lemma AdmitPace(cfg: Config, s: State, e: Step)
    requires e.Admit? && Enabled(s, e) && PacedNow(s, e.c) && MessageLoop(e.c) !in s.work
    ensures PaceAt(s, e, EffectOf(cfg, s, e))
  {
  }

  lemma LoopPace(cfg: Config, s: State, e: Step)
    requires Enabled(s, e) && (e.TestContext? || e.ReceiveOther? || e.ReceiveRequest? || e.Refuse? || e.Leave?)
    requires PacedNow(s, e.c)
    ensures PaceAt(s, e, EffectOf(cfg, s, e))
  {
  }

  lemma LoopEndsPace(cfg: Config, s: State, e: Step)
    requires Enabled(s, e) && e.LoopEnds? && PacedNow(s, 0)
    ensures PaceAt(s, e, EffectOf(cfg, s, e))
  {
  }

  lemma WorkPace(cfg: Config, s: State, th: Thread, binds: bool)
    requires MayDo(s, th) && Orderly(s) && AllPaced(s)
    ensures PaceAt(s, Do(th, binds), EffectOf(cfg, s, Do(th, binds)))
  {
    var w := s.work[th];
    assert Known(s, th);
    if w.PublishSocket? {
      PublishSocketPace(s, th, Answered(cfg, s, w), binds);
    } else if AboutSocket(w) {
      SocketPace(s, th, Answered(cfg, s, w), binds);
    } else if w.Publish? {
      PublishPace(cfg.inspect, s, th, binds);
    } else if w.Undo? || w.Discard? {
      LoopOfZero(s);
      CleanupPace(cfg.inspect, s, th, binds);
    } else {
      HttpPace(cfg.inspect, s, th, binds);
    }
    assert EffectOf(cfg, s, Do(th, binds)) == WorkEffect(cfg, s, th, binds);
  }

  lemma StepPace(cfg: Config, s: State, e: Step)
    requires Enabled(s, e) && Orderly(s) && AllPaced(s)
    ensures PaceAt(s, e, EffectOf(cfg, s, e))
  {
    if e.Do? {
      WorkPace(cfg, s, e.th, e.binds);
    } else if e.ReceiveClose? || e.AdminClose? {
      TakesPace(cfg, s, e);
    } else if OfClose(e) {
      SweepPace(cfg, s, e);
    } else {
      LoopStepPace(cfg, s, e);
    }
  }

  lemma TakesPace(cfg: Config, s: State, e: Step)
    requires Enabled(s, e) && (e.ReceiveClose? || e.AdminClose?) && Orderly(s) && AllPaced(s)
    ensures PaceAt(s, e, EffectOf(cfg, s, e))
  {
    if e.ReceiveClose? {
      LoopIsFree(s, e.c);
      ReceiveClosePace(s, e);
    } else {
      AdminClosePace(s, e);
    }
  }

  lemma LoopStepPace(cfg: Config, s: State, e: Step)
    requires Enabled(s, e) && OfLoop(e) && Orderly(s) && AllPaced(s)
    ensures PaceAt(s, e, EffectOf(cfg, s, e))
  {
    if e.Connect? {
      var c := s.tables.nextId;
      assert MessageLoop(c) in s.work ==> ThreadOk(MessageLoop(c), s.work[MessageLoop(c)], At(s.clients, c));
      ConnectPace(cfg, s, e);
    } else if e.Link? {
      LinkPace(cfg, s, e);
    } else if e.PassPlan? {
      LoopIsFree(s, e.c);
      PassPlanPace(cfg, s, e);
    } else if e.Admit? {
      LoopIsFree(s, e.c);
      AdmitPace(cfg, s, e);
    } else if e.LoopEnds? {
      LoopEndsPace(cfg, s, e);
    } else {
      LoopPace(cfg, s, e);
    }
  }

  predicate KeepsListed(s: State, f: Effect, d: Id)
    requires d in s.clients
  {
    var u := s.clients[d].user;
    d in Listed(s.tables.index, u) ==> d in Listed(f.tables.index, u)
  }

  lemma OthersStayPaced(s: State, e: Step, f: Effect, c: Id)
    requires PaceAt(s, e, f) && c in s.clients && c != f.c && KeepsListed(s, f, c)
    requires Paced(c, s.clients[c], At(s.work, MessageLoop(c)), s.tables)
    ensures Paced(c, s.clients[c], At(Apply(s, f).work, MessageLoop(c)), f.tables)
  {
    assert At(Apply(s, f).work, MessageLoop(c)) == At(s.work, MessageLoop(c));
  }

  lemma PacedFromEffect(s: State, e: Step, f: Effect)
    requires AllPaced(s) && PaceAt(s, e, f) && forall d :: d in s.clients && d != f.c ==> KeepsListed(s, f, d)
    ensures AllPaced(Apply(s, f))
  {
    var t := Apply(s, f);
    forall c | c in t.clients ensures Paced(c, t.clients[c], At(t.work, MessageLoop(c)), t.tables) {
      if c != f.c {
        assert c in s.clients && t.clients[c] == s.clients[c];
        OthersStayPaced(s, e, f, c);
      } else {
        assert At(t.work, MessageLoop(c)) == WorkAfter(s, f, c);
      }
    }
  }

  lemma StepKeepsPaced(cfg: Config, s: State, e: Step)
    requires Enabled(s, e) && Orderly(s) && AllPaced(s)
    ensures AllPaced(Next(cfg, s, e))
  {
    StepPace(cfg, s, e);
    forall d | d in s.clients && d != EffectOf(cfg, s, e).c ensures KeepsListed(s, EffectOf(cfg, s, e), d) {
      IndexKeepsOthers(cfg, s, e, d);
    }
    PacedFromEffect(s, e, EffectOf(cfg, s, e));
  }

  /** Only Link and Unlink write the index. */
  lemma IndexWrites(cfg: Config, s: State, e: Step)
    requires Enabled(s, e)
    ensures EffectOf(cfg, s, e).tables.index ==
              if e.Link? then LinkIn(s.tables.index, s.clients[e.c].user, e.c)
              else if e.Unlink? then UnlinkFrom(s.tables.index, s.clients[e.c].user, e.c)
              else s.tables.index
  {
    if e.Do? {
      WorkWritesNoIndex(cfg, s, e.th, e.binds);
    }
  }

  lemma WorkWritesNoIndex(cfg: Config, s: State, th: Thread, binds: bool)
    requires MayDo(s, th)
    ensures WorkEffect(cfg, s, th, binds).tables.index == s.tables.index
  {
    if AboutSocket(s.work[th]) {
      SocketWritesNoIndex(s, th, Answered(cfg, s, s.work[th]), binds);
    } else {
      HttpWritesNoIndex(cfg.inspect, s, th);
    }
  }

  lemma HttpWritesNoIndex(inspect: bool, s: State, th: Thread)
    requires MayDo(s, th) && !AboutSocket(s.work[th])
    ensures HttpEffect(inspect, s, th).tables.index == s.tables.index
  {
  }

  lemma SocketWritesNoIndex(s: State, th: Thread, answer: Answer, binds: bool)
    requires MayDo(s, th) && AboutSocket(s.work[th])
    ensures SocketEffect(s, th, answer, binds).tables.index == s.tables.index
  {
  }

  lemma IndexKeepsOthers(cfg: Config, s: State, e: Step, d: Id)
    requires Enabled(s, e) && d in s.clients && !(e.Unlink? && e.c == d)
    ensures KeepsListed(s, EffectOf(cfg, s, e), d)
  {
    IndexWrites(cfg, s, e);
    if e.Unlink? && d in Listed(s.tables.index, s.clients[d].user) {
      UnlinkKeepsOthers(s.tables.index, s.clients[e.c].user, e.c, s.clients[d].user, d);
    }
  }

  // -------------------------------------------------------------------- plan limits

  /** What a plan allows: its own limit, or ten tunnels for a user without a plan. */
  predicate Allows(plan: Plan, limit: int) {
    plan == Plan(limit) || (plan == NoPlan && limit == 10)
  }

  /** Every client of the user was connected under a plan with limit L. */
  ghost predicate OnPlan(s: State, user: int, limit: int) {
    forall c :: c in s.clients && s.clients[c].user == user ==> Allows(s.clients[c].plan, limit)
  }

  /** CountTunnelsByUserID sees at least whatever the listed, connected clients hold. */
  lemma {:induction false} CountCovers(s: State, listed: seq<Id>, m: map<Id, nat>)
    requires forall c :: c in m ==>
        m[c] == 0 || (c in listed && c in s.tables.live && c in s.clients && m[c] <= |s.clients[c].tunnels|)
    ensures Total(m) <= Count(s, listed)
  {
    if listed == [] {
      AllZero(m);
    } else {
      var h := listed[0];
      CountCovers(s, listed[1..], m[h := 0]);
      TotalUpdates(m, h, 0);
    }
  }

  lemma {:induction false} AllZero(m: map<nat, nat>)
    requires forall c :: c in m ==> m[c] == 0
    ensures Total(m) == 0
    decreases |m|
  {
    if m != map[] {
      var k :| k in m;
      assert (m - {k}).Keys == m.Keys - {k};
      TotalSplits(m, k);
      AllZero(m - {k});
    }
  }

  lemma LoadAt(s: State, e: Step, f: Effect, c: Id)
    requires PaceAt(s, e, f) && c in Apply(s, f).clients
    ensures if c == f.c then Load(Apply(s, f), c) == LoadOf(f.client.value, WorkAfter(s, f, c))
            else c in s.clients && Apply(s, f).clients[c] == s.clients[c] && Load(Apply(s, f), c) == Load(s, c)
  {
  }

  /** What a client holds beyond one tunnel when a request is admitted is counted. */
  lemma ExcessIsCounted(s: State, e: Step, f: Effect, c: Id)
    requires e.PassPlan? && PaceAt(s, e, f) && PacedNow(s, c) && c in Apply(s, f).clients && c in s.clients
    requires f.c == e.c && (c == e.c ==> s.clients[c].loop.Asked? && f.client.value.tunnels == s.clients[c].tunnels)
    requires s.clients[c].user > 0
    ensures Load(Apply(s, f), c) <= 1 ||
              (c in Listed(s.tables.index, s.clients[c].user) && c in s.tables.live
               && Load(Apply(s, f), c) - 1 <= |s.clients[c].tunnels|)
  {
    LoadAt(s, e, f, c);
  }

  /** The count that admits a request bounds what all clients hold beyond one tunnel each. */
  lemma AdmissionBoundsExcess(s: State, e: Step, f: Effect, user: int, limit: int)
    requires e.PassPlan? && Enabled(s, e) && AllPaced(s) && OnPlan(s, user, limit) && PaceAt(s, e, f) && f.c == e.c
    requires user > 0 && limit > 0 && s.clients[e.c].user == user
    requires f.client.Some? && f.client.value.tunnels == s.clients[e.c].tunnels
    ensures Total(Excesses(Apply(s, f), user)) <= limit - 1
  {
    var m := Excesses(Apply(s, f), user);
    forall c | c in m
      ensures m[c] == 0 || (c in Listed(s.tables.index, user) && c in s.tables.live && m[c] <= |s.clients[c].tunnels|)
    {
      LoadAt(s, e, f, c);
      assert Paced(c, s.clients[c], At(s.work, MessageLoop(c)), s.tables);
      ExcessIsCounted(s, e, f, c);
    }
    CountCovers(s, Listed(s.tables.index, user), m);
  }

  lemma ExcessAt(s: State, e: Step, f: Effect, user: int, c: Id)
    requires PaceAt(s, e, f) && c in Apply(s, f).clients && Apply(s, f).clients[c].user == user
    requires e.PassPlan? ==> f.c in s.clients && s.clients[f.c].user != user
    ensures if c in Excesses(s, user) then Excesses(Apply(s, f), user)[c] <= Excesses(s, user)[c]
            else c == f.c && Excesses(Apply(s, f), user)[c] == 0
  {
    LoadAt(s, e, f, c);
  }

  /** Any other step adds to nobody's load. */
  lemma ExcessOnlyFalls(s: State, e: Step, f: Effect, user: int)
    requires PaceAt(s, e, f)
    requires e.PassPlan? ==> f.c in s.clients && s.clients[f.c].user != user
    ensures Total(Excesses(Apply(s, f), user)) <= Total(Excesses(s, user))
  {
    FallingTotals(Excesses(s, user), Excesses(Apply(s, f), user), f.c) by {
      forall c | c in Excesses(Apply(s, f), user)
        ensures if c in Excesses(s, user) then Excesses(Apply(s, f), user)[c] <= Excesses(s, user)[c]
                else c == f.c && Excesses(Apply(s, f), user)[c] == 0
      {
        ExcessAt(s, e, f, user, c);
      }
    }
  }

  lemma FallingTotals(m: map<nat, nat>, n: map<nat, nat>, k: nat)
    requires forall c :: c in n ==> if c in m then n[c] <= m[c] else c == k && n[c] == 0
    ensures Total(n) <= Total(m)
  {
    if k in m {
      TotalIsMonotone(n, m);
    } else {
      TotalUpdates(m, k, 0);
      TotalIsMonotone(n, m[k := 0]);
    }
  }

  lemma PlansAfter(s: State, e: Step, f: Effect, user: int, limit: int)
    requires PaceAt(s, e, f) && OnPlan(s, user, limit)
    requires e.Connect? && e.user == user ==> Allows(e.plan, limit)
    ensures OnPlan(Apply(s, f), user, limit)
  {
  }

  lemma EffectKeepsExcess(s: State, e: Step, f: Effect, user: int, limit: int)
    requires Enabled(s, e) && AllPaced(s) && PaceAt(s, e, f) && OnPlan(s, user, limit)
    requires user > 0 && limit > 0 && Total(Excesses(s, user)) <= limit - 1
    requires e.PassPlan? ==> f.c == e.c && f.client.Some? && f.client.value.tunnels == s.clients[e.c].tunnels
    ensures Total(Excesses(Apply(s, f), user)) <= limit - 1
  {
    if e.PassPlan? && s.clients[e.c].user == user {
      AdmissionBoundsExcess(s, e, f, user, limit);
    } else {
      ExcessOnlyFalls(s, e, f, user);
    }
  }

  lemma StepKeepsExcess(cfg: Config, s: State, e: Step, user: int, limit: int)
    requires Enabled(s, e) && Orderly(s) && AllPaced(s) && OnPlan(s, user, limit)
    requires user > 0 && limit > 0 && Total(Excesses(s, user)) <= limit - 1
    requires e.Connect? && e.user == user ==> Allows(e.plan, limit)
    ensures OnPlan(Next(cfg, s, e), user, limit)
    ensures Total(Excesses(Next(cfg, s, e), user)) <= limit - 1
  {
    StepPace(cfg, s, e);
    PlansAfter(s, e, EffectOf(cfg, s, e), user, limit);
    EffectKeepsExcess(s, e, EffectOf(cfg, s, e), user, limit);
  }

  predicate FixedPlan(run: seq<Step>, user: int, limit: int) {
    forall i :: 0 <= i < |run| && run[i].Connect? && run[i].user == user ==> Allows(run[i].plan, limit)
  }

  lemma {:induction false} RunKeepsLimits(cfg: Config, s: State, run: seq<Step>, user: int, limit: int)
    requires Legal(cfg, s, run) && FixedPlan(run, user, limit) && user > 0 && limit > 0
    requires Orderly(s) && AllPaced(s) && OnPlan(s, user, limit) && Total(Excesses(s, user)) <= limit - 1
    ensures var t := Final(cfg, s, run); AllPaced(t) && Total(Excesses(t, user)) <= limit - 1
    decreases run
  {
    if run != [] {
      StepKeepsExcess(cfg, s, run[0], user, limit);
      StepKeepsPaced(cfg, s, run[0]);
      StepOrder(cfg, s, run[0]);
      OrderFromEffect(s, EffectOf(cfg, s, run[0]));
      RunKeepsLimits(cfg, Next(cfg, s, run[0]), run[1..], user, limit);
    }
  }

  /** For a plan limit L > 0 a user's tunnels and admitted requests are at most L - 1 plus the
      number of that user's clients that have one; so at most L when one client has them. */
  lemma PlanLimitHolds(cfg: Config, run: seq<Step>, user: int, limit: int)
    requires Legal(cfg, INIT, run) && FixedPlan(run, user, limit) && user > 0 && limit > 0
    ensures var loads := Loads(Final(cfg, INIT, run), user);
            Total(loads) <= limit - 1 + |Nonzero(loads)|
  {
    assert Excesses(INIT, user) == map[];
    RunKeepsLimits(cfg, INIT, run, user, limit);
    ExcessOfLoads(Final(cfg, INIT, run), user);
  }

  lemma ExcessOfLoads(s: State, user: int)
    ensures Total(Loads(s, user)) == Total(Excesses(s, user)) + |Nonzero(Loads(s, user))|
  {
    TotalAsExcess(Loads(s, user), Excesses(s, user));
  }

  lemma {:induction false} RunKeepsPaced(cfg: Config, s: State, run: seq<Step>)
    requires Legal(cfg, s, run) && Orderly(s) && AllPaced(s)
    ensures AllPaced(Final(cfg, s, run))
    decreases run
  {
    if run != [] {
      StepKeepsPaced(cfg, s, run[0]);
      StepOrder(cfg, s, run[0]);
      OrderFromEffect(s, EffectOf(cfg, s, run[0]));
      RunKeepsPaced(cfg, Next(cfg, s, run[0]), run[1..]);
    }
  }

  /** A client's own tunnels and its admitted request never exceed a positive token limit, whatever
      interleaves with its message loop; for a client without a user its plan limit holds the same
      way. */
  lemma TokenLimitHolds(cfg: Config, run: seq<Step>, c: Id)
    requires Legal(cfg, INIT, run) && c in Final(cfg, INIT, run).clients
    ensures var s := Final(cfg, INIT, run);
            var k := s.clients[c];
            && (k.tokenMax > 0 ==> Admitted(k, At(s.work, MessageLoop(c))) <= k.tokenMax)
            && (k.user <= 0 && k.plan == NoPlan ==> Load(s, c) <= 10)
            && (k.user <= 0 && k.plan.Plan? && k.plan.maxTunnels > 0 ==> Load(s, c) <= k.plan.maxTunnels)
  {
    RunKeepsPaced(cfg, INIT, run);
  }
}
