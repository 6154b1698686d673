/** Which tunnel requests pass the limit tests (internal/server/server.go:681-725). */
module RegistryAdmission {
  import opened Registry
  import opened RegistryOwnership
  import opened RegistryLimits
  import opened RegistryIndex
  import opened Sums
  import opened Wrappers

  /** What a client was connected with. */
  predicate Terms(k: Option<Client>, user: int, plan: Plan, tokenMax: int) {
    k.Some? && k.value.user == user && k.value.plan == plan && k.value.tokenMax == tokenMax
  }

  lemma TermsAfter(s: State, e: Step, f: Effect, c: Id, user: int, plan: Plan, tokenMax: int)
    requires PaceAt(s, e, f) && Terms(At(s.clients, c), user, plan, tokenMax)
    ensures Terms(At(Apply(s, f).clients, c), user, plan, tokenMax)
  {
  }

  lemma {:induction false} TermsAreKept(cfg: Config, s: State, run: seq<Step>, c: Id, user: int, plan: Plan,
                                        tokenMax: int)
    requires Legal(cfg, s, run) && Orderly(s) && AllPaced(s) && Terms(At(s.clients, c), user, plan, tokenMax)
    ensures Terms(At(Final(cfg, s, run).clients, c), user, plan, tokenMax)
    decreases run
  {
    if run != [] {
      StepPace(cfg, s, run[0]);
      TermsAfter(s, run[0], EffectOf(cfg, s, run[0]), c, user, plan, tokenMax);
      StepKeepsPaced(cfg, s, run[0]);
      StepOrder(cfg, s, run[0]);
      OrderFromEffect(s, EffectOf(cfg, s, run[0]));
      TermsAreKept(cfg, Next(cfg, s, run[0]), run[1..], c, user, plan, tokenMax);
    }
  }

  lemma {:induction false} RunKeepsOrder(cfg: Config, s: State, run: seq<Step>)
    requires Legal(cfg, s, run) && Orderly(s)
    ensures Orderly(Final(cfg, s, run))
    decreases run
  {
    if run != [] {
      StepOrder(cfg, s, run[0]);
      OrderFromEffect(s, EffectOf(cfg, s, run[0]));
      RunKeepsOrder(cfg, Next(cfg, s, run[0]), run[1..]);
    }
  }

  /** The tunnels that a request of client c is counted against: those of the user's listed, connected
      clients, or the client's own when it has no user. */
  ghost function Counted(s: State, c: Id): nat
    requires c in s.clients
  {
    var k := s.clients[c];
    if k.user > 0 then Total(Sizes(s, Listed(s.tables.index, k.user))) else |k.tunnels|
  }

  /** The plan's test: an unlimited plan, or more than is counted; ten without a plan. */
  predicate PlanAdmits(plan: Plan, counted: nat) {
    match plan
    case NoPlan => counted < 10
    case Plan(n) => n <= 0 || counted < n
  }

  lemma TestsPassIff(s: State, c: Id)
    requires c in s.clients
    requires s.clients[c].user > 0 ==> Count(s, Listed(s.tables.index, s.clients[c].user)) == Counted(s, c)
    ensures var k := s.clients[c];
            && (k.loop.Asked? ==> (Enabled(s, PassPlan(c)) <==> PlanAdmits(k.plan, Counted(s, c))))
            && (k.loop.Counted? ==> (Enabled(s, Admit(c)) <==> k.tokenMax <= 0 || |k.tunnels| < k.tokenMax))
  {
  }

  /** A client keeps what it was connected with. */
  lemma TermsOfConnect(cfg: Config, s: State, user: int, plan: Plan, tokenMax: int)
    ensures var e := Connect(user, plan, tokenMax);
            Terms(At(Next(cfg, s, e).clients, s.tables.nextId), user, plan, tokenMax)
  {
  }

  lemma TermsInRun(cfg: Config, s0: State, user: int, plan: Plan, tokenMax: int, after: seq<Step>, s: State)
    requires Orderly(s0) && AllPaced(s0) && Leads(cfg, Next(cfg, s0, Connect(user, plan, tokenMax)), after, s)
    ensures Terms(At(s.clients, s0.tables.nextId), user, plan, tokenMax)
  {
    var e := Connect(user, plan, tokenMax);
    StepKeepsPaced(cfg, s0, e);
    StepOrder(cfg, s0, e);
    OrderFromEffect(s0, EffectOf(cfg, s0, e));
    TermsOfConnect(cfg, s0, user, plan, tokenMax);
    TermsAreKept(cfg, Next(cfg, s0, e), after, s0.tables.nextId, user, plan, tokenMax);
  }

  lemma WholeRun(cfg: Config, before: seq<Step>, s0: State, e: Step, after: seq<Step>, s: State)
      returns (run: seq<Step>)
    requires Leads(cfg, INIT, before, s0) && Enabled(s0, e) && Leads(cfg, Next(cfg, s0, e), after, s)
    ensures Leads(cfg, INIT, run, s)
  {
    LeadsOne(cfg, s0, e);
    LeadsOn(cfg, INIT, before, s0, [e], Next(cfg, s0, e));
    LeadsOn(cfg, INIT, before + [e], Next(cfg, s0, e), after, s);
    run := before + [e] + after;
  }

  /** In every reachable state a request of a client passes the plan's test exactly when the plan it
      connected with is unlimited or more than what is counted, ten for a client without a plan; and
      the token's test exactly when the token sets no limit or more than the client's own tunnels. */
  lemma RequestPassesIff(cfg: Config, before: seq<Step>, s0: State, user: int, plan: Plan, tokenMax: int,
                         after: seq<Step>, s: State)
    requires Leads(cfg, INIT, before, s0) && Leads(cfg, Next(cfg, s0, Connect(user, plan, tokenMax)), after, s)
    ensures var c := s0.tables.nextId;
            && c in s.clients && s.clients[c].user == user
            && (s.clients[c].loop.Asked? ==>
                  (Enabled(s, PassPlan(c)) <==>
                    match plan case NoPlan => Counted(s, c) < 10 case Plan(n) => n <= 0 || Counted(s, c) < n))
            && (s.clients[c].loop.Counted? ==>
                  (Enabled(s, Admit(c)) <==> tokenMax <= 0 || |s.clients[c].tunnels| < tokenMax))
  {
    var c := s0.tables.nextId;
    var run := WholeRun(cfg, before, s0, Connect(user, plan, tokenMax), after, s);
    RunKeepsPaced(cfg, INIT, before);
    RunKeepsOrder(cfg, INIT, before);
    TermsInRun(cfg, s0, user, plan, tokenMax, after, s);
    IndexHoldsUnderInterleaving(cfg, run, user);
    TestsPassIff(s, c);
  }
}
