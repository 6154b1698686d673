/** The bound of RegistryLimits is met, for every limit and every number of clients. */
module RegistryExamples {
  import opened Registry
  import opened RegistryLimits
  import opened RegistryOwnership
  import opened RegistryParty
  import opened Sums

  // --------------------------------------------------------- plans of a whole run

  lemma PlansBefore(s: State, e: Step, f: Effect, user: int, limit: int)
    requires Orderly(s) && PaceAt(s, e, f) && OnPlan(Apply(s, f), user, limit)
    ensures OnPlan(s, user, limit)
  {
    forall c | c in s.clients && s.clients[c].user == user ensures Allows(s.clients[c].plan, limit) {
      assert c in Apply(s, f).clients;
    }
  }

  /** Clients keep their plan, so those of the last state tell with which plans they connected. */
  lemma {:induction false} FixedPlanFromEnd(cfg: Config, s: State, run: seq<Step>, user: int, limit: int)
    requires Legal(cfg, s, run) && Orderly(s) && AllPaced(s) && OnPlan(Final(cfg, s, run), user, limit)
    ensures OnPlan(s, user, limit) && FixedPlan(run, user, limit)
    decreases run
  {
    if run != [] {
      var t := Next(cfg, s, run[0]);
      StepPace(cfg, s, run[0]);
      StepKeepsPaced(cfg, s, run[0]);
      StepOrder(cfg, s, run[0]);
      OrderFromEffect(s, EffectOf(cfg, s, run[0]));
      FixedPlanFromEnd(cfg, t, run[1..], user, limit);
      PlansBefore(s, run[0], EffectOf(cfg, s, run[0]), user, limit);
      assert run[0].Connect? ==> s.tables.nextId in t.clients;
      assert forall i :: 1 <= i < |run| ==> run[i] == run[1..][i - 1];
    }
  }

  // ---------------------------------------------------------------------- the theorem

  lemma {:induction false} FirstNumbers(numbers: set<nat>, n: nat)
    requires forall i: nat :: i in numbers <==> i < n
    ensures |numbers| == n
  {
    if n == 0 {
      assert numbers == {};
    } else {
      FirstNumbers(numbers - {n - 1}, n - 1);
    }
  }

  lemma PartyLoad(p: Stage, s: State, c: Id)
    requires PartyAt(p, s, c) && p.d == p.n
    ensures c in Loads(s, p.user) <==> c < p.n
    ensures c < p.n ==> Loads(s, p.user)[c] == SizeAt(p, c) == |s.clients[c].tunnels|
  {
  }

  lemma PartyTotal(p: Stage, s: State)
    requires Party(p, s) && p.d == p.n > 0
    ensures var loads := Loads(s, p.user); |Nonzero(loads)| == p.n && Total(loads) == p.base + p.n
    ensures forall c :: c in Loads(s, p.user) ==> Loads(s, p.user)[c] == |s.clients[c].tunnels|
  {
    var loads, over := Loads(s, p.user), Excesses(s, p.user);
    forall c: Id
      ensures (c in loads <==> c < p.n) && (c < p.n ==> loads[c] == SizeAt(p, c) == |s.clients[c].tunnels|)
    {
      assert PartyAt(p, s, c);
      PartyLoad(p, s, c);
    }
    FirstNumbers(Nonzero(loads), p.n);
    TotalSplits(over, 0);
    AllZero(over - {0});
    ExcessOfLoads(s, p.user);
  }

  /** The bound of PlanLimitHolds is reached for every limit L and every number n of clients: they
      can hold L - 1 + n tunnels, all of them opened. */
  lemma PlanLimitIsTight(cfg: Config, user: int, limit: int, n: nat) returns (run: seq<Step>)
    requires user > 0 && limit > 0 && n > 0
    ensures Legal(cfg, INIT, run) && FixedPlan(run, user, limit)
    ensures var s := Final(cfg, INIT, run);
            var loads := Loads(s, user);
            && |Nonzero(loads)| == n && Total(loads) == limit - 1 + n
            && forall c :: c in loads ==> loads[c] == |s.clients[c].tunnels|
  {
    var p := Stage(user, limit, n, limit - 1, n, n);
    run := PartyRun(cfg, p);
    var s := Final(cfg, INIT, run);
    PartyTotal(p, s);
    forall c | c in s.clients ensures Allows(s.clients[c].plan, limit) {
      assert PartyAt(p, s, c);
    }
    FixedPlanFromEnd(cfg, INIT, run, user, limit);
  }
}
