/** How far three promises about a subscription's status hold: one active subscription per user,
    the downgrade of cancelled ones, and plan changes that wait for the end of the period. */
module BillingStatus {
  import opened Billing
  import opened BillingRuns
  import opened BillingInvariants
  import opened Wrappers

  // ----------------------------------------------- one active subscription per user

  /** Two active subscriptions of one user. */
  predicate BothActive(a: Sub, b: Sub) {
    a.status.Active? && b.status.Active? && a.user == b.user
  }

  ghost predicate OneActive(s: State) {
    forall j, k :: j in s.subs && k in s.subs && BothActive(s.subs[j], s.subs[k]) ==> j == k
  }

  /** The step makes subscription k active, from whatever status it had. */
  predicate Activates(s: State, e: Step, k: SubId) {
    && k in s.subs
    && match e
       case PaymentSucceeded(pay, _, _) =>
         pay.Some? && pay.value in s.pays && !s.pays[pay.value].status.Paid? && s.pays[pay.value].sub == Some(k)
       case AdminExtend(id, days) => id == k && days > 0 && (s.subs[k].status.Expired? || s.subs[k].status.Cancelled?)
       case Settle(charge) => s.scheduler.Charging? && s.scheduler.row.id == k && charge.Succeeded?
       case ChangeNext(found) =>
         && s.scheduler.Changing? && s.scheduler.todo != [] && found
         && var row := s.scheduler.todo[0]; row.id == k && row.sub.nextPlan.Some? && row.sub.status.Active?
       case _ => false
  }

  ghost predicate ActiveBeside(s: State, k: SubId)
    requires k in s.subs
  {
    exists j :: j in s.subs && j != k && s.subs[j].user == s.subs[k].user && s.subs[j].status.Active?
  }

  lemma ActiveAfter(s: State, e: Step, k: SubId)
    requires Inv(s) && Enabled(s, e) && k in Next(s, e).subs
    ensures var t := Next(s, e);
            && (k in s.subs ==> t.subs[k].user == s.subs[k].user)
            && (t.subs[k].status.Active? ==> k in s.subs && (s.subs[k].status.Active? || Activates(s, e, k)))
  {
    if OfScheduler(e) {
      ActiveAfterCheck(s, e, k);
    } else {
      ActiveAfterCall(s, e, k);
    }
  }

  lemma ActiveAfterCheck(s: State, e: Step, k: SubId)
    requires Enabled(s, e) && OfScheduler(e) && k in Next(s, e).subs
    ensures var t := Next(s, e);
            && k in s.subs && t.subs[k].user == s.subs[k].user
            && (t.subs[k].status.Active? ==> s.subs[k].status.Active? || Activates(s, e, k))
  {
  }

  lemma ActiveAfterCall(s: State, e: Step, k: SubId)
    requires Inv(s) && Enabled(s, e) && !OfScheduler(e) && k in Next(s, e).subs
    ensures var t := Next(s, e);
            && (k in s.subs ==> t.subs[k].user == s.subs[k].user)
            && (t.subs[k].status.Active? ==> k in s.subs && (s.subs[k].status.Active? || Activates(s, e, k)))
  {
  }

  lemma ActivatesKeepsOthers(s: State, e: Step, k: SubId, j: SubId)
    requires Inv(s) && Enabled(s, e) && Activates(s, e, k) && j in s.subs && j != k
    ensures var t := Next(s, e);
            && k in t.subs && t.subs[k].status.Active? && t.subs[k].user == s.subs[k].user
            && j in t.subs && t.subs[j] == s.subs[j]
  {
  }

  lemma ActivatedBeside(s: State, e: Step, j: SubId, k: SubId)
    requires Inv(s) && Enabled(s, e) && OneActive(s) && j != k
    requires var t := Next(s, e); j in t.subs && k in t.subs && BothActive(t.subs[j], t.subs[k])
    ensures (Activates(s, e, j) && ActiveBeside(s, j)) || (Activates(s, e, k) && ActiveBeside(s, k))
  {
    ActiveAfter(s, e, j);
    ActiveAfter(s, e, k);
    if Activates(s, e, j) { OnlyOne(s, e, j, k); }
  }

  lemma OnlyOne(s: State, e: Step, j: SubId, k: SubId)
    requires Activates(s, e, j) && j != k
    ensures !Activates(s, e, k)
  {
  }

  /** A step gives a user a second active subscription exactly when it activates one beside an
      active one. */
  lemma SecondActiveIff(s: State, e: Step)
    requires Inv(s) && Enabled(s, e) && OneActive(s)
    ensures OneActive(Next(s, e)) <==> !exists k :: Activates(s, e, k) && ActiveBeside(s, k)
  {
    var t := Next(s, e);
    if k :| Activates(s, e, k) && ActiveBeside(s, k) {
      var j :| j in s.subs && j != k && s.subs[j].user == s.subs[k].user && s.subs[j].status.Active?;
      ActivatesKeepsOthers(s, e, k, j);
      assert BothActive(t.subs[j], t.subs[k]);
    }
    if !OneActive(t) {
      var j, k :| j in t.subs && k in t.subs && BothActive(t.subs[j], t.subs[k]) && j != k;
      ActivatedBeside(s, e, j, k);
    }
  }

  ghost predicate NoSecondActive(s: State, run: seq<Step>)
    requires Legal(s, run)
    decreases run
  {
    run == []
      || ((forall k :: Activates(s, run[0], k) ==> !ActiveBeside(s, k)) && NoSecondActive(Next(s, run[0]), run[1..]))
  }

  ghost predicate AlwaysOneActive(s: State, run: seq<Step>)
    requires Legal(s, run)
    decreases run
  {
    OneActive(s) && (run == [] || AlwaysOneActive(Next(s, run[0]), run[1..]))
  }

  /** A user never has two active subscriptions exactly when no step of the run activates one
      beside an active one. */
  lemma {:induction false} OneActiveIff(s: State, run: seq<Step>)
    requires Inv(s) && Legal(s, run) && OneActive(s)
    ensures AlwaysOneActive(s, run) <==> NoSecondActive(s, run)
    decreases run
  {
    if run != [] {
      StepKeeps(s, run[0]);
      SecondActiveIff(s, run[0]);
      if OneActive(Next(s, run[0])) { OneActiveIff(Next(s, run[0]), run[1..]); }
    }
  }

  function Order(plan: int, status: SubStatus): Sub {
    var paid := status.Active?;
    Sub(1, plan, None, status, false, if paid then Some(0) else None, if paid then Some(30 * DAY) else None, None, 0)
  }

  function Bill(k: SubId, status: PayStatus): Pay {
    Pay(1, Some(k), 100001 + k, status, false, 0)
  }

  function Shop(users: map<int, int>, subs: map<SubId, Sub>, pays: map<PayId, Pay>): State {
    State(0, users, subs, pays, |subs|, |pays|, Resting, [])
  }

  /** A server on which user 1 has ordered plans 7 and 9, with the payments at these statuses. */
  function TwoOrdered(plan: int, first: PayStatus, second: PayStatus): State {
    Shop(map[1 := plan],
         map[0 := Order(7, if first.Paid? then Active else Pending),
             1 := Order(9, if second.Paid? then Active else Pending)],
         map[0 := Bill(0, first), 1 := Bill(1, second)])
  }

  const ORDERED := TwoOrdered(0, Unpaid, Unpaid)
  const PAID_ONE := TwoOrdered(7, Paid, Unpaid)
  const PAID_TWO := TwoOrdered(9, Paid, Paid)

  lemma TwoOrders() returns (run: seq<Step>)
    ensures Leads(INIT, run, ORDERED)
  {
    var a, b, c := AddUser(1, 0), Checkout(1, 7, false, true, None, 100001), Checkout(1, 9, false, true, None, 100002);
    var s0 := Shop(map[1 := 0], map[], map[]);
    var s1 := Shop(map[1 := 0], map[0 := Order(7, Pending)], map[0 := Bill(0, Unpaid)]);
    LeadsOne(INIT, a);
    assert Next(INIT, a) == s0;
    LeadsMore(INIT, [a], s0, b);
    assert Next(s0, b) == s1;
    SecondOrder(s1, c);
    LeadsMore(INIT, [a] + [b], s1, c);
    run := [a] + [b] + [c];
  }

  lemma SecondOrder(s: State, e: Step)
    requires s == Shop(map[1 := 0], map[0 := Order(7, Pending)], map[0 := Bill(0, Unpaid)])
    requires e == Checkout(1, 9, false, true, None, 100002)
    ensures Enabled(s, e) && Next(s, e) == ORDERED
  {
    assert s.pays[0].invoice + 1 == 100002;
  }

  lemma PaidOne()
    ensures Leads(ORDERED, [PaymentSucceeded(Some(0), None, 30 * DAY)], PAID_ONE)
  {
    LeadsOne(ORDERED, PaymentSucceeded(Some(0), None, 30 * DAY));
    assert Next(ORDERED, PaymentSucceeded(Some(0), None, 30 * DAY)) == PAID_ONE;
  }

  lemma PaidTwo()
    ensures Leads(PAID_ONE, [PaymentSucceeded(Some(1), None, 30 * DAY)], PAID_TWO)
  {
    LeadsOne(PAID_ONE, PaymentSucceeded(Some(1), None, 30 * DAY));
    assert Next(PAID_ONE, PaymentSucceeded(Some(1), None, 30 * DAY)) == PAID_TWO;
  }

  lemma TwoActive(s: State, j: SubId, k: SubId)
    requires j in s.subs && k in s.subs && j != k && BothActive(s.subs[j], s.subs[k])
    ensures !OneActive(s)
  {
  }

  /** It happens: a user who orders twice before paying, and pays twice, has two. */
  lemma TwoActiveArePossible() returns (run: seq<Step>, s: State)
    ensures Leads(INIT, run, s) && !OneActive(s)
  {
    var a, b := PaymentSucceeded(Some(0), None, 30 * DAY), PaymentSucceeded(Some(1), None, 30 * DAY);
    run := TwoOrders();
    PaidOne();
    PaidTwo();
    LeadsOn(INIT, run, ORDERED, [a], PAID_ONE);
    LeadsOn(INIT, run + [a], PAID_ONE, [b], PAID_TWO);
    run, s := run + [a] + [b], PAID_TWO;
    TwoActive(s, 0, 1);
  }

  // ------------------------------------------------------- cancelled subscriptions

  /** Subscription k is cancelled, and no row read before its cancellation is left in the scheduler. */
  ghost predicate AtRest(s: State, k: SubId) {
    && k in s.subs && s.subs[k].status.Cancelled?
    && forall row :: row in RowsOf(s.scheduler) && row.id == k ==> s.scheduler.Changing? && row.sub.status.Cancelled?
  }

  predicate Ends(s: State, e: Step, k: SubId) {
    Activates(s, e, k) || (k in s.subs && e == DeleteUser(s.subs[k].user))
  }

  lemma RestsOn(s: State, e: Step, k: SubId)
    requires Inv(s) && Enabled(s, e) && AtRest(s, k) && !Ends(s, e, k)
    ensures AtRest(Next(s, e), k)
  {
    if e.FetchExpired? || e.FetchExpiring? || e.FetchChanging? {
      RestsOnAtReads(s, e, k);
    } else if e.ExpireNext? || e.RenewNext? || e.Settle? {
      RestsOnInLoops(s, e, k);
    } else if OfScheduler(e) {
      RestsOnInScheduler(s, e, k);
    } else {
      RestsOnInCalls(s, e, k);
    }
  }

  lemma RestsOnAtReads(s: State, e: Step, k: SubId)
    requires Inv(s) && Enabled(s, e) && (e.FetchExpired? || e.FetchExpiring? || e.FetchChanging?) && AtRest(s, k)
    ensures AtRest(Next(s, e), k)
  {
  }

  lemma RestsOnInLoops(s: State, e: Step, k: SubId)
    requires Inv(s) && Enabled(s, e) && (e.ExpireNext? || e.RenewNext? || e.Settle?) && AtRest(s, k) && !Ends(s, e, k)
    ensures AtRest(Next(s, e), k)
  {
  }

  lemma RestsOnInScheduler(s: State, e: Step, k: SubId)
    requires Inv(s) && Enabled(s, e) && OfScheduler(e) && AtRest(s, k) && !Ends(s, e, k)
    requires !e.FetchExpired? && !e.FetchExpiring? && !e.FetchChanging? && !e.ExpireNext? && !e.RenewNext? && !e.Settle?
    ensures AtRest(Next(s, e), k)
  {
  }

  lemma RestsOnInCalls(s: State, e: Step, k: SubId)
    requires Inv(s) && Enabled(s, e) && !OfScheduler(e) && AtRest(s, k) && !Ends(s, e, k)
    ensures AtRest(Next(s, e), k)
  {
  }

  lemma RestEnds(s: State, e: Step, k: SubId)
    requires Inv(s) && Enabled(s, e) && AtRest(s, k) && Ends(s, e, k)
    ensures k !in Next(s, e).subs || Next(s, e).subs[k].status.Active?
  {
  }

  ghost predicate NothingEnds(s: State, run: seq<Step>, k: SubId)
    requires Legal(s, run)
    decreases run
  {
    run == [] || (!Ends(s, run[0], k) && NothingEnds(Next(s, run[0]), run[1..], k))
  }

  ghost predicate AlwaysCancelled(s: State, run: seq<Step>, k: SubId)
    requires Legal(s, run)
    decreases run
  {
    && k in s.subs && s.subs[k].status.Cancelled?
    && (run == [] || AlwaysCancelled(Next(s, run[0]), run[1..], k))
  }

  /** A cancelled subscription stays cancelled, however far its period is over, exactly until a
      payment or an extension revives it or its user is deleted: no check ever expires it. */
  lemma {:induction false} CancelledIsNeverExpired(s: State, run: seq<Step>, k: SubId)
    requires Inv(s) && Legal(s, run) && AtRest(s, k)
    ensures AlwaysCancelled(s, run, k) <==> NothingEnds(s, run, k)
    decreases run
  {
    if run != [] {
      StepKeeps(s, run[0]);
      if Ends(s, run[0], k) {
        RestEnds(s, run[0], k);
      } else {
        RestsOn(s, run[0], k);
        CancelledIsNeverExpired(Next(s, run[0]), run[1..], k);
      }
    }
  }

  // ------------------------------------------------------------------- plan changes

  /** The rows of the plan-change loop were read after the end of their period. */
  ghost predicate ChangesAreDue(s: State) {
    s.scheduler.Changing? ==>
      forall i :: 0 <= i < |s.scheduler.todo| ==> HasPlanChange(s.now, s.scheduler.todo[i].sub)
  }

  lemma StepKeepsDue(s: State, e: Step)
    requires Enabled(s, e) && ChangesAreDue(s)
    ensures ChangesAreDue(Next(s, e))
  {
  }

  lemma {:induction false} RunKeepsDue(s: State, run: seq<Step>)
    requires Legal(s, run) && ChangesAreDue(s)
    ensures ChangesAreDue(Final(s, run))
    decreases run
  {
    if run != [] {
      StepKeepsDue(s, run[0]);
      RunKeepsDue(Next(s, run[0]), run[1..]);
    }
  }

  /** A plan change is applied only when the period that was read is over and every autopayment
      settled for the subscription is 28 days old. The period is over after it too, whatever was
      stored before: an extension that came after the read is lost. */
  lemma PlanChangesAreDue(run: seq<Step>, s: State, row: Row)
    requires Leads(INIT, run, s) && s.scheduler.Changing? && s.scheduler.todo != [] && s.scheduler.todo[0] == row
    ensures forall i :: 0 <= i < |s.log| && s.log[i].sub == row.id ==> s.log[i].at + 28 * 24 * 3600 < s.now
    ensures row.id in s.subs ==>
              var end := Next(s, ChangeNext(true)).subs[row.id].end; end.Some? && end.value < s.now
  {
    RunKeeps(INIT, run);
    RunKeepsDue(INIT, run);
    assert RowsOf(s.scheduler)[0] == row;
    assert RowOk(row, s.subs, s.nextSub, s.log);
    assert HasPlanChange(s.now, s.scheduler.todo[0].sub);
  }
}
