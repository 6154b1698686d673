/** What holds in every reachable state of the billing machine. */
module BillingInvariants {
  import opened Billing
  import opened Wrappers

  /** The period is set as a whole and is not empty; an active subscription has one. */
  predicate PeriodOk(sub: Sub) {
    && (sub.start.Some? <==> sub.end.Some?)
    && (sub.start.Some? ==> sub.start.value < sub.end.value)
    && (sub.status.Active? ==> sub.end.Some?)
  }

  /** The period reaches at least 28 days past `at`. */
  predicate Covers(sub: Sub, at: Time) {
    sub.end.Some? && at + 28 * DAY <= sub.end.value
  }

  ghost predicate CoversLog(log: seq<Renewal>, k: SubId, sub: Sub) {
    forall i :: 0 <= i < |log| && log[i].sub == k ==> Covers(sub, log[i].at)
  }

  ghost predicate SubsOk(subs: map<SubId, Sub>, nextSub: SubId, log: seq<Renewal>) {
    forall k :: k in subs ==> k < nextSub && PeriodOk(subs[k]) && CoversLog(log, k, subs[k])
  }

  ghost predicate PaysOk(subs: map<SubId, Sub>, pays: map<PayId, Pay>, nextPay: PayId) {
    && (forall p :: p in pays ==> p < nextPay && OwnerOk(subs, pays[p]))
    && (forall p, q :: p in pays && q in pays && SameDebt(pays[p], pays[q]) ==> p == q)
    && (forall p, q :: p in pays && q in pays && pays[p].invoice == pays[q].invoice ==> p == q)
  }

  /** A payment for a subscription is its owner's. */
  predicate OwnerOk(subs: map<SubId, Sub>, pay: Pay) {
    pay.sub.Some? ==> pay.sub.value in subs && subs[pay.sub.value].user == pay.user
  }

  predicate SameDebt(a: Pay, b: Pay) {
    a.status.Unpaid? && b.status.Unpaid? && a.sub.Some? && a.sub == b.sub
  }

  ghost predicate LogOk(now: Time, nextSub: SubId, log: seq<Renewal>) {
    && (forall i :: 0 <= i < |log| ==> log[i].at <= now && log[i].sub < nextSub)
    && (forall i, j :: 0 <= i < j < |log| && log[i].sub == log[j].sub ==> log[i].at + 28 * DAY - HOUR <= log[j].at)
  }

  /** The rows the scheduler still has to deal with. */
  function RowsOf(sch: Scheduler): seq<Row> {
    match sch
    case Expiring(todo) => todo
    case Renewing(todo) => todo
    case Charging(row, _, todo) => [row] + todo
    case Changing(todo) => todo
    case _ => []
  }

  /** A row read earlier still tells the owner and still covers every settled renewal. */
  ghost predicate RowOk(row: Row, subs: map<SubId, Sub>, nextSub: SubId, log: seq<Renewal>) {
    && row.id < nextSub && PeriodOk(row.sub) && CoversLog(log, row.id, row.sub)
    && (row.id in subs ==> subs[row.id].user == row.sub.user)
  }

  ghost predicate RowsOk(rows: seq<Row>, subs: map<SubId, Sub>, nextSub: SubId, log: seq<Renewal>) {
    && (forall i :: 0 <= i < |rows| ==> RowOk(rows[i], subs, nextSub, log))
    && (forall i, j :: 0 <= i < j < |rows| ==> rows[i].id != rows[j].id)
  }

  predicate DueSoon(now: Time, sub: Sub) {
    sub.end.Some? && sub.end.value <= now + HOUR
  }

  ghost predicate ChargeOk(s: State) {
    s.scheduler.Charging? ==>
      var row, p := s.scheduler.row, s.scheduler.pay;
      && p < s.nextPay
      && (p in s.pays ==> s.pays[p].user == row.sub.user)
      && (forall q :: q in s.pays && q != p ==> !(s.pays[q].status.Unpaid? && s.pays[q].sub == Some(row.id)))
  }

  ghost predicate SchedulerOk(s: State) {
    && RowsOk(RowsOf(s.scheduler), s.subs, s.nextSub, s.log)
    && (s.scheduler.Renewing? || s.scheduler.Charging? ==>
          forall i :: 0 <= i < |RowsOf(s.scheduler)| ==> DueSoon(s.now, RowsOf(s.scheduler)[i].sub))
    && ChargeOk(s)
  }

  ghost predicate Inv(s: State) {
    && SubsOk(s.subs, s.nextSub, s.log)
    && PaysOk(s.subs, s.pays, s.nextPay)
    && LogOk(s.now, s.nextSub, s.log)
    && SchedulerOk(s)
  }

  // ------------------------------------------------------------------ single writes

  /** Storing a sound row keeps owners, payments and the scheduler's rows in order. */
  lemma StoreSubKeeps(s: State, k: SubId, sub: Sub)
    requires Inv(s) && (k in s.subs ==> PeriodOk(sub) && CoversLog(s.log, k, sub))
    ensures var subs := StoreSub(s.subs, k, sub);
            && SubsOk(subs, s.nextSub, s.log) && PaysOk(subs, s.pays, s.nextPay)
            && SchedulerOk(s.(subs := subs))
  {
  }

  /** Any row whose end moves later, or to a month from now, still covers the log. */
  lemma LaterEndCovers(s: State, k: SubId, old': Sub, new': Sub)
    requires LogOk(s.now, s.nextSub, s.log)
    requires (CoversLog(s.log, k, old') && old'.end.Some? && new'.end.Some? && old'.end.value <= new'.end.value)
             || (new'.end.Some? && s.now + 28 * DAY <= new'.end.value)
             || (CoversLog(s.log, k, old') && (new'.end == old'.end || old'.end.None?))
    ensures CoversLog(s.log, k, new')
  {
  }

  /** The row being charged is one of the scheduler's rows. */
  lemma ChargedRow(s: State)
    requires Inv(s) && s.scheduler.Charging?
    ensures RowOk(s.scheduler.row, s.subs, s.nextSub, s.log) && DueSoon(s.now, s.scheduler.row.sub)
    ensures RowsOk(s.scheduler.todo, s.subs, s.nextSub, s.log)
    ensures forall i :: 0 <= i < |s.scheduler.todo| ==>
              s.scheduler.todo[i].id != s.scheduler.row.id && DueSoon(s.now, s.scheduler.todo[i].sub)
  {
    var rows := RowsOf(s.scheduler);
    assert rows[0] == s.scheduler.row && rows[1..] == s.scheduler.todo;
    assert forall i :: 0 <= i < |s.scheduler.todo| ==> rows[i + 1] == s.scheduler.todo[i];
  }

  // ------------------------------------------------------------------- request steps

  /** A new payment with the next number keeps the payments in order, when its subscription has no
      other pending one. */
  lemma NewPayKeeps(s: State, subs: map<SubId, Sub>, pay: Pay)
    requires PaysOk(s.subs, s.pays, s.nextPay) && IsNextInvoice(s, pay.invoice) && OwnerOk(subs, pay)
    requires forall k :: k in s.subs ==> k in subs && subs[k].user == s.subs[k].user
    requires forall p :: p in s.pays ==> !SameDebt(s.pays[p], pay)
    ensures PaysOk(subs, s.pays[s.nextPay := pay], s.nextPay + 1)
  {
    forall p | p in s.pays ensures s.pays[p].invoice != pay.invoice && p < s.nextPay && OwnerOk(subs, s.pays[p]) {
      assert OwnerOk(s.subs, s.pays[p]);
    }
  }

  lemma CheckoutKeeps(s: State, user: int, plan: int, recurring: bool, invoice: int)
    requires Inv(s) && IsNextInvoice(s, invoice)
    ensures Inv(DoCheckout(s, user, plan, recurring, invoice))
  {
    if s.scheduler.Charging? { ChargedRow(s); }
    var t := DoCheckout(s, user, plan, recurring, invoice);
    forall p | p in s.pays ensures s.pays[p].sub != Some(s.nextSub) {
      assert OwnerOk(s.subs, s.pays[p]);
    }
    NewPayKeeps(s, t.subs, t.pays[s.nextPay]);
  }

  lemma PaymentSucceededKeeps(s: State, p: PayId, saved: Option<string>, month: Time)
    requires Inv(s) && p in s.pays && IsMonth(month)
    ensures Inv(DoPaymentSucceeded(s, p, saved, month))
  {
    var k := s.pays[p].sub;
    if k.Some? && k.value in s.subs {
      var new' := Renewed(s.subs[k.value], s.now, month, saved);
      LaterEndCovers(s, k.value, s.subs[k.value], new');
      StoreSubKeeps(s, k.value, new');
    }
  }

  lemma DropUserKeeps(s: State, user: int)
    requires Inv(s)
    ensures Inv(DropUser(s, user))
  {
    var t := DropUser(s, user);
    forall p | p in t.pays ensures p in s.pays && OwnerOk(t.subs, t.pays[p]) && t.pays[p] == s.pays[p] {
      assert OwnerOk(s.subs, s.pays[p]);
    }
  }

  lemma RequestKeeps(s: State, e: Step)
    requires Inv(s) && Enabled(s, e)
    requires e.Cancel? || e.ChangePlan? || e.AdminCancel? || e.AdminExtend?
    ensures Inv(Next(s, e))
  {
    var k := match e case Cancel(_, l) => (if l.Some? then l.value else 0)
                     case ChangePlan(_, _, _, l) => (if l.Some? then l.value else 0)
                     case AdminCancel(id, _) => id
                     case AdminExtend(id, _) => id;
    if k in s.subs && Next(s, e) != s {
      RequestStores(s, e, k);
      StoreSubKeeps(s, k, Next(s, e).subs[k]);
    }
  }

  /** A request stores one row, whose period ends no sooner. */
  lemma RequestStores(s: State, e: Step, k: SubId)
    requires Inv(s) && Enabled(s, e) && k in s.subs && Next(s, e) != s
    requires match e case Cancel(_, l) => l == Some(k)
                     case ChangePlan(_, _, _, l) => l == Some(k)
                     case AdminCancel(id, _) => id == k
                     case AdminExtend(id, _) => id == k
                     case _ => false
    ensures var t := Next(s, e);
            && k in t.subs && t.subs == StoreSub(s.subs, k, t.subs[k])
            && t == s.(subs := t.subs, users := t.users)
            && PeriodOk(t.subs[k]) && CoversLog(s.log, k, t.subs[k])
  {
    LaterEndCovers(s, k, s.subs[k], Next(s, e).subs[k]);
  }

  // ----------------------------------------------------------------- scheduler steps

  lemma FetchKeeps(s: State, e: Step)
    requires Inv(s) && Enabled(s, e) && (e.FetchExpired? || e.FetchExpiring? || e.FetchChanging?)
    ensures Inv(Next(s, e))
  {
    forall i | 0 <= i < |e.rows| ensures RowOk(e.rows[i], s.subs, s.nextSub, s.log) {
      assert e.rows[i].sub == s.subs[e.rows[i].id];
    }
  }

  lemma ExpireKeeps(s: State, free: Option<int>)
    requires Inv(s) && s.scheduler.Expiring? && s.scheduler.todo != []
    ensures Inv(DoExpire(s, s.scheduler.todo[0], s.scheduler.todo[1..], free))
  {
    var row := s.scheduler.todo[0];
    assert RowOk(row, s.subs, s.nextSub, s.log);
    StoreSubKeeps(s, row.id, row.sub.(status := Expired));
  }

  lemma ChangeKeeps(s: State, found: bool)
    requires Inv(s) && s.scheduler.Changing? && s.scheduler.todo != []
    ensures Inv(DoChange(s, s.scheduler.todo[0], s.scheduler.todo[1..], found))
  {
    var row := s.scheduler.todo[0];
    assert RowOk(row, s.subs, s.nextSub, s.log);
    if row.sub.nextPlan.Some? {
      StoreSubKeeps(s, row.id, row.sub.(plan := row.sub.nextPlan.value, nextPlan := None));
    }
  }

  lemma RenewKeeps(s: State, price: Option<int>, invoice: int)
    requires Inv(s) && s.scheduler.Renewing? && s.scheduler.todo != [] && IsNextInvoice(s, invoice)
    ensures Inv(DoRenew(s, s.scheduler.todo[0], s.scheduler.todo[1..], price, invoice))
  {
    var row, todo := s.scheduler.todo[0], s.scheduler.todo[1..];
    var t := DoRenew(s, row, todo, price, invoice);
    assert [row] + todo == s.scheduler.todo;
    assert RowOk(row, s.subs, s.nextSub, s.log);
    if t.scheduler.Charging? { NewPayKeeps(s, s.subs, t.pays[s.nextPay]); }
  }

  lemma SettledPay(s: State, status: PayStatus)
    requires Inv(s) && s.scheduler.Charging?
    ensures PaysOk(s.subs, StorePay(s.subs, s.pays, s.scheduler.pay, Some(s.scheduler.row.id), status), s.nextPay)
  {
    ChargedRow(s);
  }

  lemma SettleKeeps(s: State, charge: Charge)
    requires Inv(s) && s.scheduler.Charging? && (charge.Succeeded? ==> IsMonth(charge.month))
    ensures Inv(DoSettle(s, s.scheduler.row, s.scheduler.pay, s.scheduler.todo, charge))
  {
    ChargedRow(s);
    SettledPay(s, match charge case Refused => Failed case Accepted => Unpaid case Succeeded(_, _) => Paid);
    var row := s.scheduler.row;
    if charge.Succeeded? {
      LaterEndCovers(s, row.id, row.sub, Renewed(row.sub, s.now, charge.month, charge.saved));
    }
  }

  lemma StartCleaningKeeps(s: State, cutoff: Time)
    requires Inv(s) && s.scheduler.Changing? && s.scheduler.todo == []
    ensures Inv(DropStaleSubs(s, cutoff))
  {
    var t := DropStaleSubs(s, cutoff);
    forall p | p in t.pays ensures p in s.pays && OwnerOk(t.subs, t.pays[p]) && p < t.nextPay {
      assert OwnerOk(s.subs, s.pays[p]);
    }
  }

  lemma FinishCleaningKeeps(s: State, cutoff: Time)
    requires Inv(s) && s.scheduler.Cleaning?
    ensures Inv(DropStalePays(s, cutoff))
  {
    var t := DropStalePays(s, cutoff);
    forall p | p in t.pays ensures p in s.pays && t.pays[p] == s.pays[p] && OwnerOk(t.subs, t.pays[p]) {
      assert OwnerOk(s.subs, s.pays[p]);
    }
  }

  predicate OfScheduler(e: Step) {
    e.FetchExpired? || e.ExpireNext? || e.FetchExpiring? || e.RenewNext? || e.Settle? || e.FetchChanging?
    || e.ChangeNext? || e.StartCleaning? || e.FinishCleaning?
  }

  lemma StepKeeps(s: State, e: Step)
    requires Inv(s) && Enabled(s, e)
    ensures Inv(Next(s, e))
  {
    if OfScheduler(e) {
      SchedulerStepKeeps(s, e);
    } else if e.DeleteUser? {
      DropUserKeeps(s, e.user);
    } else if e.Checkout? {
      CheckoutKeeps(s, e.user, e.plan, e.recurring, e.invoice);
    } else if e.PaymentSucceeded? {
      if e.pay.Some? { PaymentSucceededKeeps(s, e.pay.value, e.saved, e.month); }
    } else if e.Cancel? || e.ChangePlan? || e.AdminCancel? || e.AdminExtend? {
      RequestKeeps(s, e);
    } else {
      QuietStepKeeps(s, e);
    }
  }

  lemma SchedulerStepKeeps(s: State, e: Step)
    requires Inv(s) && Enabled(s, e) && OfScheduler(e)
    ensures Inv(Next(s, e))
  {
    if e.FetchExpired? || e.FetchExpiring? || e.FetchChanging? {
      FetchKeeps(s, e);
    } else if e.StartCleaning? || e.FinishCleaning? {
      CleaningKeeps(s, e);
    } else {
      LoopStepKeeps(s, e);
    }
  }

  lemma CleaningKeeps(s: State, e: Step)
    requires Inv(s) && Enabled(s, e) && (e.StartCleaning? || e.FinishCleaning?)
    ensures Inv(Next(s, e))
  {
    if e.StartCleaning? {
      StartCleaningKeeps(s, s.now - DAY);
      assert Next(s, e) == DropStaleSubs(s, s.now - DAY);
    } else {
      FinishCleaningKeeps(s, s.scheduler.cutoff);
      assert Next(s, e) == DropStalePays(s, s.scheduler.cutoff);
    }
  }

  lemma QuietStepKeeps(s: State, e: Step)
    requires Inv(s) && Enabled(s, e) && (e.Tick? || e.AddUser? || e.PaymentCanceled? || e.Restart?)
    ensures Inv(Next(s, e))
  {
    if s.scheduler.Charging? { ChargedRow(s); }
  }

  lemma LoopStepKeeps(s: State, e: Step)
    requires Inv(s) && Enabled(s, e)
    requires e.ExpireNext? || e.RenewNext? || e.Settle? || e.ChangeNext?
    ensures Inv(Next(s, e))
  {
    match e
    case ExpireNext(free) => ExpireKeeps(s, free);
    case RenewNext(price, invoice) => RenewKeeps(s, price, invoice);
    case Settle(charge) => SettleKeeps(s, charge);
    case ChangeNext(found) => ChangeKeeps(s, found);
  }

  lemma {:induction false} RunKeeps(s: State, run: seq<Step>)
    requires Inv(s) && Legal(s, run)
    ensures Inv(Final(s, run))
    decreases run
  {
    if run != [] {
      StepKeeps(s, run[0]);
      RunKeeps(Next(s, run[0]), run[1..]);
    }
  }

  // ------------------------------------------------------------------------ theorems

  /** Two autopayments settled for one subscription are at least 28 days less an hour apart,
      whatever webhooks, plan changes, cancellations, extensions and restarts come between. */
  lemma AutopaymentsAreSpaced(run: seq<Step>, i: nat, j: nat)
    requires Legal(INIT, run)
    requires i < j < |Final(INIT, run).log| && Final(INIT, run).log[i].sub == Final(INIT, run).log[j].sub
    ensures Final(INIT, run).log[j].at - Final(INIT, run).log[i].at >= 28 * 24 * 3600 - 3600
  {
    RunKeeps(INIT, run);
  }

  /** At most one payment of a subscription is pending, and it belongs to the same user. */
  lemma PaymentsAreSafe(run: seq<Step>, p: PayId, q: PayId)
    requires Legal(INIT, run)
    requires var s := Final(INIT, run); p in s.pays && q in s.pays && s.pays[p].sub.Some?
    ensures var s := Final(INIT, run);
            && s.pays[p].sub.value in s.subs
            && s.subs[s.pays[p].sub.value].user == s.pays[p].user
            && (s.pays[p].status.Unpaid? && s.pays[q].status.Unpaid? && s.pays[p].sub == s.pays[q].sub ==> p == q)
            && (s.pays[p].invoice == s.pays[q].invoice ==> p == q)
  {
    RunKeeps(INIT, run);
    assert OwnerOk(Final(INIT, run).subs, Final(INIT, run).pays[p]);
  }

  /** Every subscription has a whole, nonempty period or none; an active one has a period, and it
      reaches 28 days past every renewal settled for it. */
  lemma PeriodsAreSound(run: seq<Step>, k: SubId)
    requires Legal(INIT, run) && k in Final(INIT, run).subs
    ensures var s := Final(INIT, run);
            var sub := s.subs[k];
            && (sub.start.Some? <==> sub.end.Some?) && (sub.status == Active ==> sub.end.Some?)
            && (sub.start.Some? ==> sub.start.value < sub.end.value)
            && forall i :: 0 <= i < |s.log| && s.log[i].sub == k ==>
                 sub.end.Some? && s.log[i].at + 28 * 24 * 3600 <= sub.end.value
  {
    RunKeeps(INIT, run);
  }
}
