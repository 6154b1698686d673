/** The handlers and the scheduler over the tables themselves: every method is proved to be a step
    of the billing machine, and an hourly check to be a run of it. */
module BillingService {
  import opened Billing
  import opened BillingRuns
  import opened BillingInvariants
  import opened Wrappers

  class Service {
    var now: Time
    var users: map<int, int>
    var subs: map<SubId, Sub>
    var pays: map<PayId, Pay>
    var nextSub: SubId
    var nextPay: PayId
    ghost var scheduler: Scheduler      // how far the hourly check is
    ghost var log: seq<Renewal>

    ghost function Contents(): State
      reads this
    {
      State(now, users, subs, pays, nextSub, nextPay, scheduler, log)
    }

    constructor ()
      ensures Contents() == INIT
    {
      now, users, subs, pays, nextSub, nextPay, scheduler, log := 0, map[], map[], map[], 0, 0, Resting, [];
    }

    // ----------------------------------------------------------------- queries

    method GetByUserID(user: int) returns (latest: Option<SubId>)
      ensures IsLatest(Contents(), user, latest)
    {
      latest := None;
      var todo := subs.Keys;
      while todo != {}
        invariant todo <= subs.Keys
        invariant latest.Some? ==>
            latest.value in subs && subs[latest.value].user == user && Standing(subs[latest.value])
        invariant forall k :: k in subs && k !in todo && subs[k].user == user && Standing(subs[k]) ==>
                    latest.Some? && subs[k].created <= subs[latest.value].created
        decreases todo
      {
        var k :| k in todo;
        todo := todo - {k};
        if subs[k].user == user && Standing(subs[k]) && (latest.None? || subs[k].created > subs[latest.value].created) {
          latest := Some(k);
        }
      }
    }

    method GetByInvoiceID(invoice: int) returns (pay: Option<PayId>)
      ensures HasInvoice(pays, invoice, pay)
    {
      var todo := pays.Keys;
      while todo != {}
        invariant todo <= pays.Keys
        invariant forall p :: p in pays && p !in todo ==> pays[p].invoice != invoice
        decreases todo
      {
        var p :| p in todo;
        if pays[p].invoice == invoice {
          return Some(p);
        }
        todo := todo - {p};
      }
      return None;
    }

    method GetNextInvoiceID() returns (invoice: int)
      ensures IsNextInvoice(Contents(), invoice)
    {
      if pays == map[] {
        return 100001;
      }
      var first :| first in pays;
      invoice := pays[first].invoice + 1;
      var todo := pays.Keys;
      while todo != {}
        invariant todo <= pays.Keys
        invariant exists p :: p in pays && invoice == pays[p].invoice + 1
        invariant forall p :: p in pays && p !in todo ==> pays[p].invoice < invoice
        decreases todo
      {
        var p :| p in todo;
        todo := todo - {p};
        if pays[p].invoice >= invoice {
          invoice := pays[p].invoice + 1;
        }
      }
    }

    method HasPendingPayment(sub: SubId) returns (pending: bool)
      ensures pending <==> !NoneUnpaid(pays, sub)
    {
      pending := false;
      var todo := pays.Keys;
      while todo != {}
        invariant todo <= pays.Keys
        invariant pending ==> !NoneUnpaid(pays, sub)
        invariant !pending ==> forall p :: p in pays && p !in todo ==>
            !(pays[p].status.Unpaid? && pays[p].sub == Some(sub))
        decreases todo
      {
        var p :| p in todo;
        todo := todo - {p};
        if pays[p].status.Unpaid? && pays[p].sub == Some(sub) {
          pending := true;
        }
      }
    }

    method Select(want: Sub -> bool) returns (rows: seq<Row>)
      ensures Reads(rows, subs, want)
      ensures forall k :: k in subs && want(subs[k]) ==> Row(k, subs[k]) in rows
    {
      rows := [];
      var todo := subs.Keys;
      while todo != {}
        invariant todo <= subs.Keys
        invariant forall i :: 0 <= i < |rows| ==>
                    rows[i].id in subs && rows[i].id !in todo && rows[i].sub == subs[rows[i].id] && want(rows[i].sub)
        invariant forall i, j :: 0 <= i < j < |rows| ==> rows[i].id != rows[j].id
        invariant forall k :: k in subs && k !in todo && want(subs[k]) ==> Row(k, subs[k]) in rows
        decreases todo
      {
        var k :| k in todo;
        todo := todo - {k};
        if want(subs[k]) {
          rows := rows + [Row(k, subs[k])];
        }
      }
    }

    // ----------------------------------------------------------------- updates

    method UpdateSub(k: SubId, sub: Sub)
      modifies this`subs
      ensures subs == StoreSub(old(subs), k, sub)
    {
      if k in subs {
        subs := subs[k := sub.(user := subs[k].user, created := subs[k].created)];
      }
    }

    method UpdatePlan(user: int, plan: Option<int>)
      modifies this`users
      ensures users == SetPlan(old(users), user, plan)
    {
      if user in users && plan.Some? {
        users := users[user := plan.value];
      }
    }

    // ---------------------------------------------------------------- handlers

    /** `user !in users`: the foreign key refuses the subscription. `buyable` is what the earlier tests
        of plan and price found. */
    method HandleCheckout(user: int, plan: int, recurring: bool, buyable: bool) returns (ghost step: Step)
      modifies this
      ensures step.Checkout? && step.user == user && step.plan == plan
      ensures step.recurring == recurring && step.buyable == buyable
      ensures Enabled(old(Contents()), step) && Contents() == Next(old(Contents()), step)
    {
      var latest := GetByUserID(user);
      var invoice := GetNextInvoiceID();
      step := Checkout(user, plan, recurring, buyable, latest, invoice);
      if !buyable || (latest.Some? && subs[latest.value].status.Active?) || user !in users {
        return;
      }
      subs := subs[nextSub := Sub(user, plan, None, Pending, recurring, None, None, None, now)];
      pays := pays[nextPay := Pay(user, Some(nextSub), invoice, Unpaid, recurring, now)];
      nextSub, nextPay := nextSub + 1, nextPay + 1;
    }

    /** `month` is the length of the new period. */
    method HandlePaymentSucceeded(invoice: int, saved: Option<string>, month: Time) returns (pay: Option<PayId>)
      requires IsMonth(month)
      modifies this
      ensures HasInvoice(old(pays), invoice, pay)
      ensures Contents() == Next(old(Contents()), PaymentSucceeded(pay, saved, month))
    {
      pay := GetByInvoiceID(invoice);
      if pay.None? || pays[pay.value].status.Paid? {
        return;
      }
      var p := pays[pay.value];
      pays := pays[pay.value := p.(status := Paid)];
      if p.sub.Some? && p.sub.value in subs {
        var sub := subs[p.sub.value];
        UpdateSub(p.sub.value, Renewed(sub, now, month, saved));
        UpdatePlan(sub.user, Some(sub.plan));
      }
    }

    method HandlePaymentCanceled(invoice: int) returns (pay: Option<PayId>)
      modifies this
      ensures HasInvoice(old(pays), invoice, pay)
      ensures Contents() == Next(old(Contents()), PaymentCanceled(pay))
    {
      pay := GetByInvoiceID(invoice);
      if pay.Some? {
        pays := pays[pay.value := pays[pay.value].(status := Failed)];
      }
    }

    method HandleCancelSubscription(user: int) returns (ghost step: Step)
      modifies this
      ensures step.Cancel? && step.user == user
      ensures Enabled(old(Contents()), step) && Contents() == Next(old(Contents()), step)
    {
      var latest := GetByUserID(user);
      step := Cancel(user, latest);
      if latest.None? || !subs[latest.value].status.Active? {
        return;
      }
      UpdateSub(latest.value, subs[latest.value].(status := Cancelled, recurring := false, cardId := None));
    }

    method HandleChangePlan(user: int, plan: int, available: bool) returns (ghost step: Step)
      modifies this
      ensures step.ChangePlan? && step.user == user && step.plan == plan && step.available == available
      ensures Enabled(old(Contents()), step) && Contents() == Next(old(Contents()), step)
    {
      var latest := GetByUserID(user);
      step := ChangePlan(user, plan, available, latest);
      if !available || latest.None? || !subs[latest.value].status.Active? {
        return;
      }
      var sub := subs[latest.value];
      UpdateSub(latest.value, sub.(nextPlan := if sub.plan == plan then None else Some(plan)));
    }

    /** `free` is the default plan, if there is one. */
    method HandleAdminCancel(id: SubId, free: Option<int>)
      modifies this
      ensures Contents() == Next(old(Contents()), AdminCancel(id, free))
    {
      if id !in subs {
        return;
      }
      var sub := subs[id].(status := Cancelled, recurring := false);
      UpdateSub(id, sub);
      UpdatePlan(sub.user, free);
    }

    method HandleAdminExtend(id: SubId, days: int)
      modifies this
      ensures Contents() == Next(old(Contents()), AdminExtend(id, days))
    {
      if days <= 0 || id !in subs {
        return;
      }
      var sub := subs[id];
      if sub.end.None? || sub.end.value < now {
        sub := sub.(start := Some(now), end := Some(now + days * DAY));
      } else {
        sub := sub.(end := Some(sub.end.value + days * DAY));
      }
      if sub.status.Expired? || sub.status.Cancelled? {
        sub := sub.(status := Active);
      }
      UpdateSub(id, sub);
      UpdatePlan(sub.user, Some(sub.plan));
    }

    // --------------------------------------------------------------- scheduler

    method ExpireOne(row: Row, free: Option<int>)
      requires scheduler.Expiring? && scheduler.todo != [] && scheduler.todo[0] == row
      modifies this
      ensures Contents() == Next(old(Contents()), ExpireNext(free))
      ensures row.sub.status.Active? ==> ExpiredBy([row], free, old(Contents()), Contents())
    {
      scheduler := Expiring(scheduler.todo[1..]);
      if row.sub.recurring && row.sub.status.Active? {
        return;
      }
      UpdateSub(row.id, row.sub.(status := Expired));
      UpdatePlan(row.sub.user, free);
    }

    /** The part of a renewal before the provider is called; `price` is the plan's, if it is found. */
    method RenewOne(row: Row, price: Option<int>) returns (pay: Option<PayId>, ghost step: Step)
      requires scheduler.Renewing? && scheduler.todo != [] && scheduler.todo[0] == row
      modifies this
      ensures step.RenewNext? && step.price == price
      ensures Enabled(old(Contents()), step) && Contents() == Next(old(Contents()), step)
      ensures pay.Some? <==> scheduler.Charging?
      ensures pay.Some? ==> scheduler == Charging(row, pay.value, old(scheduler).todo[1..])
    {
      var invoice := GetNextInvoiceID();
      step := RenewNext(price, invoice);
      pay := None;
      ghost var todo := scheduler.todo[1..];
      scheduler := Renewing(todo);
      if !row.sub.recurring || row.sub.cardId == None || row.sub.cardId == Some("") {
        return;
      }
      var pending := HasPendingPayment(row.id);
      if pending || price == None || price.value <= 0 || row.id !in subs || row.sub.user !in users {
        return;
      }
      pay := Some(nextPay);
      scheduler := Charging(row, nextPay, todo);
      pays := pays[nextPay := Pay(row.sub.user, Some(row.id), invoice, Unpaid, true, now)];
      nextPay := nextPay + 1;
    }

    /** The part of a renewal after the provider has answered. */
    method SettleOne(row: Row, pay: PayId, charge: Charge)
      requires scheduler.Charging? && scheduler.row == row && scheduler.pay == pay
      requires charge.Succeeded? ==> IsMonth(charge.month)
      modifies this
      ensures Contents() == Next(old(Contents()), Settle(charge))
    {
      assert Next(Contents(), Settle(charge)) == DoSettle(Contents(), row, pay, scheduler.todo, charge);
      scheduler := Renewing(scheduler.todo);
      var status := match charge case Refused => Failed case Accepted => Unpaid case Succeeded(_, _) => Paid;
      if pay in pays && row.id in subs {
        pays := pays[pay := pays[pay].(sub := Some(row.id), status := status)];
      }
      if charge.Succeeded? {
        UpdateSub(row.id, Renewed(row.sub, now, charge.month, charge.saved));
        log := log + [Renewal(row.id, now)];
      }
    }

    method ChangeOne(row: Row, found: bool)
      requires scheduler.Changing? && scheduler.todo != [] && scheduler.todo[0] == row
      modifies this
      ensures Contents() == Next(old(Contents()), ChangeNext(found))
    {
      scheduler := Changing(scheduler.todo[1..]);
      if row.sub.nextPlan.None? || !found {
        return;
      }
      UpdateSub(row.id, row.sub.(plan := row.sub.nextPlan.value, nextPlan := None));
      UpdatePlan(row.sub.user, row.sub.nextPlan);
    }

    method GetExpired() returns (rows: seq<Row>)
      requires scheduler.Resting?
      modifies this`scheduler
      ensures Enabled(old(Contents()), FetchExpired(rows)) && Contents() == Next(old(Contents()), FetchExpired(rows))
      ensures forall k :: k in subs && subs[k].status == Active && subs[k].end.Some? && subs[k].end.value < now
                ==> Row(k, subs[k]) in rows
    {
      var t := now;
      rows := Select(sub => HasExpired(t, sub));
      scheduler := Expiring(rows);
    }

    method GetExpiring() returns (rows: seq<Row>)
      requires scheduler == Expiring([])
      modifies this`scheduler
      ensures Enabled(old(Contents()), FetchExpiring(rows)) && Contents() == Next(old(Contents()), FetchExpiring(rows))
      ensures forall k :: k in subs && subs[k].status == Active && subs[k].recurring && subs[k].end.Some?
                          && subs[k].end.value <= now + 3600
                ==> Row(k, subs[k]) in rows
    {
      var t := now;
      rows := Select(sub => IsExpiring(t, sub));
      scheduler := Renewing(rows);
    }

    method GetWithPendingPlanChange() returns (rows: seq<Row>)
      requires scheduler == Renewing([])
      modifies this`scheduler
      ensures Enabled(old(Contents()), FetchChanging(rows)) && Contents() == Next(old(Contents()), FetchChanging(rows))
      ensures forall k :: k in subs && subs[k].nextPlan.Some? && subs[k].end.Some? && subs[k].end.value < now
                ==> Row(k, subs[k]) in rows
    {
      var t := now;
      rows := Select(sub => HasPlanChange(t, sub));
      scheduler := Changing(rows);
    }

    method ProcessExpiredSubscriptions(w: World) returns (ghost run: seq<Step>)
      requires scheduler.Resting?
      modifies this
      ensures Checks(old(Contents()), run, Contents(), w) && scheduler == Expiring([])
      ensures run != [] && run[0].FetchExpired? && Answers(old(Contents()), run[0], w)
      ensures ExpiredBy(run[0].rows, w.free, old(Contents()), Contents())
    {
      var rows := GetExpired();
      run := [FetchExpired(rows)];
      ChecksOne(old(Contents()), FetchExpired(rows), w);
      for i := 0 to |rows|
        invariant scheduler == Expiring(rows[i..]) && forall row :: row in rows ==> row.sub.status.Active?
        invariant run != [] && run[0] == FetchExpired(rows) && Checks(old(Contents()), run, Contents(), w)
        invariant ExpiredBy(rows[..i], w.free, old(Contents()), Contents())
      {
        ghost var before := Contents();
        ExpireOne(rows[i], w.free);
        ExpiredMore(rows, i, w.free, old(Contents()), before, Contents());
        ChecksMore(old(Contents()), run, before, ExpireNext(w.free), w);
        run := run + [ExpireNext(w.free)];
      }
    }

    /** One round of the renewal loop. */
    method RenewAndSettle(row: Row, w: World) returns (ghost steps: seq<Step>)
      requires scheduler.Renewing? && scheduler.todo != [] && scheduler.todo[0] == row && MonthsOf(w)
      modifies this
      ensures Checks(old(Contents()), steps, Contents(), w) && scheduler == Renewing(old(scheduler).todo[1..])
      ensures steps != [] && steps[0].RenewNext?
    {
      var pay;
      ghost var step;
      pay, step := RenewOne(row, w.price(row.sub.plan));
      steps := [step];
      ChecksOne(old(Contents()), step, w);
      if pay.Some? {
        ghost var between := Contents();
        var charge := w.charge(pay.value);
        SettleOne(row, pay.value, charge);
        ChecksMore(old(Contents()), steps, between, Settle(charge), w);
        steps := steps + [Settle(charge)];
      }
    }

    /** Without a configured provider the loop is skipped. */
    method ProcessRecurringRenewals(w: World) returns (ghost run: seq<Step>)
      requires scheduler == Expiring([]) && MonthsOf(w)
      modifies this
      ensures Checks(old(Contents()), run, Contents(), w) && scheduler == Renewing([])
      ensures !w.provider ==> subs == old(subs) && pays == old(pays) && log == old(log)
    {
      if !w.provider {
        scheduler := Renewing([]);
        run := [FetchExpiring([])];
        ChecksOne(old(Contents()), FetchExpiring([]), w);
        return;
      }
      var rows := GetExpiring();
      run := [FetchExpiring(rows)];
      ChecksOne(old(Contents()), FetchExpiring(rows), w);
      for i := 0 to |rows|
        invariant scheduler == Renewing(rows[i..])
        invariant Checks(old(Contents()), run, Contents(), w)
      {
        ghost var before := Contents();
        ghost var steps := RenewAndSettle(rows[i], w);
        ChecksOn(old(Contents()), run, before, steps, Contents(), w);
        run := run + steps;
      }
    }

    method ApplyPlanChanges(w: World) returns (ghost run: seq<Step>)
      requires scheduler == Renewing([])
      modifies this
      ensures Checks(old(Contents()), run, Contents(), w) && scheduler == Changing([])
    {
      var rows := GetWithPendingPlanChange();
      run := [FetchChanging(rows)];
      ChecksOne(old(Contents()), FetchChanging(rows), w);
      for i := 0 to |rows|
        invariant scheduler == Changing(rows[i..])
        invariant Checks(old(Contents()), run, Contents(), w)
      {
        ghost var before := Contents();
        var next := rows[i].sub.nextPlan;
        var found := next.Some? && w.found(next.value);
        ChangeOne(rows[i], found);
        ChecksMore(old(Contents()), run, before, ChangeNext(found), w);
        run := run + [ChangeNext(found)];
      }
    }

    /** The first statement of DeleteStalePending. */
    method DeleteStaleSubscriptions(cutoff: Time)
      requires scheduler == Changing([]) && cutoff == now - DAY
      modifies this
      ensures Contents() == Next(old(Contents()), StartCleaning)
    {
      var stale := set p | p in pays && Stale(pays[p], cutoff) && pays[p].sub.Some? :: pays[p].sub.value;
      subs := map k | k in subs && !(subs[k].status.Pending? && k in stale) :: subs[k];
      pays := Detached(pays, subs.Keys);
      scheduler := Cleaning(cutoff);
    }

    /** The second statement of DeleteStalePending. */
    method DeleteStalePayments(cutoff: Time)
      requires scheduler == Cleaning(cutoff)
      modifies this
      ensures Contents() == Next(old(Contents()), FinishCleaning)
    {
      pays := map p | p in pays && !Stale(pays[p], cutoff) :: pays[p];
      scheduler := Resting;
    }

    method CleanupStalePendingPayments(ghost w: World) returns (ghost run: seq<Step>)
      requires scheduler == Changing([])
      modifies this
      ensures Checks(old(Contents()), run, Contents(), w) && scheduler == Resting
      ensures run == [StartCleaning, FinishCleaning]
    {
      var cutoff := now - DAY;
      DeleteStaleSubscriptions(cutoff);
      ChecksOne(old(Contents()), StartCleaning, w);
      ghost var between := Contents();
      DeleteStalePayments(cutoff);
      run := [StartCleaning] + [FinishCleaning];
      ChecksMore(old(Contents()), [StartCleaning], between, FinishCleaning, w);
    }

    /** One hourly check, undisturbed, is a run of the machine, from the reading of the expired
        subscriptions to the end of the cleanup; so it keeps the invariant. */
    method RunChecks(w: World) returns (ghost run: seq<Step>)
      requires scheduler.Resting? && MonthsOf(w)
      modifies this
      ensures Checks(old(Contents()), run, Contents(), w) && scheduler == Resting
      ensures run != [] && run[0].FetchExpired? && run[|run| - 1] == FinishCleaning
      ensures Inv(old(Contents())) ==> Inv(Contents())
    {
      ghost var s := Contents();
      run := ProcessExpiredSubscriptions(w);
      ghost var t := Contents();
      ghost var more := ProcessRecurringRenewals(w);
      ChecksOn(s, run, t, more, Contents(), w);
      run, t := run + more, Contents();
      more := ApplyPlanChanges(w);
      ChecksOn(s, run, t, more, Contents(), w);
      run, t := run + more, Contents();
      more := CleanupStalePendingPayments(w);
      ChecksOn(s, run, t, more, Contents(), w);
      run := run + more;
      if Inv(s) { RunKeeps(s, run); }
    }
  }

  /** What a check meets outside its tables: the default plan, whether a provider is configured, the
      plans' prices, what the provider answers, and which plans can still be found. */
  datatype World = World(
    free: Option<int>,
    provider: bool,
    price: int -> Option<int>,
    charge: PayId -> Charge,
    found: int -> bool)

  ghost predicate MonthsOf(w: World) {
    forall p :: w.charge(p).Succeeded? ==> IsMonth(w.charge(p).month)
  }

  /** The step is one of a check, and does with the outside what it should: each loop reads every
      row that is due. */
  ghost predicate Answers(s: State, e: Step, w: World)
    requires Enabled(s, e)
  {
    match e
    case FetchExpired(rows) =>
      forall k :: k in s.subs && s.subs[k].status == Active && s.subs[k].end.Some? && s.subs[k].end.value < s.now
        ==> Row(k, s.subs[k]) in rows
    case ExpireNext(free) => free == w.free
    case FetchExpiring(rows) =>
      if !w.provider then rows == []
      else
        forall k :: k in s.subs && s.subs[k].status == Active && s.subs[k].recurring && s.subs[k].end.Some?
                    && s.subs[k].end.value <= s.now + 3600
          ==> Row(k, s.subs[k]) in rows
    case RenewNext(price, _) => price == w.price(s.scheduler.todo[0].sub.plan)
    case Settle(charge) => charge == w.charge(s.scheduler.pay)
    case FetchChanging(rows) =>
      forall k :: k in s.subs && s.subs[k].nextPlan.Some? && s.subs[k].end.Some? && s.subs[k].end.value < s.now
        ==> Row(k, s.subs[k]) in rows
    case ChangeNext(found) =>
      s.scheduler.todo[0].sub.nextPlan.Some? ==> found == w.found(s.scheduler.todo[0].sub.nextPlan.value)
    case StartCleaning => true
    case FinishCleaning => true
    case _ => false
  }

  ghost predicate AllAnswer(s: State, run: seq<Step>, w: World)
    requires Legal(s, run)
    decreases run
  {
    run != [] ==> Answers(s, run[0], w) && AllAnswer(Next(s, run[0]), run[1..], w)
  }

  /** The run leads from s to t, by steps of a check in this world. */
  ghost predicate Checks(s: State, run: seq<Step>, t: State, w: World) {
    Leads(s, run, t) && AllAnswer(s, run, w)
  }

  lemma ChecksOne(s: State, e: Step, w: World)
    requires Enabled(s, e) && Answers(s, e, w)
    ensures Checks(s, [e], Next(s, e), w)
  {
    LeadsOne(s, e);
    assert [e][1..] == [];
  }

  lemma {:induction false} ChecksOn(s: State, a: seq<Step>, t: State, b: seq<Step>, u: State, w: World)
    requires Checks(s, a, t, w) && Checks(t, b, u, w)
    ensures Checks(s, a + b, u, w)
    decreases a
  {
    if a == [] {
      assert a + b == b;
    } else {
      assert (a + b)[1..] == a[1..] + b;
      ChecksOn(Next(s, a[0]), a[1..], t, b, u, w);
    }
  }

  lemma ChecksMore(s: State, run: seq<Step>, t: State, e: Step, w: World)
    requires Checks(s, run, t, w) && Enabled(t, e) && Answers(t, e, w)
    ensures Checks(s, run + [e], Next(t, e), w)
  {
    ChecksOne(t, e, w);
    ChecksOn(s, run, t, [e], Next(t, e), w);
  }

  /** The owners of the rows that are not recurring, if there are any, are on the default plan, if there
      is one, and everyone else on the plan as before; the subscriptions of these rows are over, and
      all others are as before. */
  ghost predicate ExpiredBy(rows: seq<Row>, free: Option<int>, s: State, t: State) {
    && t.users.Keys == s.users.Keys && t.subs.Keys == s.subs.Keys
    && (forall u :: u in t.users ==>
          t.users[u] == if free.Some? && (exists row :: row in rows && !row.sub.recurring && row.sub.user == u)
                        then free.value else s.users[u])
    && forall k :: k in t.subs ==>
         if exists row :: row in rows && !row.sub.recurring && row.id == k then t.subs[k].status == Expired
         else t.subs[k] == s.subs[k]
  }

  lemma ExpiredMore(rows: seq<Row>, i: nat, free: Option<int>, s: State, t: State, u: State)
    requires i < |rows| && ExpiredBy(rows[..i], free, s, t) && ExpiredBy([rows[i]], free, t, u)
    ensures ExpiredBy(rows[..i + 1], free, s, u)
  {
    assert rows[..i + 1] == rows[..i] + [rows[i]];
  }

  /** A payment with the invoice number; none when there is none. */
  ghost predicate HasInvoice(pays: map<PayId, Pay>, invoice: int, pay: Option<PayId>) {
    match pay
    case Some(p) => p in pays && pays[p].invoice == invoice
    case None => forall p :: p in pays ==> pays[p].invoice != invoice
  }
}
