/** Subscriptions and payments as a machine over time: request handlers, payment webhooks,
    administrators and the hourly scheduler act on one set of tables. A handler is one step. The
    scheduler is one step per loop iteration, it works from the rows it read at the start of the
    loop, and a renewal is cut in two at the call of the payment provider
    (internal/api/handlers_payment.go, internal/api/handlers_admin.go, internal/scheduler). */
module Billing {
  import opened Wrappers

  type Time = int
  type SubId = nat
  type PayId = nat

  const HOUR: Time := 3600
  const DAY: Time := 24 * HOUR

  datatype SubStatus = Pending | Active | Cancelled | Expired

  datatype PayStatus = Unpaid | Paid | Failed

  datatype Sub = Sub(
    user: int,
    plan: int,
    nextPlan: Option<int>,
    status: SubStatus,
    recurring: bool,
    start: Option<Time>,
    end: Option<Time>,
    cardId: Option<string>,
    created: Time)

  datatype Pay = Pay(user: int, sub: Option<SubId>, invoice: int, status: PayStatus, recurring: bool, created: Time)

  /** A row as the scheduler read it. */
  datatype Row = Row(id: SubId, sub: Sub)

  datatype Scheduler =
    | Resting
    | Expiring(todo: seq<Row>)
    | Renewing(todo: seq<Row>)
    | Charging(row: Row, pay: PayId, todo: seq<Row>)
    | Changing(todo: seq<Row>)
    | Cleaning(cutoff: Time)

  /** An autopayment settled by the scheduler. */
  datatype Renewal = Renewal(sub: SubId, at: Time)

  datatype State = State(
    now: Time,
    users: map<int, int>,               // user -> plan
    subs: map<SubId, Sub>,
    pays: map<PayId, Pay>,
    nextSub: SubId,                     // keys are never reused
    nextPay: PayId,
    scheduler: Scheduler,
    log: seq<Renewal>)

  const INIT := State(0, map[], map[], map[], 0, 0, Resting, [])

  /** What the provider answered to an autopayment request. */
  datatype Charge = Refused | Accepted | Succeeded(saved: Option<string>, month: Time)

  datatype Step =
    | Tick(delta: nat)
    | AddUser(user: int, plan: int)
    | DeleteUser(user: int)
    | Checkout(user: int, plan: int, recurring: bool, buyable: bool, latest: Option<SubId>, invoice: int)
    | PaymentSucceeded(pay: Option<PayId>, saved: Option<string>, month: Time)
    | PaymentCanceled(pay: Option<PayId>)
    | Cancel(user: int, latest: Option<SubId>)
    | ChangePlan(user: int, plan: int, available: bool, latest: Option<SubId>)
    | AdminCancel(id: SubId, free: Option<int>)
    | AdminExtend(id: SubId, days: int)
    | FetchExpired(rows: seq<Row>)
    | ExpireNext(free: Option<int>)
    | FetchExpiring(rows: seq<Row>)
    | RenewNext(price: Option<int>, invoice: int)
    | Settle(charge: Charge)
    | FetchChanging(rows: seq<Row>)
    | ChangeNext(found: bool)
    | StartCleaning
    | FinishCleaning
    | Restart

  // ------------------------------------------------------------------- queries

  /** GetByUserID: the newest active or cancelled subscription of the user. */
  ghost predicate IsLatest(s: State, user: int, latest: Option<SubId>) {
    match latest
    case None => forall k :: k in s.subs && s.subs[k].user == user ==> !Standing(s.subs[k])
    case Some(l) =>
      && l in s.subs && s.subs[l].user == user && Standing(s.subs[l])
      && forall k :: k in s.subs && s.subs[k].user == user && Standing(s.subs[k]) ==>
          s.subs[k].created <= s.subs[l].created
  }

  predicate Standing(sub: Sub) {
    sub.status.Active? || sub.status.Cancelled?
  }

  /** GetNextInvoiceID: one more than the greatest number in use. */
  ghost predicate IsNextInvoice(s: State, invoice: int) {
    if s.pays == map[] then invoice == 100001
    else
      && (exists p :: p in s.pays && invoice == s.pays[p].invoice + 1)
      && forall p :: p in s.pays ==> s.pays[p].invoice < invoice
  }

  predicate HasExpired(now: Time, sub: Sub) {
    sub.status.Active? && sub.end.Some? && sub.end.value < now
  }

  predicate IsExpiring(now: Time, sub: Sub) {
    sub.status.Active? && sub.recurring && sub.end.Some? && sub.end.value <= now + HOUR
  }

  predicate HasPlanChange(now: Time, sub: Sub) {
    sub.nextPlan.Some? && sub.end.Some? && sub.end.value < now
  }

  /** The rows of a query, once each and in any order; nothing when the read failed. */
  ghost predicate Reads(rows: seq<Row>, subs: map<SubId, Sub>, want: Sub -> bool) {
    && (forall i :: 0 <= i < |rows| ==> rows[i].id in subs && rows[i].sub == subs[rows[i].id] && want(rows[i].sub))
    && (forall i, j :: 0 <= i < j < |rows| ==> rows[i].id != rows[j].id)
    && (rows == [] || forall k :: k in subs && want(subs[k]) ==> Row(k, subs[k]) in rows)
  }

  ghost predicate NoneUnpaid(pays: map<PayId, Pay>, sub: SubId) {
    forall p :: p in pays ==> !(pays[p].status.Unpaid? && pays[p].sub == Some(sub))
  }

  predicate IsMonth(month: Time) {
    28 * DAY <= month <= 31 * DAY
  }

  ghost predicate Enabled(s: State, e: Step) {
    match e
    case Tick(_) => true
    case AddUser(user, _) => user !in s.users
    case DeleteUser(user) => user in s.users
    case Checkout(user, _, _, _, latest, invoice) => IsLatest(s, user, latest) && IsNextInvoice(s, invoice)
    case PaymentSucceeded(pay, _, month) => (pay.Some? ==> pay.value in s.pays) && IsMonth(month)
    case PaymentCanceled(pay) => pay.Some? ==> pay.value in s.pays
    case Cancel(user, latest) => IsLatest(s, user, latest)
    case ChangePlan(user, _, _, latest) => IsLatest(s, user, latest)
    case AdminCancel(_, _) => true
    case AdminExtend(_, _) => true
    case FetchExpired(rows) => s.scheduler.Resting? && Reads(rows, s.subs, sub => HasExpired(s.now, sub))
    case ExpireNext(_) => s.scheduler.Expiring? && s.scheduler.todo != []
    case FetchExpiring(rows) =>
      s.scheduler.Expiring? && s.scheduler.todo == [] && Reads(rows, s.subs, sub => IsExpiring(s.now, sub))
    case RenewNext(_, invoice) => s.scheduler.Renewing? && s.scheduler.todo != [] && IsNextInvoice(s, invoice)
    case Settle(charge) => s.scheduler.Charging? && (charge.Succeeded? ==> IsMonth(charge.month))
    case FetchChanging(rows) =>
      s.scheduler.Renewing? && s.scheduler.todo == [] && Reads(rows, s.subs, sub => HasPlanChange(s.now, sub))
    case ChangeNext(_) => s.scheduler.Changing? && s.scheduler.todo != []
    case StartCleaning => s.scheduler.Changing? && s.scheduler.todo == []
    case FinishCleaning => s.scheduler.Cleaning?
    case Restart => true
  }

  // -------------------------------------------------------------------- writes

  /** UPDATE subscriptions: the row keeps its owner and creation time; no row, no change. */
  function StoreSub(subs: map<SubId, Sub>, k: SubId, sub: Sub): map<SubId, Sub> {
    if k in subs then subs[k := sub.(user := subs[k].user, created := subs[k].created)] else subs
  }

  /** UPDATE payments; the foreign key refuses a subscription that is gone. */
  function StorePay(subs: map<SubId, Sub>, pays: map<PayId, Pay>, p: PayId, sub: Option<SubId>,
                    status: PayStatus): map<PayId, Pay> {
    if p in pays && (sub.Some? ==> sub.value in subs) then pays[p := pays[p].(sub := sub, status := status)] else pays
  }

  function SetPlan(users: map<int, int>, user: int, plan: Option<int>): map<int, int> {
    if user in users && plan.Some? then users[user := plan.value] else users
  }

  function Renewed(sub: Sub, now: Time, month: Time, saved: Option<string>): Sub {
    sub.(status := Active, start := Some(now), end := Some(now + month),
         cardId := if saved.Some? then saved else sub.cardId)
  }

  /** handleAdminExtendSubscription's new period and status. */
  function Extended(sub: Sub, now: Time, days: int): Sub {
    var lapsed := sub.end.None? || sub.end.value < now;
    var base := if lapsed then now else sub.end.value;
    sub.(start := if lapsed then Some(now) else sub.start,
         end := Some(base + days * DAY),
         status := if sub.status.Expired? || sub.status.Cancelled? then Active else sub.status)
  }

  function DoCheckout(s: State, user: int, plan: int, recurring: bool, invoice: int): State {
    var sub := Sub(user, plan, None, Pending, recurring, None, None, None, s.now);
    var pay := Pay(user, Some(s.nextSub), invoice, Unpaid, recurring, s.now);
    s.(subs := s.subs[s.nextSub := sub], pays := s.pays[s.nextPay := pay],
       nextSub := s.nextSub + 1, nextPay := s.nextPay + 1)
  }

  function DoPaymentSucceeded(s: State, p: PayId, saved: Option<string>, month: Time): State
    requires p in s.pays
  {
    var pay := s.pays[p];
    var t := s.(pays := s.pays[p := pay.(status := Paid)]);
    if pay.sub.Some? && pay.sub.value in s.subs then
      var sub := s.subs[pay.sub.value];
      t.(subs := StoreSub(s.subs, pay.sub.value, Renewed(sub, s.now, month, saved)),
         users := SetPlan(s.users, sub.user, Some(sub.plan)))
    else t
  }

  function DoExpire(s: State, row: Row, todo: seq<Row>, free: Option<int>): State {
    if row.sub.recurring && row.sub.status.Active? then s.(scheduler := Expiring(todo))
    else
      s.(subs := StoreSub(s.subs, row.id, row.sub.(status := Expired)),
         users := SetPlan(s.users, row.sub.user, free),
         scheduler := Expiring(todo))
  }

  ghost function DoRenew(s: State, row: Row, todo: seq<Row>, price: Option<int>, invoice: int): State {
    if !row.sub.recurring || row.sub.cardId == None || row.sub.cardId == Some("")
       || !NoneUnpaid(s.pays, row.id) || price == None || price.value <= 0
       || row.id !in s.subs || row.sub.user !in s.users
    then s.(scheduler := Renewing(todo))
    else
      s.(pays := s.pays[s.nextPay := Pay(row.sub.user, Some(row.id), invoice, Unpaid, true, s.now)],
         nextPay := s.nextPay + 1,
         scheduler := Charging(row, s.nextPay, todo))
  }

  function DoSettle(s: State, row: Row, p: PayId, todo: seq<Row>, charge: Charge): State {
    var status := match charge case Refused => Failed case Accepted => Unpaid case Succeeded(_, _) => Paid;
    var t := s.(pays := StorePay(s.subs, s.pays, p, Some(row.id), status), scheduler := Renewing(todo));
    if charge.Succeeded? then
      t.(subs := StoreSub(s.subs, row.id, Renewed(row.sub, s.now, charge.month, charge.saved)),
         log := s.log + [Renewal(row.id, s.now)])
    else t
  }

  function DoChange(s: State, row: Row, todo: seq<Row>, found: bool): State {
    if row.sub.nextPlan.None? || !found then s.(scheduler := Changing(todo))
    else
      s.(subs := StoreSub(s.subs, row.id, row.sub.(plan := row.sub.nextPlan.value, nextPlan := None)),
         users := SetPlan(s.users, row.sub.user, row.sub.nextPlan),
         scheduler := Changing(todo))
  }

  /** Deleting subscriptions sets the payments' references to them to NULL. */
  function Detached(pays: map<PayId, Pay>, kept: set<SubId>): map<PayId, Pay> {
    map p | p in pays :: if pays[p].sub.Some? && pays[p].sub.value !in kept then pays[p].(sub := None) else pays[p]
  }

  predicate Stale(pay: Pay, cutoff: Time) {
    pay.status.Unpaid? && pay.created < cutoff
  }

  /** The first statement of DeleteStalePending. */
  function DropStaleSubs(s: State, cutoff: Time): State {
    var stale := set p | p in s.pays && Stale(s.pays[p], cutoff) && s.pays[p].sub.Some? :: s.pays[p].sub.value;
    var subs := map k | k in s.subs && !(s.subs[k].status.Pending? && k in stale) :: s.subs[k];
    s.(subs := subs, pays := Detached(s.pays, subs.Keys), scheduler := Cleaning(cutoff))
  }

  /** The second statement of DeleteStalePending. */
  function DropStalePays(s: State, cutoff: Time): State {
    s.(pays := map p | p in s.pays && !Stale(s.pays[p], cutoff) :: s.pays[p], scheduler := Resting)
  }

  /** Deleting a user cascades to the user's subscriptions and payments. */
  function DropUser(s: State, user: int): State {
    var subs := map k | k in s.subs && s.subs[k].user != user :: s.subs[k];
    s.(users := s.users - {user}, subs := subs,
       pays := Detached(map p | p in s.pays && s.pays[p].user != user :: s.pays[p], subs.Keys))
  }

  ghost function Next(s: State, e: Step): State
    requires Enabled(s, e)
  {
    match e
    case Tick(delta) => s.(now := s.now + delta)
    case AddUser(user, plan) => s.(users := s.users[user := plan])
    case DeleteUser(user) => DropUser(s, user)
    case Checkout(user, plan, recurring, buyable, latest, invoice) =>
      if !buyable || (latest.Some? && s.subs[latest.value].status.Active?) || user !in s.users then s
      else DoCheckout(s, user, plan, recurring, invoice)
    case PaymentSucceeded(pay, saved, month) =>
      if pay.None? || s.pays[pay.value].status.Paid? then s else DoPaymentSucceeded(s, pay.value, saved, month)
    case PaymentCanceled(pay) =>
      if pay.None? then s else s.(pays := s.pays[pay.value := s.pays[pay.value].(status := Failed)])
    case Cancel(_, latest) =>
      if latest.None? || !s.subs[latest.value].status.Active? then s
      else
        s.(subs := StoreSub(s.subs, latest.value,
                            s.subs[latest.value].(status := Cancelled, recurring := false, cardId := None)))
    case ChangePlan(_, plan, available, latest) =>
      if !available || latest.None? || !s.subs[latest.value].status.Active? then s
      else
        var sub := s.subs[latest.value];
        s.(subs := StoreSub(s.subs, latest.value, sub.(nextPlan := if sub.plan == plan then None else Some(plan))))
    case AdminCancel(id, free) =>
      if id !in s.subs then s
      else
        s.(subs := StoreSub(s.subs, id, s.subs[id].(status := Cancelled, recurring := false)),
           users := SetPlan(s.users, s.subs[id].user, free))
    case AdminExtend(id, days) =>
      if days <= 0 || id !in s.subs then s
      else
        s.(subs := StoreSub(s.subs, id, Extended(s.subs[id], s.now, days)),
           users := SetPlan(s.users, s.subs[id].user, Some(s.subs[id].plan)))
    case FetchExpired(rows) => s.(scheduler := Expiring(rows))
    case ExpireNext(free) => DoExpire(s, s.scheduler.todo[0], s.scheduler.todo[1..], free)
    case FetchExpiring(rows) => s.(scheduler := Renewing(rows))
    case RenewNext(price, invoice) => DoRenew(s, s.scheduler.todo[0], s.scheduler.todo[1..], price, invoice)
    case Settle(charge) => DoSettle(s, s.scheduler.row, s.scheduler.pay, s.scheduler.todo, charge)
    case FetchChanging(rows) => s.(scheduler := Changing(rows))
    case ChangeNext(found) => DoChange(s, s.scheduler.todo[0], s.scheduler.todo[1..], found)
    case StartCleaning => DropStaleSubs(s, s.now - DAY)
    case FinishCleaning => DropStalePays(s, s.scheduler.cutoff)
    case Restart => s.(scheduler := Resting)
  }

  ghost predicate Legal(s: State, run: seq<Step>)
    decreases run
  {
    run == [] || (Enabled(s, run[0]) && Legal(Next(s, run[0]), run[1..]))
  }

  ghost function Final(s: State, run: seq<Step>): State
    requires Legal(s, run)
    decreases run
  {
    if run == [] then s else Final(Next(s, run[0]), run[1..])
  }
}
