/** What every row is after a run, told from the last step that touched it
    (internal/api/handlers_payment.go, internal/api/handlers_admin.go, internal/scheduler). */
module BillingEffects {
  import opened Billing
  import opened BillingInvariants
  import opened Wrappers

  function At<K, V>(m: map<K, V>, k: K): Option<V> {
    if k in m then Some(m[k]) else None
  }

  // ----------------------------------------------------------------- queries

  /** A handler acts on the newest active or cancelled subscription of the user. */
  lemma LatestIsNewest(s: State, e: Step)
    requires Enabled(s, e) && (e.Checkout? || e.Cancel? || e.ChangePlan?)
    ensures var user, latest := e.user, e.latest;
            && (latest.Some? ==>
                  && latest.value in s.subs && s.subs[latest.value].user == user
                  && (s.subs[latest.value].status == Active || s.subs[latest.value].status == Cancelled))
            && forall k :: k in s.subs && s.subs[k].user == user
                           && (s.subs[k].status == Active || s.subs[k].status == Cancelled)
                ==> latest.Some? && s.subs[k].created <= s.subs[latest.value].created
  {
  }

  lemma InvoiceIsNext(s: State, e: Step)
    requires Enabled(s, e) && (e.Checkout? || e.RenewNext?)
    ensures s.pays == map[] ==> e.invoice == 100001
    ensures s.pays != map[] ==> exists p :: p in s.pays && e.invoice == s.pays[p].invoice + 1
    ensures forall p :: p in s.pays ==> s.pays[p].invoice < e.invoice
  {
  }

  /** What the three loops read, unless the read fails: active subscriptions past their end; active
      recurring ones that end within an hour; those with a plan change past their end. */
  lemma RowsAreDue(s: State, e: Step, row: Row)
    requires Enabled(s, e) && (e.FetchExpired? || e.FetchExpiring? || e.FetchChanging?) && e.rows != []
    ensures row in e.rows <==>
              && row.id in s.subs && row.sub == s.subs[row.id] && row.sub.end.Some?
              && match e
                 case FetchExpired(_) => row.sub.status == Active && row.sub.end.value < s.now
                 case FetchExpiring(_) =>
                   row.sub.status == Active && row.sub.recurring && row.sub.end.value <= s.now + 3600
                 case FetchChanging(_) => row.sub.nextPlan.Some? && row.sub.end.value < s.now
  {
  }

  // ---------------------------------------------- what a step does to one row

  /** A user's plan, a subscription, or a payment. */
  datatype Item = UserPlan(user: int) | SubRow(sub: SubId) | PayRow(pay: PayId)

  datatype Value = IsPlan(plan: int) | IsSub(sub: Sub) | IsPay(pay: Pay)

  function Holds(s: State, item: Item): Option<Value> {
    match item
    case UserPlan(u) => if u in s.users then Some(IsPlan(s.users[u])) else None
    case SubRow(k) => if k in s.subs then Some(IsSub(s.subs[k])) else None
    case PayRow(p) => if p in s.pays then Some(IsPay(s.pays[p])) else None
  }

  /** The step makes an order: the plan can be bought, and the newest subscription is not active. */
  predicate Orders(s: State, e: Step) {
    && e.Checkout? && e.buyable && e.user in s.users
    && (e.latest.Some? ==> e.latest.value in s.subs && s.subs[e.latest.value].status != Active)
  }

  /** The step reports a payment that is not yet paid, for subscription k. */
  predicate Pays(s: State, e: Step, k: SubId) {
    && e.PaymentSucceeded? && e.pay.Some? && e.pay.value in s.pays && s.pays[e.pay.value].status != Paid
    && s.pays[e.pay.value].sub == Some(k) && k in s.subs
  }

  /** The step asks the provider for a payment: the row read is recurring and has a card, the plan
      costs something, and no payment for it is pending. */
  ghost predicate Charges(s: State, e: Step) {
    && e.RenewNext? && s.scheduler.Renewing? && s.scheduler.todo != []
    && var row := s.scheduler.todo[0];
       && row.sub.recurring && row.sub.cardId.Some? && row.sub.cardId.value != ""
       && e.price.Some? && e.price.value > 0 && row.id in s.subs && row.sub.user in s.users
       && forall p :: p in s.pays && s.pays[p].sub == Some(row.id) ==> s.pays[p].status != Unpaid
  }

  /** The step ends the first row of the expiry loop. */
  predicate Lapses(s: State, e: Step) {
    && e.ExpireNext? && s.scheduler.Expiring? && s.scheduler.todo != []
    && (s.scheduler.todo[0].sub.status != Active || !s.scheduler.todo[0].sub.recurring)
  }

  predicate Changes(s: State, e: Step) {
    && e.ChangeNext? && e.found && s.scheduler.Changing? && s.scheduler.todo != []
    && s.scheduler.todo[0].sub.nextPlan.Some?
  }

  /** A pending subscription with a payment that has been pending for more than a day. */
  ghost predicate Abandoned(s: State, k: SubId) {
    && k in s.subs && s.subs[k].status == Pending
    && exists p :: p in s.pays && s.pays[p].status == Unpaid && s.pays[p].created < s.now - 24 * 3600
              && s.pays[p].sub == Some(k)
  }

  /** The plan a step leaves the user on. */
  ghost function PlanSet(s: State, e: Step, user: int): Option<int> {
    match e
    case AddUser(u, plan) => if u == user then Some(plan) else None
    case PaymentSucceeded(pay, _, _) =>
      if pay.Some? && pay.value in s.pays && s.pays[pay.value].sub.Some? && Pays(s, e, s.pays[pay.value].sub.value)
         && s.subs[s.pays[pay.value].sub.value].user == user
      then Some(s.subs[s.pays[pay.value].sub.value].plan) else None
    case AdminCancel(id, free) => if id in s.subs && s.subs[id].user == user then free else None
    case AdminExtend(id, days) =>
      if days > 0 && id in s.subs && s.subs[id].user == user then Some(s.subs[id].plan) else None
    case ExpireNext(free) => if Lapses(s, e) && s.scheduler.todo[0].sub.user == user then free else None
    case ChangeNext(_) =>
      if Changes(s, e) && s.scheduler.todo[0].sub.user == user then s.scheduler.todo[0].sub.nextPlan else None
    case _ => None
  }

  /** What a step writes into subscription k; the owner and the creation time are not written. */
  ghost function SubSet(s: State, e: Step, k: SubId): Option<Sub>
    requires k in s.subs
  {
    var x := s.subs[k];
    match e
    case PaymentSucceeded(_, saved, month) =>
      if Pays(s, e, k)
      then Some(Sub(x.user, x.plan, x.nextPlan, Active, x.recurring, Some(s.now), Some(s.now + month),
                    if saved.Some? then saved else x.cardId, x.created))
      else None
    case Cancel(_, latest) =>
      if latest == Some(k) && x.status == Active
      then Some(Sub(x.user, x.plan, x.nextPlan, Cancelled, false, x.start, x.end, None, x.created)) else None
    case ChangePlan(_, plan, available, latest) =>
      if available && latest == Some(k) && x.status == Active
      then Some(Sub(x.user, x.plan, if plan == x.plan then None else Some(plan), Active, x.recurring, x.start, x.end,
                    x.cardId, x.created))
      else None
    case AdminCancel(id, _) =>
      if id == k then Some(Sub(x.user, x.plan, x.nextPlan, Cancelled, false, x.start, x.end, x.cardId, x.created))
      else None
    case AdminExtend(id, days) =>
      if id != k || days <= 0 then None
      else
        var lasting := x.end.Some? && x.end.value >= s.now;
        Some(Sub(x.user, x.plan, x.nextPlan, if x.status == Pending then Pending else Active, x.recurring,
                 if lasting then x.start else Some(s.now),
                 Some((if lasting then x.end.value else s.now) + days * 24 * 3600), x.cardId, x.created))
    case ExpireNext(_) =>
      if Lapses(s, e) && s.scheduler.todo[0].id == k then
        var r := s.scheduler.todo[0].sub;
        Some(Sub(x.user, r.plan, r.nextPlan, Expired, r.recurring, r.start, r.end, r.cardId, x.created))
      else None
    case Settle(charge) =>
      if charge.Succeeded? && s.scheduler.Charging? && s.scheduler.row.id == k then
        var r := s.scheduler.row.sub;
        Some(Sub(x.user, r.plan, r.nextPlan, Active, r.recurring, Some(s.now), Some(s.now + charge.month),
                 if charge.saved.Some? then charge.saved else r.cardId, x.created))
      else None
    case ChangeNext(_) =>
      if Changes(s, e) && s.scheduler.todo[0].id == k then
        var r := s.scheduler.todo[0].sub;
        Some(Sub(x.user, r.nextPlan.value, None, r.status, r.recurring, r.start, r.end, r.cardId, x.created))
      else None
    case _ => None
  }

  /** What a step writes into payment p. */
  ghost function PaySet(s: State, e: Step, p: PayId): Option<Pay>
    requires p in s.pays
  {
    var x := s.pays[p];
    match e
    case PaymentSucceeded(pay, _, _) =>
      if pay == Some(p) then Some(Pay(x.user, x.sub, x.invoice, Paid, x.recurring, x.created)) else None
    case PaymentCanceled(pay) =>
      if pay == Some(p) then Some(Pay(x.user, x.sub, x.invoice, Failed, x.recurring, x.created)) else None
    case Settle(charge) =>
      if s.scheduler.Charging? && s.scheduler.pay == p && s.scheduler.row.id in s.subs
      then Some(Pay(x.user, Some(s.scheduler.row.id), x.invoice,
                    if charge.Succeeded? then Paid else if charge.Refused? then Failed else Unpaid,
                    x.recurring, x.created))
      else None
    case StartCleaning =>
      if x.sub.Some? && (x.sub.value in s.subs ==> Abandoned(s, x.sub.value))
      then Some(Pay(x.user, None, x.invoice, x.status, x.recurring, x.created)) else None
    case DeleteUser(u) =>
      if x.sub.Some? && (x.sub.value in s.subs ==> s.subs[x.sub.value].user == u)
      then Some(Pay(x.user, None, x.invoice, x.status, x.recurring, x.created)) else None
    case _ => None
  }

  /** The step deletes what the item holds. */
  ghost predicate Deletes(s: State, e: Step, item: Item) {
    match item
    case UserPlan(u) => e == DeleteUser(u)
    case SubRow(k) =>
      && k in s.subs
      && ((e.DeleteUser? && s.subs[k].user == e.user) || (e.StartCleaning? && Abandoned(s, k)))
    case PayRow(p) =>
      && p in s.pays
      && ((e.DeleteUser? && s.pays[p].user == e.user)
          || (e.FinishCleaning? && s.scheduler.Cleaning? && s.pays[p].status == Unpaid
              && s.pays[p].created < s.scheduler.cutoff))
  }

  /** What the step writes into the item, if it does. */
  ghost function Writes(s: State, e: Step, item: Item): Option<Value> {
    match item
    case UserPlan(u) =>
      if (u in s.users || e.AddUser?) && PlanSet(s, e, u).Some? then Some(IsPlan(PlanSet(s, e, u).value)) else None
    case SubRow(k) =>
      if k in s.subs && SubSet(s, e, k).Some? then Some(IsSub(SubSet(s, e, k).value))
      else if Orders(s, e) && k == s.nextSub
      then Some(IsSub(Sub(e.user, e.plan, None, Pending, e.recurring, None, None, None, s.now)))
      else None
    case PayRow(p) =>
      if p in s.pays && PaySet(s, e, p).Some? then Some(IsPay(PaySet(s, e, p).value))
      else if Orders(s, e) && p == s.nextPay
      then Some(IsPay(Pay(e.user, Some(s.nextSub), e.invoice, Unpaid, e.recurring, s.now)))
      else if Charges(s, e) && p == s.nextPay then
        var row := s.scheduler.todo[0];
        Some(IsPay(Pay(row.sub.user, Some(row.id), e.invoice, Unpaid, true, s.now)))
      else None
  }

  /** What the item holds after a step, when it held `before`. */
  ghost function After(s: State, e: Step, item: Item, before: Option<Value>): Option<Value> {
    if Deletes(s, e, item) then None
    else if Writes(s, e, item).Some? then Writes(s, e, item)
    else before
  }

  predicate InLoop(e: Step) {
    e.ExpireNext? || e.RenewNext? || e.Settle? || e.ChangeNext?
  }

  lemma PlanAfterStep(s: State, e: Step, user: int)
    requires Enabled(s, e)
    ensures Holds(Next(s, e), UserPlan(user)) == After(s, e, UserPlan(user), Holds(s, UserPlan(user)))
  {
  }

  lemma SubAfterRequest(s: State, e: Step, k: SubId)
    requires Enabled(s, e) && (e.Cancel? || e.ChangePlan? || e.AdminCancel? || e.AdminExtend?)
    ensures Holds(Next(s, e), SubRow(k)) == After(s, e, SubRow(k), Holds(s, SubRow(k)))
  {
  }

  lemma SubAfterLoop(s: State, e: Step, k: SubId)
    requires Enabled(s, e) && InLoop(e)
    ensures Holds(Next(s, e), SubRow(k)) == After(s, e, SubRow(k), Holds(s, SubRow(k)))
  {
  }

  lemma SubAfterCleaning(s: State, k: SubId)
    requires Enabled(s, StartCleaning)
    ensures Holds(Next(s, StartCleaning), SubRow(k)) == After(s, StartCleaning, SubRow(k), Holds(s, SubRow(k)))
  {
  }

  lemma SubAfterSale(s: State, e: Step, k: SubId)
    requires s.nextSub !in s.subs && Enabled(s, e) && (e.Checkout? || e.PaymentSucceeded?)
    ensures Holds(Next(s, e), SubRow(k)) == After(s, e, SubRow(k), Holds(s, SubRow(k)))
  {
  }

  lemma SubAfterOther(s: State, e: Step, k: SubId)
    requires Enabled(s, e) && !InLoop(e) && !e.StartCleaning? && !e.Checkout? && !e.PaymentSucceeded?
    requires !(e.Cancel? || e.ChangePlan? || e.AdminCancel? || e.AdminExtend?)
    ensures Holds(Next(s, e), SubRow(k)) == After(s, e, SubRow(k), Holds(s, SubRow(k)))
  {
  }

  lemma PayAfterLoop(s: State, e: Step, p: PayId)
    requires s.nextPay !in s.pays && Enabled(s, e) && InLoop(e)
    ensures Holds(Next(s, e), PayRow(p)) == After(s, e, PayRow(p), Holds(s, PayRow(p)))
  {
  }

  lemma PayAfterCleaning(s: State, e: Step, p: PayId)
    requires Enabled(s, e) && (e.StartCleaning? || e.FinishCleaning?)
    ensures Holds(Next(s, e), PayRow(p)) == After(s, e, PayRow(p), Holds(s, PayRow(p)))
  {
  }

  lemma PayAfterSale(s: State, e: Step, p: PayId)
    requires s.nextPay !in s.pays && Enabled(s, e) && (e.Checkout? || e.PaymentSucceeded?)
    ensures Holds(Next(s, e), PayRow(p)) == After(s, e, PayRow(p), Holds(s, PayRow(p)))
  {
  }

  lemma PayAfterOther(s: State, e: Step, p: PayId)
    requires Enabled(s, e) && !InLoop(e) && !e.StartCleaning? && !e.FinishCleaning?
    requires !e.Checkout? && !e.PaymentSucceeded?
    ensures Holds(Next(s, e), PayRow(p)) == After(s, e, PayRow(p), Holds(s, PayRow(p)))
  {
  }

  lemma ItemAfterStep(s: State, e: Step, item: Item)
    requires Inv(s) && Enabled(s, e)
    ensures Holds(Next(s, e), item) == After(s, e, item, Holds(s, item))
  {
    match item
    case UserPlan(user) => PlanAfterStep(s, e, user);
    case SubRow(k) =>
      if InLoop(e) {
        SubAfterLoop(s, e, k);
      } else if e.StartCleaning? {
        SubAfterCleaning(s, k);
      } else if e.Cancel? || e.ChangePlan? || e.AdminCancel? || e.AdminExtend? {
        SubAfterRequest(s, e, k);
      } else if e.Checkout? || e.PaymentSucceeded? {
        SubAfterSale(s, e, k);
      } else {
        SubAfterOther(s, e, k);
      }
    case PayRow(p) =>
      if InLoop(e) {
        PayAfterLoop(s, e, p);
      } else if e.StartCleaning? || e.FinishCleaning? {
        PayAfterCleaning(s, e, p);
      } else if e.Checkout? || e.PaymentSucceeded? {
        PayAfterSale(s, e, p);
      } else {
        PayAfterOther(s, e, p);
      }
  }

  // ------------------------------------------------------------ over whole runs

  /** What the steps of the run make of the item, one after another. */
  ghost function AfterAll(s: State, run: seq<Step>, item: Item, before: Option<Value>): Option<Value>
    requires Legal(s, run)
    decreases run
  {
    if run == [] then before
    else AfterAll(Next(s, run[0]), run[1..], item, After(s, run[0], item, before))
  }

  /** Every plan, subscription and payment is what the last step that wrote it wrote, unless a later
      one deleted it. */
  lemma {:induction false} TablesFromHistory(s: State, run: seq<Step>, item: Item)
    requires Inv(s) && Legal(s, run)
    ensures Holds(Final(s, run), item) == AfterAll(s, run, item, Holds(s, item))
    decreases run
  {
    if run != [] {
      ItemAfterStep(s, run[0], item);
      StepKeeps(s, run[0]);
      TablesFromHistory(Next(s, run[0]), run[1..], item);
    }
  }

  /** The clock moves by Tick only; the autopayments logged are those that succeeded. */
  lemma ClockAndLog(s: State, e: Step)
    requires Enabled(s, e)
    ensures Next(s, e).now == s.now + if e.Tick? then e.delta else 0
    ensures Next(s, e).log ==
              s.log + if e.Settle? && e.charge.Succeeded? then [Renewal(s.scheduler.row.id, s.now)] else []
  {
  }

  /** The loops of a check come one after another, and each takes its rows in turn. */
  lemma ChecksInOrder(s: State, e: Step)
    requires Enabled(s, e)
    ensures var sch := s.scheduler;
            Next(s, e).scheduler ==
              match e
              case FetchExpired(rows) => Expiring(rows)
              case ExpireNext(_) => Expiring(sch.todo[1..])
              case FetchExpiring(rows) => Renewing(rows)
              case RenewNext(_, _) =>
                if Charges(s, e) then Charging(sch.todo[0], s.nextPay, sch.todo[1..]) else Renewing(sch.todo[1..])
              case Settle(_) => Renewing(sch.todo)
              case FetchChanging(rows) => Changing(rows)
              case ChangeNext(_) => Changing(sch.todo[1..])
              case StartCleaning => Cleaning(s.now - 24 * 3600)
              case FinishCleaning => Resting
              case Restart => Resting
              case _ => sch
  {
  }

  // ------------------------------------------------------------------ expiry

  /** A row of the expiry loop that is not skipped: the subscription, if it is still there, is over;
      its owner, if there is one, is on the default plan; everyone else keeps plan and subscription. */
  lemma ExpiryDowngrades(s: State, free: int, user: int, k: SubId)
    requires Enabled(s, ExpireNext(Some(free)))
    ensures var t, row := Next(s, ExpireNext(Some(free))), s.scheduler.todo[0];
            var ends := row.sub.status != Active || !row.sub.recurring;
            && (user in t.users <==> user in s.users) && (k in t.subs <==> k in s.subs)
            && (user in s.users ==> t.users[user] == if ends && user == row.sub.user then free else s.users[user])
            && (k in s.subs ==> if ends && k == row.id then t.subs[k].status == Expired else t.subs[k] == s.subs[k])
  {
    PlanAfterStep(s, ExpireNext(Some(free)), user);
    SubAfterLoop(s, ExpireNext(Some(free)), k);
  }

  // -------------------------------------------------- what becomes of a payment

  ghost predicate OldCutoff(s: State) {
    s.scheduler.Cleaning? ==> s.scheduler.cutoff <= s.now - 24 * 3600
  }

  lemma StepKeepsCutoff(s: State, e: Step)
    requires OldCutoff(s) && Enabled(s, e)
    ensures OldCutoff(Next(s, e))
  {
    ClockAndLog(s, e);
    ChecksInOrder(s, e);
  }

  lemma {:induction false} RunKeepsCutoff(s: State, run: seq<Step>)
    requires OldCutoff(s) && Legal(s, run)
    ensures OldCutoff(Final(s, run))
    decreases run
  {
    if run != [] {
      StepKeepsCutoff(s, run[0]);
      RunKeepsCutoff(Next(s, run[0]), run[1..]);
    }
  }

  lemma LeavesIff(s: State, e: Step, p: PayId, t: State)
    requires p in s.pays && Holds(t, PayRow(p)) == After(s, e, PayRow(p), Holds(s, PayRow(p)))
    requires e.FinishCleaning? ==> s.scheduler.Cleaning?
    ensures p !in t.pays <==>
              || e == DeleteUser(s.pays[p].user)
              || (e == FinishCleaning && s.pays[p].status == Unpaid && s.pays[p].created < s.scheduler.cutoff)
  {
  }

  /** In every reachable state: a payment disappears with its user, or in a cleanup that finds it
      pending and more than a day old. Nothing else removes one. */
  lemma PaymentsLeaveIff(run: seq<Step>, e: Step, p: PayId)
    requires Legal(INIT, run) && Enabled(Final(INIT, run), e) && p in Final(INIT, run).pays
    ensures var s := Final(INIT, run);
            && (p !in Next(s, e).pays <==>
                  || e == DeleteUser(s.pays[p].user)
                  || (e == FinishCleaning && s.pays[p].status == Unpaid && s.pays[p].created < s.scheduler.cutoff))
            && (e == FinishCleaning ==> s.scheduler.cutoff <= s.now - 24 * 3600)
  {
    var s := Final(INIT, run);
    RunKeeps(INIT, run);
    RunKeepsCutoff(INIT, run);
    ItemAfterStep(s, e, PayRow(p));
    LeavesIff(s, e, p, Next(s, e));
  }

  predicate Settled(s: State, p: PayId) {
    p in s.pays && (s.pays[p].status == Paid || s.pays[p].status == Failed)
  }

  /** The provider accepts an autopayment that a webhook has settled meanwhile: the scheduler, which
      holds the row it made, stores it as pending again. */
  predicate Reopens(s: State, e: Step, p: PayId) {
    e == Settle(Accepted) && s.scheduler.Charging? && s.scheduler.pay == p && s.scheduler.row.id in s.subs
  }

  lemma SettledAfter(s: State, e: Step, p: PayId, t: State)
    requires p != s.nextPay && Settled(s, p) && Holds(t, PayRow(p)) == After(s, e, PayRow(p), Holds(s, PayRow(p)))
    ensures Settled(t, p) <==> e != DeleteUser(s.pays[p].user) && !Reopens(s, e, p)
    ensures p in t.pays ==> t.pays[p].user == s.pays[p].user
  {
  }

  lemma SettledStep(s: State, e: Step, p: PayId)
    requires Inv(s) && Enabled(s, e) && Settled(s, p)
    ensures Settled(Next(s, e), p) <==> e != DeleteUser(s.pays[p].user) && !Reopens(s, e, p)
    ensures p in Next(s, e).pays ==> Next(s, e).pays[p].user == s.pays[p].user
  {
    ItemAfterStep(s, e, PayRow(p));
    SettledAfter(s, e, p, Next(s, e));
  }

  /** Payment p stays paid or failed all along the run. */
  ghost predicate AlwaysSettled(s: State, run: seq<Step>, p: PayId)
    requires Legal(s, run)
    decreases run
  {
    Settled(s, p) && (run != [] ==> AlwaysSettled(Next(s, run[0]), run[1..], p))
  }

  /** No step deletes the user or reopens payment p. */
  ghost predicate NothingReopens(s: State, run: seq<Step>, user: int, p: PayId)
    requires Legal(s, run)
    decreases run
  {
    run != [] ==>
      run[0] != DeleteUser(user) && !Reopens(s, run[0], p) && NothingReopens(Next(s, run[0]), run[1..], user, p)
  }

  /** A paid or failed payment stays in the table as such over every run that neither deletes its user
      nor has the scheduler store it as pending again, and over no other. */
  lemma {:induction false} SettledStaysIff(s: State, run: seq<Step>, p: PayId)
    requires Inv(s) && Legal(s, run) && Settled(s, p)
    ensures AlwaysSettled(s, run, p) <==> NothingReopens(s, run, s.pays[p].user, p)
    decreases run
  {
    if run != [] {
      var t := Next(s, run[0]);
      SettledStep(s, run[0], p);
      StepKeeps(s, run[0]);
      if Settled(t, p) {
        SettledStaysIff(t, run[1..], p);
      }
    }
  }

  /** It happens whenever the webhook comes before the provider's answer to the request itself. */
  lemma PaidIsReopened(s: State, month: Time)
    requires s.scheduler.Charging? && s.scheduler.pay in s.pays && s.scheduler.row.id in s.subs && IsMonth(month)
    ensures var p, paid := s.scheduler.pay, PaymentSucceeded(Some(s.scheduler.pay), None, month);
            && Enabled(s, paid) && Settled(Next(s, paid), p)
            && Enabled(Next(s, paid), Settle(Accepted)) && p in Next(Next(s, paid), Settle(Accepted)).pays
            && Next(Next(s, paid), Settle(Accepted)).pays[p].status == Unpaid
  {
  }
}
