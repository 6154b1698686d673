/** Exactly which changes of a subscription the scheduler undoes: it stores whole rows, and it may
    have read them before the change (internal/scheduler/scheduler.go:139-159, 250-350, 383-418). */
module BillingRaces {
  import opened Billing
  import opened BillingInvariants
  import opened BillingRuns
  import opened Wrappers

  /** The row that a step of the scheduler stores, as it was read. */
  function Stored(s: State, e: Step): Option<Row> {
    match e
    case ExpireNext(_) =>
      if s.scheduler.Expiring? && s.scheduler.todo != []
         && !(s.scheduler.todo[0].sub.recurring && s.scheduler.todo[0].sub.status.Active?)
      then Some(s.scheduler.todo[0]) else None
    case Settle(charge) => if s.scheduler.Charging? && charge.Succeeded? then Some(s.scheduler.row) else None
    case ChangeNext(found) =>
      if s.scheduler.Changing? && s.scheduler.todo != [] && found && s.scheduler.todo[0].sub.nextPlan.Some?
      then Some(s.scheduler.todo[0]) else None
    case _ => None
  }

  /** The step stores a row of k that is not the one in the table: what was stored there since the
      row was read is undone. */
  predicate Undoes(s: State, e: Step, k: SubId) {
    var row := Stored(s, e);
    row.Some? && row.value.id == k && k in s.subs && row.value.sub != s.subs[k]
  }

  /** A step of the scheduler, or a call that leaves k alone. */
  ghost predicate LeavesToScheduler(s: State, e: Step, k: SubId)
    requires Enabled(s, e)
  {
    OfScheduler(e) || (k in Next(s, e).subs && At(s.subs, k) == Some(Next(s, e).subs[k]))
  }

  function At<K, V>(m: map<K, V>, k: K): Option<V> {
    if k in m then Some(m[k]) else None
  }

  /** Row r of the scheduler is what the table has, or of another subscription. */
  predicate UpToDate(s: State, k: SubId, r: Row) {
    r.id == k && k in s.subs ==> r.sub == s.subs[k]
  }

  /** No row of k in the scheduler differs from the table's. */
  ghost predicate Fresh(s: State, k: SubId) {
    forall row :: row in RowsOf(s.scheduler) ==> UpToDate(s, k, row)
  }

  // ------------------------------------------------------------------- single steps

  predicate Fetches(e: Step) {
    e.FetchExpired? || e.FetchExpiring? || e.FetchChanging?
  }

  predicate InLoop(e: Step) {
    e.ExpireNext? || e.RenewNext? || e.Settle? || e.ChangeNext?
  }

  /** A loop takes its first row out, and stores nothing but that row's subscription. */
  ghost predicate Looped(s: State, e: Step, t: State, k: SubId) {
    var rows := RowsOf(s.scheduler);
    && rows != [] && (RowsOf(t.scheduler) == rows[1..] || RowsOf(t.scheduler) == rows)
    && (Stored(s, e).Some? ==> Stored(s, e).value == rows[0] && RowsOf(t.scheduler) == rows[1..])
    && (k in t.subs <==> k in s.subs)
    && (k in s.subs && (Stored(s, e).None? || rows[0].id != k) ==> t.subs[k] == s.subs[k])
  }

  lemma LoopStep(s: State, e: Step, k: SubId)
    requires Enabled(s, e) && InLoop(e)
    ensures Looped(s, e, Next(s, e), k)
  {
  }

  /** Every other step empties the scheduler, leaves its rows alone, or reads them afresh. */
  lemma OtherStep(s: State, e: Step, k: SubId)
    requires Enabled(s, e) && !InLoop(e) && LeavesToScheduler(s, e, k)
    ensures var t := Next(s, e);
            && Stored(s, e).None?
            && (Fetches(e) ==> RowsOf(s.scheduler) == [] && t.subs == s.subs && Fresh(t, k))
            && (Fetches(e) || RowsOf(t.scheduler) == [] ||
                (RowsOf(t.scheduler) == RowsOf(s.scheduler) && k in s.subs && k in t.subs && t.subs[k] == s.subs[k]))
            && (k in t.subs && k in s.subs ==> t.subs[k] == s.subs[k]) && (k in t.subs ==> k in s.subs)
  {
  }

  /** What is up to date stays so, and undoes nothing. */
  lemma FreshStays(s: State, e: Step, k: SubId)
    requires Enabled(s, e) && DistinctRows(s) && Fresh(s, k) && LeavesToScheduler(s, e, k)
    ensures Fresh(Next(s, e), k) && !Undoes(s, e, k)
  {
    if InLoop(e) {
      LoopStep(s, e, k);
      FreshAfterLoop(s, e, Next(s, e), k);
    } else {
      OtherStep(s, e, k);
      forall row | row in RowsOf(Next(s, e).scheduler) ensures UpToDate(Next(s, e), k, row) {
        assert row in RowsOf(s.scheduler) ==> UpToDate(s, k, row);
        assert Fetches(e) ==> UpToDate(Next(s, e), k, row);
      }
    }
  }

  /** The scheduler holds one row of a subscription at most. */
  ghost predicate DistinctRows(s: State) {
    var rows := RowsOf(s.scheduler);
    forall i, j :: 0 <= i < j < |rows| ==> rows[i].id != rows[j].id
  }

  lemma FreshAfterLoop(s: State, e: Step, t: State, k: SubId)
    requires Looped(s, e, t, k) && DistinctRows(s) && Fresh(s, k)
    ensures Fresh(t, k) && !Undoes(s, e, k)
  {
    var rows := RowsOf(s.scheduler);
    assert UpToDate(s, k, rows[0]);
    forall row | row in RowsOf(t.scheduler) ensures UpToDate(t, k, row) {
      var i :| 0 <= i < |rows| && rows[i] == row && (RowsOf(t.scheduler) == rows[1..] ==> i > 0);
      assert UpToDate(s, k, row);
    }
  }

  /** Row r is about k, and k has been changed since it was read. */
  predicate Outdated(s: State, k: SubId, r: Row) {
    r in RowsOf(s.scheduler) && r.id == k && k in s.subs && r.sub != s.subs[k]
  }

  /** An outdated row waits, is stored, or is dropped; only when it is stored is anything undone. */
  lemma OutdatedStep(s: State, e: Step, k: SubId, r: Row)
    requires Enabled(s, e) && DistinctRows(s) && Outdated(s, k, r) && LeavesToScheduler(s, e, k)
    ensures Undoes(s, e, k) <==> Stored(s, e) == Some(r)
    ensures r in RowsOf(Next(s, e).scheduler) ==> Stored(s, e) != Some(r) && Outdated(Next(s, e), k, r)
    ensures r !in RowsOf(Next(s, e).scheduler) ==> Fresh(Next(s, e), k)
  {
    if InLoop(e) {
      LoopStep(s, e, k);
      OutdatedLoop(s, e, Next(s, e), k, r);
    } else {
      OtherStep(s, e, k);
    }
  }

  lemma OutdatedLoop(s: State, e: Step, t: State, k: SubId, r: Row)
    requires Looped(s, e, t, k) && DistinctRows(s) && Outdated(s, k, r)
    ensures Undoes(s, e, k) <==> Stored(s, e) == Some(r)
    ensures r in RowsOf(t.scheduler) ==> Stored(s, e) != Some(r) && Outdated(t, k, r)
    ensures r !in RowsOf(t.scheduler) ==> Fresh(t, k)
  {
    var rows := RowsOf(s.scheduler);
    var i :| 0 <= i < |rows| && rows[i] == r;
    assert forall j :: 0 <= j < |rows| && rows[j].id == k ==> j == i;
    assert i > 0 ==> rows[1..][i - 1] == r;
  }

  // ------------------------------------------------------------------------- runs

  /** No call of the run changes k. */
  ghost predicate LeftToScheduler(s: State, run: seq<Step>, k: SubId)
    requires Legal(s, run)
    decreases run
  {
    run == [] || (LeavesToScheduler(s, run[0], k) && LeftToScheduler(Next(s, run[0]), run[1..], k))
  }

  /** Some step of the run undoes what was stored for k. */
  ghost predicate UndoneIn(s: State, run: seq<Step>, k: SubId)
    requires Legal(s, run)
    decreases run
  {
    run != [] && (Undoes(s, run[0], k) || UndoneIn(Next(s, run[0]), run[1..], k))
  }

  /** The round of row r reaches its write: the row waits in the scheduler until it is stored. */
  ghost predicate Reaches(s: State, run: seq<Step>, r: Row)
    requires Legal(s, run)
    decreases run
  {
    && run != []
    && (Stored(s, run[0]) == Some(r)
        || (r in RowsOf(Next(s, run[0]).scheduler) && Reaches(Next(s, run[0]), run[1..], r)))
  }

  lemma {:induction false} FreshIsNotUndone(s: State, run: seq<Step>, k: SubId)
    requires Inv(s) && Legal(s, run) && LeftToScheduler(s, run, k) && Fresh(s, k)
    ensures !UndoneIn(s, run, k)
    decreases run
  {
    if run != [] {
      StepKeeps(s, run[0]);
      FreshStays(s, run[0], k);
      FreshIsNotUndone(Next(s, run[0]), run[1..], k);
    }
  }

  lemma {:induction false} OutdatedIsUndone(s: State, run: seq<Step>, k: SubId, r: Row)
    requires Inv(s) && Legal(s, run) && LeftToScheduler(s, run, k) && Outdated(s, k, r)
    ensures UndoneIn(s, run, k) <==> Reaches(s, run, r)
    decreases run
  {
    if run != [] {
      var t := Next(s, run[0]);
      StepKeeps(s, run[0]);
      OutdatedStep(s, run[0], k, r);
      if r in RowsOf(t.scheduler) {
        OutdatedIsUndone(t, run[1..], k, r);
      } else {
        FreshIsNotUndone(t, run[1..], k);
      }
    }
  }

  lemma OneRow(s: State, k: SubId, r: Row, q: Row)
    requires DistinctRows(s) && Outdated(s, k, r) && Outdated(s, k, q)
    ensures r == q
  {
  }

  /** In every reachable state, for every later run in which no call changes subscription k: the
      scheduler undoes what is stored for k exactly when it holds a row of k that was read before and
      the round of that row reaches its write. */
  lemma ChangeIsUndoneIff(before: seq<Step>, run: seq<Step>, k: SubId)
    requires Legal(INIT, before) && Legal(Final(INIT, before), run) && LeftToScheduler(Final(INIT, before), run, k)
    ensures var s := Final(INIT, before);
            UndoneIn(s, run, k) <==> exists r :: Outdated(s, k, r) && Reaches(s, run, r)
  {
    var s := Final(INIT, before);
    RunKeeps(INIT, before);
    if r :| Outdated(s, k, r) {
      OutdatedIsUndone(s, run, k, r);
      forall q | Outdated(s, k, q) ensures q == r { OneRow(s, k, r, q); }
    } else {
      forall row | row in RowsOf(s.scheduler) ensures UpToDate(s, k, row) {
        assert !Outdated(s, k, row);
      }
      FreshIsNotUndone(s, run, k);
    }
  }

  /** What is left then: a renewal makes the subscription active again, whatever cancelled it; the
      other two loops store the period that was read, whatever extended it, and the expiry loop ends
      it. */
  lemma UndoneMeans(s: State, e: Step, k: SubId)
    requires Enabled(s, e) && Undoes(s, e, k)
    ensures k in Next(s, e).subs
    ensures var sub, read := Next(s, e).subs[k], Stored(s, e).value.sub;
            && (e.Settle? ==> sub.status.Active? && sub.start == Some(s.now) && sub.recurring == read.recurring)
            && (!e.Settle? ==> sub.start == read.start && sub.end == read.end)
            && (e.ExpireNext? ==> sub.status.Expired?) && (e.ChangeNext? ==> sub.status == read.status)
  {
  }

  // -------------------------------------------------- a cancellation during a renewal

  const PLANNED := Sub(1, 7, None, Active, true, Some(0), Some(30 * DAY), Some("card"), 0)
  const DUE: Time := 30 * DAY - HOUR
  const PAID := Pay(1, Some(0), 100001, Paid, true, 0)
  const CHARGED := Pay(1, Some(0), 100002, Unpaid, true, DUE)

  /** User 1 with subscription 0 when its first payment is made, and when its renewal is due. */
  function Bought(now: Time, sch: Scheduler): State {
    State(now, map[1 := 7], map[0 := PLANNED], map[0 := PAID], 1, 1, sch, [])
  }

  function Charged(sub: Sub): State {
    State(DUE, map[1 := 7], map[0 := sub], map[0 := PAID][1 := CHARGED], 1, 2, Charging(Row(0, PLANNED), 1, []), [])
  }

  lemma Buys() returns (run: seq<Step>)
    ensures Leads(INIT, run, Bought(0, Resting))
  {
    var a, b := AddUser(1, 0), Checkout(1, 7, true, true, None, 100001);
    var c := PaymentSucceeded(Some(0), Some("card"), 30 * DAY);
    var s := State(0, map[1 := 0], map[], map[], 0, 0, Resting, []);
    var order := Sub(1, 7, None, Pending, true, None, None, None, 0);
    var t := State(0, map[1 := 0], map[0 := order], map[0 := PAID.(status := Unpaid)], 1, 1, Resting, []);
    LeadsOne(INIT, a);
    assert Next(INIT, a) == s;
    LeadsMore(INIT, [a], s, b);
    assert Next(s, b) == t;
    LeadsMore(INIT, [a] + [b], t, c);
    assert Next(t, c) == Bought(0, Resting);
    run := [a] + [b] + [c];
  }

  lemma ComesDue(run: seq<Step>) returns (longer: seq<Step>)
    requires Leads(INIT, run, Bought(0, Resting))
    ensures Leads(INIT, longer, Bought(DUE, Renewing([Row(0, PLANNED)])))
  {
    LeadsMore(INIT, run, Bought(0, Resting), Tick(DUE));
    assert Next(Bought(0, Resting), Tick(DUE)) == Bought(DUE, Resting);
    longer := run + [Tick(DUE)];
    LeadsMore(INIT, longer, Bought(DUE, Resting), FetchExpired([]));
    longer := longer + [FetchExpired([])];
    LeadsMore(INIT, longer, Bought(DUE, Expiring([])), FetchExpiring([Row(0, PLANNED)]));
    longer := longer + [FetchExpiring([Row(0, PLANNED)])];
  }

  lemma IsCharged(run: seq<Step>) returns (longer: seq<Step>)
    requires Leads(INIT, run, Bought(DUE, Renewing([Row(0, PLANNED)])))
    ensures Leads(INIT, longer, Charged(PLANNED))
  {
    var s, e := Bought(DUE, Renewing([Row(0, PLANNED)])), RenewNext(Some(5), 100002);
    assert 0 in s.pays && s.pays[0].invoice + 1 == 100002;
    LeadsMore(INIT, run, s, e);
    assert [Row(0, PLANNED)][1..] == [];
    assert Next(s, e) == Charged(PLANNED);
    longer := run + [e];
  }

  /** It happens: a subscription that is cancelled while its renewal is being charged is active again
      when the provider has answered. */
  lemma CancellationIsUndone(month: Time) returns (run: seq<Step>, s: State)
    requires IsMonth(month)
    ensures Leads(INIT, run, s) && 0 in s.subs && s.subs[0].status.Cancelled?
    ensures Enabled(s, Settle(Succeeded(None, month))) && Undoes(s, Settle(Succeeded(None, month)), 0)
    ensures Next(s, Settle(Succeeded(None, month))).subs[0].status.Active?
  {
    run := Buys();
    run := ComesDue(run);
    run := IsCharged(run);
    s := Charged(PLANNED.(status := Cancelled, recurring := false, cardId := None));
    LeadsMore(INIT, run, Charged(PLANNED), Cancel(1, Some(0)));
    assert Next(Charged(PLANNED), Cancel(1, Some(0))) == s;
    run := run + [Cancel(1, Some(0))];
  }
}
