/** What a cleanup removes, and a run in which one invoice number pays for two customers. */
module BillingCalls {
  import opened Billing
  import opened BillingRuns
  import opened Wrappers

  // --------------------------------------------------------------------- the cleanup

  lemma CleanedPayments(s: State)
    requires Enabled(s, StartCleaning)
    ensures var t := Next(Next(s, StartCleaning), FinishCleaning);
            && (forall p :: p in t.pays <==>
                  p in s.pays && (s.pays[p].status != Unpaid || s.pays[p].created >= s.now - 24 * 3600))
            && (forall p :: p in t.pays ==>
                  && t.pays[p].status == s.pays[p].status && t.pays[p].user == s.pays[p].user
                  && t.pays[p].invoice == s.pays[p].invoice)
  {
  }

  lemma CleanedSubs(s: State)
    requires Enabled(s, StartCleaning)
    ensures var t := Next(Next(s, StartCleaning), FinishCleaning);
            && (forall k :: k in t.subs ==> k in s.subs && t.subs[k] == s.subs[k])
            && (forall k :: k in s.subs ==>
                  (k !in t.subs <==>
                     && s.subs[k].status == Pending
                     && exists p :: p in s.pays && s.pays[p].sub == Some(k)
                                    && s.pays[p].status == Unpaid && s.pays[p].created < s.now - 24 * 3600))
  {
  }

  /** The cleanup deletes the payments that have been pending for more than a day, with the pending
      subscriptions they are for, and nothing else; payments keep their status, number and user. */
  lemma CleanupIsExact(s: State)
    requires Enabled(s, StartCleaning)
    ensures var t := Next(Next(s, StartCleaning), FinishCleaning);
            && (forall p :: p in t.pays <==>
                  p in s.pays && (s.pays[p].status != Unpaid || s.pays[p].created >= s.now - 24 * 3600))
            && (forall p :: p in t.pays ==>
                  && t.pays[p].status == s.pays[p].status && t.pays[p].user == s.pays[p].user
                  && t.pays[p].invoice == s.pays[p].invoice)
            && (forall k :: k in t.subs ==> k in s.subs && t.subs[k] == s.subs[k])
            && (forall k :: k in s.subs ==>
                  (k !in t.subs <==>
                     && s.subs[k].status == Pending
                     && exists p :: p in s.pays && s.pays[p].sub == Some(k) && p !in t.pays))
  {
    CleanedPayments(s);
    CleanedSubs(s);
  }

  // ----------------------------------------------- one number for two customers

  /** Users 1 and 2, with these rows, at some points of a run. */
  function Shop(now: Time, users: map<int, int>, subs: map<SubId, Sub>, pays: map<PayId, Pay>, next: nat,
                scheduler: Scheduler): State {
    State(now, users, subs, pays, next, next, scheduler, [])
  }

  const BOTH := map[1 := 0, 2 := 0]
  const ORDER1 := map[0 := Sub(1, 7, None, Pending, false, None, None, None, 0)]
  const BILL1 := map[0 := Pay(1, Some(0), 100001, Unpaid, false, 0)]
  const LATE: Time := DAY + 1
  const ORDER2 := map[1 := Sub(2, 9, None, Pending, false, None, None, None, LATE)]
  const BILL2 := map[1 := Pay(2, Some(1), 100001, Unpaid, false, LATE)]

  lemma FirstOrder()
    ensures Leads(INIT, [AddUser(1, 0), AddUser(2, 0)], Shop(0, BOTH, map[], map[], 0, Resting))
    ensures Leads(Shop(0, BOTH, map[], map[], 0, Resting), [Checkout(1, 7, false, true, None, 100001)],
                    Shop(0, BOTH, ORDER1, BILL1, 1, Resting))
  {
    var s := Shop(0, map[1 := 0], map[], map[], 0, Resting);
    LeadsOne(INIT, AddUser(1, 0));
    assert Next(INIT, AddUser(1, 0)) == s;
    LeadsMore(INIT, [AddUser(1, 0)], s, AddUser(2, 0));
    LeadsOne(Shop(0, BOTH, map[], map[], 0, Resting), Checkout(1, 7, false, true, None, 100001));
  }

  function Waiting(sch: Scheduler): State {
    Shop(LATE, BOTH, ORDER1, BILL1, 1, sch)
  }

  /** No row of the first order is due for any of the three loops. */
  lemma NothingIsDue()
    ensures Enabled(Waiting(Resting), FetchExpired([]))
    ensures Enabled(Waiting(Expiring([])), FetchExpiring([]))
    ensures Enabled(Waiting(Renewing([])), FetchChanging([]))
  {
  }

  lemma NothingToDo()
    ensures Leads(Shop(0, BOTH, ORDER1, BILL1, 1, Resting), [Tick(LATE)], Waiting(Resting))
    ensures Leads(Waiting(Resting), [FetchExpired([]), FetchExpiring([]), FetchChanging([])], Waiting(Changing([])))
  {
    LeadsOne(Shop(0, BOTH, ORDER1, BILL1, 1, Resting), Tick(LATE));
    FetchesNothing();
    var a, b, c := FetchExpired([]), FetchExpiring([]), FetchChanging([]);
    LeadsOn(Waiting(Resting), [a], Waiting(Expiring([])), [b], Waiting(Renewing([])));
    assert [a] + [b] == [a, b];
    LeadsOn(Waiting(Resting), [a, b], Waiting(Renewing([])), [c], Waiting(Changing([])));
    assert [a, b] + [c] == [a, b, c];
  }

  lemma FetchesNothing()
    ensures Leads(Waiting(Resting), [FetchExpired([])], Waiting(Expiring([])))
    ensures Leads(Waiting(Expiring([])), [FetchExpiring([])], Waiting(Renewing([])))
    ensures Leads(Waiting(Renewing([])), [FetchChanging([])], Waiting(Changing([])))
  {
    NothingIsDue();
    LeadsOne(Waiting(Resting), FetchExpired([]));
    LeadsOne(Waiting(Expiring([])), FetchExpiring([]));
    LeadsOne(Waiting(Renewing([])), FetchChanging([]));
  }

  lemma OrderIsStale()
    ensures DropStaleSubs(Waiting(Changing([])), LATE - DAY)
            == Shop(LATE, BOTH, map[], map[0 := BILL1[0].(sub := None)], 1, Cleaning(1))
  {
    assert Stale(BILL1[0], LATE - DAY) && BILL1[0].sub == Some(0);
    var stale := set p | p in BILL1 && Stale(BILL1[p], LATE - DAY) && BILL1[p].sub.Some? :: BILL1[p].sub.value;
    assert 0 in stale;
    assert DropStaleSubs(Waiting(Changing([])), LATE - DAY).subs == map[];
  }

  lemma FirstOrderIsDropped()
    ensures Leads(Waiting(Changing([])), [StartCleaning, FinishCleaning], Shop(LATE, BOTH, map[], map[], 1, Resting))
  {
    var t := Shop(LATE, BOTH, map[], map[0 := BILL1[0].(sub := None)], 1, Cleaning(1));
    OrderIsStale();
    LeadsOne(Waiting(Changing([])), StartCleaning);
    assert Next(Waiting(Changing([])), StartCleaning) == t;
    assert DropStalePays(t, 1).pays == map[];
    LeadsMore(Waiting(Changing([])), [StartCleaning], t, FinishCleaning);
    assert [StartCleaning] + [FinishCleaning] == [StartCleaning, FinishCleaning];
  }

  lemma SecondOrder()
    ensures Leads(Shop(LATE, BOTH, map[], map[], 1, Resting), [Checkout(2, 9, false, true, None, 100001)],
                    Shop(LATE, BOTH, ORDER2, BILL2, 2, Resting))
  {
    LeadsOne(Shop(LATE, BOTH, map[], map[], 1, Resting), Checkout(2, 9, false, true, None, 100001));
  }

  /** It happens: user 1's checkout lapses, user 2's next one gets its number, and the webhook for
      user 1's late payment, found by that number, pays for user 2. */
  lemma LatePaymentPaysForAnother() returns (before: seq<Step>, after: seq<Step>)
    ensures Legal(INIT, before) && Final(INIT, before).pays == BILL1
    ensures Legal(INIT, before + after) && Final(INIT, before + after).pays == BILL2
    ensures BILL1[0].invoice == BILL2[1].invoice && BILL1[0].user != BILL2[1].user
    ensures Next(Final(INIT, before + after), PaymentSucceeded(Some(1), None, 30 * DAY)).users == map[1 := 0, 2 := 9]
  {
    FirstOrder();
    NothingToDo();
    FirstOrderIsDropped();
    SecondOrder();
    var s0, s1 := Shop(0, BOTH, map[], map[], 0, Resting), Shop(0, BOTH, ORDER1, BILL1, 1, Resting);
    var s2, s3 := Waiting(Resting), Waiting(Changing([]));
    var s4, s5 := Shop(LATE, BOTH, map[], map[], 1, Resting), Shop(LATE, BOTH, ORDER2, BILL2, 2, Resting);
    before := [AddUser(1, 0), AddUser(2, 0)] + [Checkout(1, 7, false, true, None, 100001)];
    LeadsOn(INIT, [AddUser(1, 0), AddUser(2, 0)], s0, [Checkout(1, 7, false, true, None, 100001)], s1);
    after := [Tick(LATE)] + [FetchExpired([]), FetchExpiring([]), FetchChanging([])];
    LeadsOn(s1, [Tick(LATE)], s2, [FetchExpired([]), FetchExpiring([]), FetchChanging([])], s3);
    LeadsOn(s1, after, s3, [StartCleaning, FinishCleaning], s4);
    after := after + [StartCleaning, FinishCleaning];
    LeadsOn(s1, after, s4, [Checkout(2, 9, false, true, None, 100001)], s5);
    after := after + [Checkout(2, 9, false, true, None, 100001)];
    LeadsOn(INIT, before, s1, after, s5);
  }
}
