/** When an invoice number is given out twice: numbers are one more than the greatest in the table
    (internal/database/payment_repo.go:151-164), and the greatest can be deleted. */
module BillingInvoices {
  import opened Billing
  import opened BillingInvariants
  import opened BillingRuns

  const FIRST := 100001

  // ------------------------------------------------------- which steps free a number

  /** Keys are below the counter, numbers start at the first one and are unique. */
  ghost predicate Numbered(s: State) {
    && (forall p :: p in s.pays ==> p < s.nextPay && s.pays[p].invoice >= FIRST)
    && forall p, q :: p in s.pays && q in s.pays && s.pays[p].invoice == s.pays[q].invoice ==> p == q
  }

  /** The step deletes this payment's row. */
  predicate Removes(s: State, e: Step, p: PayId) {
    && p in s.pays
    && match e
       case FinishCleaning =>
         s.scheduler.Cleaning? && s.pays[p].status == Unpaid && s.pays[p].created < s.scheduler.cutoff
       case DeleteUser(user) => s.pays[p].user == user
       case _ => false
  }

  /** The step from s to t makes a payment. */
  predicate Issues(s: State, t: State) {
    s.nextPay in t.pays && s.nextPay !in s.pays
  }

  /** Payments keep their number and user until they are removed; a new one gets the next number,
      and then none is removed. */
  ghost predicate Evolves(s: State, e: Step, t: State) {
    && s.nextPay <= t.nextPay
    && (forall p :: p in s.pays ==> (p in t.pays <==> !Removes(s, e, p)))
    && (forall p :: p in s.pays && p in t.pays ==>
          t.pays[p].invoice == s.pays[p].invoice && t.pays[p].user == s.pays[p].user)
    && (forall p :: p in t.pays && p !in s.pays ==> p == s.nextPay)
    && (Issues(s, t) ==>
          s.nextPay < t.nextPay && IsNextInvoice(s, t.pays[s.nextPay].invoice) && s.pays.Keys <= t.pays.Keys)
  }

  lemma OldPayment(s: State, e: Step, p: PayId)
    requires Numbered(s) && Enabled(s, e) && p in s.pays
    ensures var t := Next(s, e);
            && (p in t.pays <==> !Removes(s, e, p))
            && (p in t.pays ==> t.pays[p].invoice == s.pays[p].invoice && t.pays[p].user == s.pays[p].user)
  {
    if OfScheduler(e) {
      OldPaymentAtCheck(s, e, p);
    } else {
      OldPaymentAtCall(s, e, p);
    }
  }

  lemma OldPaymentAtCheck(s: State, e: Step, p: PayId)
    requires Numbered(s) && Enabled(s, e) && OfScheduler(e) && p in s.pays
    ensures var t := Next(s, e);
            && (p in t.pays <==> !Removes(s, e, p))
            && (p in t.pays ==> t.pays[p].invoice == s.pays[p].invoice && t.pays[p].user == s.pays[p].user)
  {
  }

  lemma OldPaymentAtCall(s: State, e: Step, p: PayId)
    requires Numbered(s) && Enabled(s, e) && !OfScheduler(e) && p in s.pays
    ensures var t := Next(s, e);
            && (p in t.pays <==> !Removes(s, e, p))
            && (p in t.pays ==> t.pays[p].invoice == s.pays[p].invoice && t.pays[p].user == s.pays[p].user)
  {
  }

  lemma NewPayment(s: State, e: Step, p: PayId)
    requires Numbered(s) && Enabled(s, e) && p !in s.pays && p in Next(s, e).pays
    ensures var t := Next(s, e);
            p == s.nextPay && IsNextInvoice(s, t.pays[p].invoice) && s.pays.Keys <= t.pays.Keys
  {
    assert e.Checkout? || e.RenewNext?;
  }

  lemma CounterGrows(s: State, e: Step)
    requires Enabled(s, e)
    ensures s.nextPay <= Next(s, e).nextPay && (Issues(s, Next(s, e)) ==> s.nextPay < Next(s, e).nextPay)
  {
  }

  lemma StepEvolves(s: State, e: Step)
    requires Numbered(s) && Enabled(s, e)
    ensures Evolves(s, e, Next(s, e))
  {
    CounterGrows(s, e);
    forall p
      ensures p in s.pays ==> (p in Next(s, e).pays <==> !Removes(s, e, p))
      ensures p in s.pays && p in Next(s, e).pays ==>
                Next(s, e).pays[p].invoice == s.pays[p].invoice && Next(s, e).pays[p].user == s.pays[p].user
      ensures p in Next(s, e).pays && p !in s.pays ==>
                p == s.nextPay && IsNextInvoice(s, Next(s, e).pays[p].invoice) && s.pays.Keys <= Next(s, e).pays.Keys
    {
      if p in s.pays {
        OldPayment(s, e, p);
      } else if p in Next(s, e).pays {
        NewPayment(s, e, p);
      }
    }
  }

  lemma EvolvesNumbered(s: State, e: Step, t: State)
    requires Numbered(s) && Evolves(s, e, t)
    ensures Numbered(t)
  {
  }

  lemma StepKeepsNumbered(s: State, e: Step)
    requires Numbered(s) && Enabled(s, e)
    ensures var t := Next(s, e); Numbered(t) && s.nextPay <= t.nextPay && (Issues(s, t) ==> s.nextPay < t.nextPay)
  {
    StepEvolves(s, e);
    EvolvesNumbered(s, e, Next(s, e));
  }

  lemma {:induction false} RunKeepsNumbered(s: State, run: seq<Step>)
    requires Numbered(s) && Legal(s, run)
    ensures Numbered(Final(s, run))
    decreases run
  {
    if run != [] {
      StepKeepsNumbered(s, run[0]);
      RunKeepsNumbered(Next(s, run[0]), run[1..]);
    }
  }

  /** A payment with the greatest number. */
  ghost predicate IsTop(s: State, top: PayId) {
    top in s.pays && forall p :: p in s.pays ==> s.pays[p].invoice <= s.pays[top].invoice
  }

  lemma TopAfterStep(s: State, e: Step, t: State, top: PayId, invoice: int)
    requires Numbered(s) && Evolves(s, e, t) && IsTop(s, top) && IsNextInvoice(t, invoice)
    ensures invoice <= s.pays[top].invoice <==> Removes(s, e, top)
  {
    if Removes(s, e, top) && t.pays != map[] {
      var q :| q in t.pays && invoice == t.pays[q].invoice + 1;
      assert q in s.pays && q != top;
    }
  }

  /** In every reachable state, for every step: the next number falls to or below one in use exactly
      when the step deletes the payment with the greatest number, by cleanup or with its user. */
  lemma NumberFallsIffTopRemoved(run: seq<Step>, e: Step, top: PayId, invoice: int)
    requires Legal(INIT, run) && Enabled(Final(INIT, run), e)
    requires IsTop(Final(INIT, run), top) && IsNextInvoice(Next(Final(INIT, run), e), invoice)
    ensures invoice <= Final(INIT, run).pays[top].invoice <==> Removes(Final(INIT, run), e, top)
  {
    var s := Final(INIT, run);
    RunKeepsNumbered(INIT, run);
    StepEvolves(s, e);
    TopAfterStep(s, e, Next(s, e), top, invoice);
  }

  /** In every reachable state the next invoice number after a cleanup is above every number there
      was exactly when the payment with the greatest number is not among the deleted ones. */
  lemma CleanupReusesNumbersIff(run: seq<Step>, s: State, top: PayId, invoice: int)
    requires Leads(INIT, run, s) && Enabled(s, StartCleaning) && IsTop(s, top)
    requires IsNextInvoice(Next(Next(s, StartCleaning), FinishCleaning), invoice)
    ensures (forall p :: p in s.pays ==> s.pays[p].invoice < invoice) <==>
              s.pays[top].status != Unpaid || s.pays[top].created >= s.now - 24 * 3600
  {
    RunKeepsNumbered(INIT, run);
    CleanupIsTwoSteps(s, top, invoice);
  }

  /** Deleting stale subscriptions touches no number. */
  lemma DetachingKeepsTop(s: State, top: PayId)
    requires Enabled(s, StartCleaning) && IsTop(s, top)
    ensures var t := Next(s, StartCleaning);
            && IsTop(t, top) && t.scheduler == Cleaning(s.now - DAY)
            && t.pays[top] == s.pays[top].(sub := t.pays[top].sub)
            && t.pays.Keys == s.pays.Keys && forall p :: p in s.pays ==> t.pays[p].invoice == s.pays[p].invoice
  {
  }

  lemma CleanupIsTwoSteps(s: State, top: PayId, invoice: int)
    requires Numbered(s) && Enabled(s, StartCleaning) && IsTop(s, top)
    requires IsNextInvoice(Next(Next(s, StartCleaning), FinishCleaning), invoice)
    ensures (forall p :: p in s.pays ==> s.pays[p].invoice < invoice) <==>
              s.pays[top].status != Unpaid || s.pays[top].created >= s.now - 24 * 3600
  {
    var t := Next(s, StartCleaning);
    StepEvolves(s, StartCleaning);
    EvolvesNumbered(s, StartCleaning, t);
    DetachingKeepsTop(s, top);
    StepEvolves(t, FinishCleaning);
    TopAfterStep(t, FinishCleaning, Next(t, FinishCleaning), top, invoice);
  }

  // ---------------------------------------------------------------------- whole runs

  /** A payment and the number it was made with. */
  datatype Bill = Bill(pay: PayId, invoice: int)

  function Made(s: State, t: State): seq<Bill> {
    if Issues(s, t) then [Bill(s.nextPay, t.pays[s.nextPay].invoice)] else []
  }

  /** The payments made along a run, in order. */
  ghost function Given(s: State, run: seq<Step>): seq<Bill>
    requires Legal(s, run)
    decreases run
  {
    if run == [] then [] else Made(s, Next(s, run[0])) + Given(Next(s, run[0]), run[1..])
  }

  ghost predicate DropsTop(s: State, e: Step) {
    exists top :: IsTop(s, top) && Removes(s, e, top)
  }

  /** Some step deletes the payment with the greatest number, and a later step makes a payment. */
  ghost predicate DropThenIssue(s: State, run: seq<Step>)
    requires Legal(s, run)
    decreases run
  {
    run != []
      && ((DropsTop(s, run[0]) && Given(Next(s, run[0]), run[1..]) != []) || DropThenIssue(Next(s, run[0]), run[1..]))
  }

  ghost predicate Repeats(bills: seq<Bill>) {
    exists i, j :: 0 <= i < j < |bills| && bills[i].invoice == bills[j].invoice
  }

  /** These bills have the numbers from the first up to `last`, in order. */
  ghost predicate Consecutive(bills: seq<Bill>, last: int) {
    |bills| == last - FIRST + 1 && forall i :: 0 <= i < |bills| ==> bills[i].invoice == FIRST + i
  }

  /** The greatest number in the table is `last`; FIRST - 1 stands for an empty table. */
  ghost predicate TopIs(s: State, last: int) {
    && Numbered(s) && last >= FIRST - 1
    && if last < FIRST then s.pays == map[] else exists top :: IsTop(s, top) && s.pays[top].invoice == last
  }

  ghost predicate AllBelow(s: State, last: int) {
    Numbered(s) && last >= FIRST && forall p :: p in s.pays ==> s.pays[p].invoice < last
  }

  lemma {:induction false} NoDropWithoutIssue(s: State, run: seq<Step>)
    requires Legal(s, run) && DropThenIssue(s, run)
    ensures Given(s, run) != []
    decreases run
  {
    if !(DropsTop(s, run[0]) && Given(Next(s, run[0]), run[1..]) != []) {
      NoDropWithoutIssue(Next(s, run[0]), run[1..]);
    }
  }

  lemma BelowStep(s: State, e: Step, t: State, last: int)
    requires AllBelow(s, last) && Evolves(s, e, t)
    ensures if Issues(s, t) then FIRST <= t.pays[s.nextPay].invoice <= last else AllBelow(t, last)
  {
    EvolvesNumbered(s, e, t);
  }

  /** With every number below `last`, the next payment gets one that is at most `last`. */
  lemma {:induction false} FirstGiven(s: State, run: seq<Step>, last: int)
    requires Legal(s, run) && AllBelow(s, last) && Given(s, run) != []
    ensures FIRST <= Given(s, run)[0].invoice <= last
    decreases run
  {
    var t := Next(s, run[0]);
    StepEvolves(s, run[0]);
    BelowStep(s, run[0], t, last);
    if !Issues(s, t) {
      assert Given(s, run) == Given(t, run[1..]);
      FirstGiven(t, run[1..], last);
    }
  }

  /** A new payment gets the number after the top one, and none is dropped. */
  lemma CountsOn(s: State, e: Step, t: State, last: int)
    requires TopIs(s, last) && Evolves(s, e, t) && Issues(s, t)
    ensures TopIs(t, last + 1) && Made(s, t) == [Bill(s.nextPay, last + 1)] && !DropsTop(s, e)
  {
    EvolvesNumbered(s, e, t);
    assert t.pays[s.nextPay].invoice == last + 1;
    assert IsTop(t, s.nextPay);
  }

  /** A step that neither makes a payment nor drops the top one keeps the top number. */
  lemma TopStays(s: State, e: Step, t: State, last: int)
    requires TopIs(s, last) && Evolves(s, e, t) && !Issues(s, t) && !DropsTop(s, e)
    ensures TopIs(t, last)
  {
    EvolvesNumbered(s, e, t);
    if last >= FIRST {
      var top :| IsTop(s, top) && s.pays[top].invoice == last;
      assert IsTop(t, top);
    }
  }

  /** After the top payment is dropped its number is free, and all others are below it. */
  lemma DropFrees(s: State, e: Step, t: State, last: int)
    requires TopIs(s, last) && Evolves(s, e, t) && DropsTop(s, e)
    ensures !Issues(s, t) && AllBelow(t, last)
  {
    EvolvesNumbered(s, e, t);
  }

  lemma MoreBills(bills: seq<Bill>, last: int, bill: Bill)
    requires Consecutive(bills, last) && bill.invoice == last + 1
    ensures Consecutive(bills + [bill], last + 1)
  {
  }

  lemma NoRepeats(bills: seq<Bill>, last: int)
    requires Consecutive(bills, last)
    ensures !Repeats(bills)
  {
  }

  lemma RepeatsAt(bills: seq<Bill>, last: int, more: seq<Bill>)
    requires Consecutive(bills, last) && more != [] && FIRST <= more[0].invoice <= last
    ensures Repeats(bills + more)
  {
    var all := bills + more;
    assert all[more[0].invoice - FIRST] == bills[more[0].invoice - FIRST] && all[|bills|] == more[0];
  }

  lemma GivenUnfolds(s: State, run: seq<Step>, bills: seq<Bill>)
    requires run != [] && Legal(s, run)
    ensures var t := Next(s, run[0]); bills + Given(s, run) == bills + Made(s, t) + Given(t, run[1..])
  {
  }

  lemma {:induction false} RepeatsIffDropped(s: State, run: seq<Step>, bills: seq<Bill>, last: int)
    requires Legal(s, run) && TopIs(s, last) && Consecutive(bills, last)
    ensures Repeats(bills + Given(s, run)) <==> DropThenIssue(s, run)
    decreases run
  {
    if run == [] {
      NoRepeats(bills, last);
      assert bills + [] == bills;
    } else {
      var t := Next(s, run[0]);
      StepEvolves(s, run[0]);
      GivenUnfolds(s, run, bills);
      if DropsTop(s, run[0]) {
        DropFrees(s, run[0], t, last);
        RepeatsAfterDrop(t, run[1..], bills, last);
        assert bills + Made(s, t) == bills;
      } else if Issues(s, t) {
        CountsOn(s, run[0], t, last);
        MoreBills(bills, last, Made(s, t)[0]);
        RepeatsIffDropped(t, run[1..], bills + Made(s, t), last + 1);
      } else {
        TopStays(s, run[0], t, last);
        RepeatsIffDropped(t, run[1..], bills, last);
        assert bills + Made(s, t) == bills;
      }
    }
  }

  lemma RepeatsAfterDrop(t: State, run: seq<Step>, bills: seq<Bill>, last: int)
    requires Legal(t, run) && AllBelow(t, last) && Consecutive(bills, last)
    ensures Repeats(bills + Given(t, run)) <==> Given(t, run) != []
    ensures DropThenIssue(t, run) ==> Given(t, run) != []
  {
    if Given(t, run) == [] {
      NoRepeats(bills, last);
      assert bills + [] == bills;
    } else {
      FirstGiven(t, run, last);
      RepeatsAt(bills, last, Given(t, run));
    }
    if DropThenIssue(t, run) { NoDropWithoutIssue(t, run); }
  }

  /** Over every run from the start: some number is given to two payments exactly when some step
      deletes the payment with the greatest number and a later step makes a payment. */
  lemma NumberGivenTwiceIff(run: seq<Step>)
    requires Legal(INIT, run)
    ensures Repeats(Given(INIT, run)) <==> DropThenIssue(INIT, run)
  {
    RepeatsIffDropped(INIT, run, [], FIRST - 1);
    assert [] + Given(INIT, run) == Given(INIT, run);
  }

  // ------------------------------------------------------------------ late webhooks

  /** The state after the first i steps. */
  ghost function StateAt(s: State, run: seq<Step>, i: nat): State
    requires Legal(s, run) && i <= |run|
    decreases run
  {
    if i == 0 then s else StateAt(Next(s, run[0]), run[1..], i - 1)
  }

  /** A webhook for payment p of state s that comes in state t, where it is looked up by its number,
      meets payment q. */
  predicate Meets(s: State, t: State, p: PayId, q: PayId) {
    p in s.pays && q in t.pays && t.pays[q].invoice == s.pays[p].invoice
  }

  /** Every payment that is ever in the table was made along the run, with the number it has. */
  lemma {:induction false} PaymentIsGiven(s: State, run: seq<Step>, i: nat, p: PayId)
    requires Legal(s, run) && Numbered(s) && i <= |run| && p in StateAt(s, run, i).pays
    ensures var invoice := StateAt(s, run, i).pays[p].invoice;
            if p < s.nextPay then p in s.pays && invoice == s.pays[p].invoice else Bill(p, invoice) in Given(s, run)
    decreases run
  {
    if i > 0 {
      var t := Next(s, run[0]);
      StepEvolves(s, run[0]);
      EvolvesNumbered(s, run[0], t);
      PaymentIsGiven(t, run[1..], i - 1, p);
      assert Given(s, run) == Made(s, t) + Given(t, run[1..]);
    }
  }

  /** The k-th payment of the run is in the table after i steps, with its number. */
  ghost predicate MadeAt(s: State, run: seq<Step>, k: nat, i: nat)
    requires Legal(s, run) && k < |Given(s, run)|
  {
    var bill := Given(s, run)[k];
    && i <= |run| && bill.pay in StateAt(s, run, i).pays
    && StateAt(s, run, i).pays[bill.pay].invoice == bill.invoice
  }

  lemma MadeLater(s: State, run: seq<Step>, k: nat, i: nat)
    requires run != [] && Legal(s, run)
    requires k < |Given(Next(s, run[0]), run[1..])| && MadeAt(Next(s, run[0]), run[1..], k, i)
    ensures var l := k + |Made(s, Next(s, run[0]))|;
            && l < |Given(s, run)| && Given(s, run)[l] == Given(Next(s, run[0]), run[1..])[k]
            && MadeAt(s, run, l, i + 1)
  {
  }

  lemma MadeNow(s: State, run: seq<Step>)
    requires run != [] && Legal(s, run) && Issues(s, Next(s, run[0]))
    ensures |Given(s, run)| > 0 && Given(s, run)[0].pay == s.nextPay && MadeAt(s, run, 0, 1)
  {
    assert StateAt(s, run, 1) == StateAt(Next(s, run[0]), run[1..], 0);
  }

  /** The number of steps after which the k-th payment of the run is made. */
  ghost function StepOf(s: State, run: seq<Step>, k: nat): nat
    requires Legal(s, run) && k < |Given(s, run)|
    decreases run
  {
    var t := Next(s, run[0]);
    if k < |Made(s, t)| then 1 else 1 + StepOf(t, run[1..], k - |Made(s, t)|)
  }

  /** Every payment that is made is in the table just after. */
  lemma {:induction false} GivenIsMade(s: State, run: seq<Step>, k: nat)
    requires Legal(s, run) && k < |Given(s, run)|
    ensures MadeAt(s, run, k, StepOf(s, run, k))
    decreases run
  {
    var made := |Made(s, Next(s, run[0]))|;
    if k < made {
      MadeNow(s, run);
    } else {
      GivenIsMade(Next(s, run[0]), run[1..], k - made);
      MadeLater(s, run, k - made, StepOf(Next(s, run[0]), run[1..], k - made));
    }
  }

  lemma {:induction false} StepsInOrder(s: State, run: seq<Step>, k: nat, l: nat)
    requires Legal(s, run) && k <= l < |Given(s, run)|
    ensures StepOf(s, run, k) <= StepOf(s, run, l)
    decreases run
  {
    var made := |Made(s, Next(s, run[0]))|;
    if k >= made { StepsInOrder(Next(s, run[0]), run[1..], k - made, l - made); }
  }

  lemma {:induction false} KeysAreNew(s: State, run: seq<Step>, k: nat)
    requires Legal(s, run) && Numbered(s) && k < |Given(s, run)|
    ensures Given(s, run)[k].pay >= s.nextPay
    decreases run
  {
    var made := |Made(s, Next(s, run[0]))|;
    if k >= made {
      StepKeepsNumbered(s, run[0]);
      KeysAreNew(Next(s, run[0]), run[1..], k - made);
    }
  }

  lemma {:induction false} KeysGrow(s: State, run: seq<Step>, k: nat, l: nat)
    requires Legal(s, run) && Numbered(s) && k < l < |Given(s, run)|
    ensures Given(s, run)[k].pay < Given(s, run)[l].pay
    decreases run
  {
    var made := |Made(s, Next(s, run[0]))|;
    StepKeepsNumbered(s, run[0]);
    if k < made {
      KeysAreNew(Next(s, run[0]), run[1..], l - made);
    } else {
      KeysGrow(Next(s, run[0]), run[1..], k - made, l - made);
    }
  }

  /** At some time of the run a webhook can meet another payment than the one that its number was
      given to. */
  ghost predicate Misleads(run: seq<Step>)
    requires Legal(INIT, run)
  {
    exists i, j, p, q :: 0 <= i <= j <= |run| && p != q && Meets(StateAt(INIT, run, i), StateAt(INIT, run, j), p, q)
  }

  /** Over every run from the start: a late webhook can meet another payment exactly when some step
      deletes the payment with the greatest number and a later step makes a payment. */
  lemma WebhookMeetsAnotherIff(run: seq<Step>)
    requires Legal(INIT, run)
    ensures Misleads(run) <==> DropThenIssue(INIT, run)
  {
    var bills := Given(INIT, run);
    NumberGivenTwiceIff(run);
    if Repeats(bills) {
      var k, l :| 0 <= k < l < |bills| && bills[k].invoice == bills[l].invoice;
      var i, j := StepOf(INIT, run, k), StepOf(INIT, run, l);
      GivenIsMade(INIT, run, k);
      GivenIsMade(INIT, run, l);
      StepsInOrder(INIT, run, k, l);
      KeysGrow(INIT, run, k, l);
      assert Meets(StateAt(INIT, run, i), StateAt(INIT, run, j), bills[k].pay, bills[l].pay);
    }
    if Misleads(run) {
      var i, j, p, q :| 0 <= i <= j <= |run| && p != q && Meets(StateAt(INIT, run, i), StateAt(INIT, run, j), p, q);
      PaymentIsGiven(INIT, run, i, p);
      PaymentIsGiven(INIT, run, j, q);
      OneBill(bills, p, q, StateAt(INIT, run, i).pays[p].invoice);
    }
  }

  lemma OneBill(bills: seq<Bill>, p: PayId, q: PayId, invoice: int)
    requires Bill(p, invoice) in bills && Bill(q, invoice) in bills && p != q
    ensures Repeats(bills)
  {
  }
}
