/** Runs of the billing machine, put end to end. */
module BillingRuns {
  import opened Billing

  /** The run leads from s to t. */
  ghost predicate Leads(s: State, run: seq<Step>, t: State) {
    Legal(s, run) && Final(s, run) == t
  }

  lemma LeadsOne(s: State, e: Step)
    requires Enabled(s, e)
    ensures Leads(s, [e], Next(s, e))
  {
    assert [e][1..] == [];
  }

  lemma {:induction false} LeadsOn(s: State, a: seq<Step>, t: State, b: seq<Step>, u: State)
    requires Leads(s, a, t) && Leads(t, b, u)
    ensures Leads(s, a + b, u)
    decreases a
  {
    if a == [] {
      assert a + b == b;
    } else {
      assert (a + b)[1..] == a[1..] + b;
      LeadsOn(Next(s, a[0]), a[1..], t, b, u);
    }
  }

  lemma LeadsMore(s: State, run: seq<Step>, t: State, e: Step)
    requires Leads(s, run, t) && Enabled(t, e)
    ensures Leads(s, run + [e], Next(t, e))
  {
    LeadsOne(t, e);
    LeadsOn(s, run, t, [e], Next(t, e));
  }
}
