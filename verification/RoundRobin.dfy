/** Choosing the session for a new stream, with a counter that wraps around
    (internal/server/stream_pool.go). */
module RoundRobin {
  import opened Arithmetic
  import opened Wrappers

  const WRAP := 0x1_0000_0000

  /** The session tried in round i, when the counter gave idx and there are n sessions. */
  function Slot(idx: int, n: int, i: int): int
    requires n >= 1
  {
    ((idx + i) % WRAP) % n
  }

  /** The first session in the order of the rounds that can open a stream. */
  function FirstOpen(open: seq<bool>, idx: int, i: nat): Option<nat>
    requires open != []
    decreases |open| - i
  {
    if i >= |open| then None
    else if open[Slot(idx, |open|, i)] then Some(Slot(idx, |open|, i))
    else FirstOpen(open, idx, i + 1)
  }

  /** The session a stream comes from; the last resort is session 0, the primary one. */
  function Chosen(open: seq<bool>, idx: int): Option<nat>
    requires open != []
  {
    var first := FirstOpen(open, idx, 0);
    if first.Some? then first else if open[0] then Some(0) else None
  }

  /** The session of round j can open a stream. */
  predicate Works(open: seq<bool>, idx: int, j: int)
    requires open != []
  {
    open[((idx + j) % 0x1_0000_0000) % |open|]
  }

  predicate NoneWorks(open: seq<bool>, idx: int)
    requires open != []
  {
    forall j :: 0 <= j < |open| ==> !Works(open, idx, j)
  }

  /** Session s is that of round j, which works, and no earlier round does. */
  ghost predicate FirstWorking(open: seq<bool>, idx: int, j: int, s: nat)
    requires open != []
  {
    && 0 <= j < |open| && s == ((idx + j) % 0x1_0000_0000) % |open| && Works(open, idx, j)
    && forall i :: 0 <= i < j ==> !Works(open, idx, i)
  }

  lemma {:induction false} FirstWorks(open: seq<bool>, idx: int, from: nat) returns (j: int)
    requires open != [] && forall i :: 0 <= i < from ==> !Works(open, idx, i)
    ensures match FirstOpen(open, idx, from)
            case Some(s) => FirstWorking(open, idx, j, s)
            case None => NoneWorks(open, idx)
    decreases |open| - from
  {
    j := from;
    if from < |open| {
      if Works(open, idx, from) {
        assert FirstOpen(open, idx, from) == Some(Slot(idx, |open|, from));
      } else {
        j := FirstWorks(open, idx, from + 1);
      }
    }
  }

  class StreamPool {
    var sessionIdx: int

    constructor ()
      ensures sessionIdx == 0
    {
      sessionIdx := 0;
    }

    /** `open` says which sessions are not closed and can open a stream during this call. */
    method OpenStreamRoundRobin(open: seq<bool>) returns (session: Option<nat>)
      requires open != []
      modifies this
      ensures sessionIdx == (old(sessionIdx) + 1) % 0x1_0000_0000
      ensures session == Chosen(open, sessionIdx)
      ensures match session
              case Some(s) =>
                && s < |open| && open[s]
                && ((exists j :: FirstWorking(open, sessionIdx, j, s)) || (s == 0 && NoneWorks(open, sessionIdx)))
              case None => !open[0] && NoneWorks(open, sessionIdx)
    {
      ghost var first := FirstWorks(open, (sessionIdx + 1) % WRAP, 0);
      sessionIdx := (sessionIdx + 1) % WRAP;
      var idx, n := sessionIdx, |open|;
      for i := 0 to n
        invariant FirstOpen(open, idx, 0) == FirstOpen(open, idx, i)
      {
        var s := ((idx + i) % WRAP) % n;
        if open[s] {
          return Some(s);
        }
      }
      return if open[0] then Some(0) else None;
    }
  }

  // ------------------------------------------------------------------------ coverage

  /** The check a caller can make: no round of this call crosses the wrap, or it does not matter. */
  predicate Even(idx: int, n: int)
    requires n >= 1
  {
    WRAP % n == 0 || idx + n <= WRAP
  }

  predicate Tries(idx: int, n: int, s: int)
    requires n >= 1
  {
    exists i :: 0 <= i < n && Slot(idx, n, i) == s
  }

  lemma RemainderTwice(x: int, n: int)
    requires n >= 1 && WRAP % n == 0
    ensures (x % WRAP) % n == x % n
  {
    var q, k := x / WRAP, WRAP / n;
    assert WRAP == k * n;
    assert x == x % WRAP + q * (k * n) == x % WRAP + (q * k) * n by { assert q * (k * n) == (q * k) * n; }
    var y := x % WRAP;
    assert y == y % n + (y / n) * n;
    assert x == y % n + (y / n + q * k) * n by { assert (y / n + q * k) * n == (y / n) * n + (q * k) * n; }
    Remainder(y % n, y / n + q * k, n);
  }

  /** Going i places on from the place of idx. */
  lemma PlacesOn(idx: int, n: int, i: int)
    requires n >= 1 && 0 <= i < n
    ensures (idx + i) % n == if idx % n + i < n then idx % n + i else idx % n + i - n
  {
    var q, r := idx / n, idx % n;
    assert idx == r + q * n;
    if r + i < n {
      RemainderIs(idx + i, r + i, q, n);
    } else {
      OneMoreTime(q, n);
      RemainderIs(idx + i, r + i - n, q + 1, n);
    }
  }

  /** In an even call round i tries the session i places after the first one. */
  lemma EvenSlot(idx: int, n: int, i: int)
    requires 0 <= idx < WRAP && n >= 1 && 0 <= i < n && Even(idx, n)
    ensures Slot(idx, n, i) == if idx % n + i < n then idx % n + i else idx % n + i - n
  {
    if WRAP % n == 0 {
      RemainderTwice(idx + i, n);
    } else {
      assert (idx + i) % WRAP == idx + i;
    }
    PlacesOn(idx, n, i);
  }

  /** An even call tries every session exactly once. */
  lemma EvenTriesEachOnce(idx: int, n: int, s: int)
    requires 0 <= idx < WRAP && n >= 1 && 0 <= s < n && Even(idx, n)
    ensures Tries(idx, n, s)
    ensures forall i, j :: 0 <= i < n && 0 <= j < n && Slot(idx, n, i) == s && Slot(idx, n, j) == s ==> i == j
  {
    var i := if s >= idx % n then s - idx % n else s - idx % n + n;
    EvenSlot(idx, n, i);
    forall i, j | 0 <= i < n && 0 <= j < n && Slot(idx, n, i) == s && Slot(idx, n, j) == s ensures i == j {
      EvenSlot(idx, n, i);
      EvenSlot(idx, n, j);
    }
  }

  /** The session that an uneven call leaves out. */
  function Skipped(idx: int, n: int): int
    requires n >= 1
  {
    var a, r := WRAP - idx, WRAP % n;
    if a <= r then n - 1 else n + r - a - 1
  }

  /** The rounds before the wrap, as places: a of them, ending just below WRAP. */
  lemma SlotBeforeWrap(idx: int, n: int, i: int)
    requires 0 <= idx < WRAP && n >= 1 && 0 <= i < WRAP - idx && WRAP - idx < n
    ensures var a, r := WRAP - idx, WRAP % n;
            Slot(idx, n, i) == if r - a + i >= 0 then r - a + i else r - a + i + n
  {
    var a, r, q := WRAP - idx, WRAP % n, WRAP / n;
    assert WRAP == r + q * n;
    if r - a + i >= 0 {
      RemainderIs(idx + i, r - a + i, q, n);
    } else {
      OneMoreTime(q - 1, n);
      RemainderIs(idx + i, r - a + i + n, q - 1, n);
    }
  }

  /** The rounds from the wrap on start again at session 0. */
  lemma SlotAfterWrap(idx: int, n: int, i: int)
    requires 0 <= idx < WRAP && 1 <= n < WRAP && WRAP - idx <= i < n
    ensures Slot(idx, n, i) == idx + i - WRAP
  {
    assert (idx + i) % WRAP == idx + i - WRAP;
  }

  lemma UnevenSkips(idx: int, n: int)
    requires 0 <= idx < WRAP && 1 <= n < WRAP && !Even(idx, n)
    ensures 0 < Skipped(idx, n) < n && !Tries(idx, n, Skipped(idx, n))
  {
    forall i | 0 <= i < n ensures Slot(idx, n, i) != Skipped(idx, n) {
      SlotIsNotSkipped(idx, n, i);
    }
  }

  lemma SlotIsNotSkipped(idx: int, n: int, i: int)
    requires 0 <= idx < WRAP && 1 <= n < WRAP && !Even(idx, n) && 0 <= i < n
    ensures Slot(idx, n, i) != Skipped(idx, n)
  {
    if idx + i < WRAP {
      SlotBeforeWrap(idx, n, i);
    } else {
      SlotAfterWrap(idx, n, i);
    }
  }

  /** For every counter value, all sessions are tried exactly when their number divides 2^32 or
      the rounds do not cross the wrap. */
  lemma CoverageIffEven(idx: int, n: int)
    requires 0 <= idx < WRAP && 1 <= n < WRAP
    ensures (forall s :: 0 <= s < n ==> Tries(idx, n, s)) <==> Even(idx, n)
  {
    if Even(idx, n) {
      forall s | 0 <= s < n ensures Tries(idx, n, s) {
        EvenTriesEachOnce(idx, n, s);
      }
    } else {
      UnevenSkips(idx, n);
    }
  }

  lemma {:induction false} FirstOpenFinds(open: seq<bool>, idx: int, i: nat)
    requires open != []
    ensures FirstOpen(open, idx, i).Some? <==> exists j :: i <= j < |open| && open[Slot(idx, |open|, j)]
    ensures FirstOpen(open, idx, i).Some? ==>
        FirstOpen(open, idx, i).value < |open| && open[FirstOpen(open, idx, i).value]
    decreases |open| - i
  {
    if i < |open| { FirstOpenFinds(open, idx, i + 1); }
  }

  ghost predicate SomeOpen(open: seq<bool>) {
    exists s :: 0 <= s < |open| && open[s]
  }

  /** A stream is returned, whichever sessions work, exactly when the call is even: the last
      resort does not make up for a skipped session. */
  lemma StreamWheneverPossible(idx: int, n: int)
    requires 0 <= idx < WRAP && 1 <= n < WRAP
    ensures (forall open: seq<bool> :: |open| == n && SomeOpen(open) ==> Chosen(open, idx).Some?) <==> Even(idx, n)
  {
    if Even(idx, n) {
      forall open: seq<bool> | |open| == n && SomeOpen(open) ensures Chosen(open, idx).Some? {
        var s :| 0 <= s < n && open[s];
        EvenTriesEachOnce(idx, n, s);
        FirstOpenFinds(open, idx, 0);
      }
    } else {
      var s := Skipped(idx, n);
      UnevenSkips(idx, n);
      var open := seq(n, i => i == s);
      assert open[s];
      assert forall j :: 0 <= j < n ==> 0 <= Slot(idx, n, j) < n;
      FirstOpenFinds(open, idx, 0);
      assert SomeOpen(open) && Chosen(open, idx).None?;
    }
  }

  /** The usual 1 + 15 sessions are always covered. */
  lemma SixteenSessionsAreCovered(idx: int, s: int)
    requires 0 <= idx < WRAP && 0 <= s < 16
    ensures Tries(idx, 16, s)
  {
    EvenTriesEachOnce(idx, 16, s);
  }

  // ------------------------------------------------------------- many calls in a row

  /** The answers of k calls in a row that find the counter at idx. */
  function Answers(open: seq<bool>, idx: int, k: nat): (answers: seq<Option<nat>>)
    requires open != []
    ensures |answers| == k
    decreases k
  {
    if k == 0 then []
    else
      var next := (idx + 1) % WRAP;
      [Chosen(open, next)] + Answers(open, next, k - 1)
  }

  /** The next call's rounds are this call's, one round later. */
  lemma NextRounds(idx: int, n: int, i: int)
    requires n >= 1
    ensures Slot((idx + 1) % WRAP, n, i - 1) == Slot(idx, n, i)
  {
    assert ((idx + 1) % WRAP + (i - 1)) % WRAP == (idx + i) % WRAP;
  }

  /** While every session works, the calls go where the rounds of the first of them would go. */
  lemma {:induction false} AnswerIsSlot(open: seq<bool>, idx: int, k: nat, i: nat)
    requires open != [] && (forall s :: 0 <= s < |open| ==> open[s]) && i < k
    ensures Answers(open, idx, k)[i] == Some(Slot((idx + 1) % WRAP, |open|, i))
    decreases k
  {
    var next := (idx + 1) % WRAP;
    if i == 0 {
      assert next % WRAP == next;
    } else {
      AnswerIsSlot(open, next, k - 1, i - 1);
      NextRounds(next, |open|, i);
    }
  }

  /** While all n sessions work, n calls in a row give a stream of every session, and so one of each,
      exactly when a call in the place of the first of them is even. */
  lemma TurnsAreFairIff(open: seq<bool>, idx: int)
    requires 1 <= |open| < WRAP && forall s :: 0 <= s < |open| ==> open[s]
    ensures var answers, even := Answers(open, idx, |open|), Even((idx + 1) % WRAP, |open|);
            && ((forall s :: 0 <= s < |open| ==> Some(s) in answers) <==> even)
            && (even ==> forall i, j :: 0 <= i < j < |open| ==> answers[i] != answers[j])
  {
    var n, first, answers := |open|, (idx + 1) % WRAP, Answers(open, idx, |open|);
    forall i | 0 <= i < n ensures answers[i] == Some(Slot(first, n, i)) {
      AnswerIsSlot(open, idx, n, i);
    }
    forall s | 0 <= s < n ensures Tries(first, n, s) <==> Some(s) in answers {
      if i :| 0 <= i < n && Slot(first, n, i) == s { assert answers[i] == Some(s); }
    }
    CoverageIffEven(first, n);
    if Even(first, n) {
      forall i, j | 0 <= i < j < n ensures answers[i] != answers[j] {
        EvenTriesEachOnce(first, n, Slot(first, n, i));
      }
    }
  }
}
