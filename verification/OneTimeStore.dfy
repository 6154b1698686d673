/** One-time tokens with a life time, as the OAuth store keeps them, and its background cleanup
    (internal/api/oauth_store.go). */
module OneTimeStore {
  import opened Wrappers

  type Time = int

  type Nonce = string

  const STATE_TTL: Time := 10 * 60
  const CODE_TTL: Time := 2 * 60

  datatype Entry<T> = Entry(value: T, created: Time)

  type Table<T> = map<Nonce, Entry<T>>

  /** What happens to a table under its lock. The stamp of a creation is taken before the lock. */
  datatype Event<T> =
    | Create(nonce: Nonce, value: T, now: Time)
    | Consume(nonce: Nonce, now: Time)
    | Clean(now: Time)

  // ------------------------------------------------------------------------- table

  predicate Outlived<T>(e: Entry<T>, now: Time, age: Time) {
    now - e.created > age
  }

  /** What consuming the nonce answers. */
  function Answer<T>(t: Table<T>, ttl: Time, nonce: Nonce, now: Time): Option<T> {
    if nonce in t && !Outlived(t[nonce], now, ttl) then Some(t[nonce].value) else None
  }

  function Cleaned<T>(t: Table<T>, ttl: Time, now: Time): Table<T> {
    map nonce | nonce in t && !Outlived(t[nonce], now, ttl * 2) :: t[nonce]
  }

  /** The table after a history; a store that never cleans ignores the Clean events. */
  function After<T>(cleans: bool, ttl: Time, events: seq<Event<T>>): Table<T> {
    if events == [] then map[]
    else
      var t := After(cleans, ttl, events[..|events| - 1]);
      match events[|events| - 1]
      case Create(nonce, value, now) => t[nonce := Entry(value, now)]
      case Consume(nonce, _) => t - {nonce}
      case Clean(now) => if cleans then Cleaned(t, ttl, now) else t
  }

  // ------------------------------------------------------------ answers from history

  predicate About<T>(e: Event<T>, nonce: Nonce) {
    !e.Clean? && e.nonce == nonce
  }

  /** The last creation or consumption of the nonce, or -1. */
  function LastAbout<T>(events: seq<Event<T>>, nonce: Nonce): (i: int)
    ensures -1 <= i < |events|
    ensures i >= 0 ==> About(events[i], nonce)
    ensures forall k :: i < k < |events| ==> !About(events[k], nonce)
  {
    if events == [] then -1
    else if About(events[|events| - 1], nonce) then |events| - 1
    else LastAbout(events[..|events| - 1], nonce)
  }

  /** The clock read under the lock does not go back from a cleanup to a later consumption. */
  predicate Steady<T>(events: seq<Event<T>>, now: Time) {
    forall k :: 0 <= k < |events| && events[k].Clean? ==> events[k].now <= now
  }

  predicate SweptAway<T>(events: seq<Event<T>>, ttl: Time, c: int, k: int)
    requires 0 <= c < |events|
  {
    c < k < |events| && events[k].Clean? && events[k].now - events[c].now > ttl * 2
  }

  lemma {:induction false} EntryStays<T>(cleans: bool, ttl: Time, events: seq<Event<T>>, nonce: Nonce)
    ensures var t, c := After(cleans, ttl, events), LastAbout(events, nonce);
            && (nonce in t ==> c >= 0 && events[c].Create? && t[nonce] == Entry(events[c].value, events[c].now))
            && (c >= 0 && events[c].Create? && nonce !in t ==> exists k :: SweptAway(events, ttl, c, k))
  {
    if events != [] {
      var n := |events| - 1;
      var before := events[..n];
      EntryStays(cleans, ttl, before, nonce);
      var c := LastAbout(before, nonce);
      if !About(events[n], nonce) && c >= 0 && events[c].Create? {
        if nonce !in After(cleans, ttl, before) {
          var k :| SweptAway(before, ttl, c, k);
          assert SweptAway(events, ttl, c, k);
        } else if nonce !in After(cleans, ttl, events) {
          assert SweptAway(events, ttl, c, n);
        }
      }
    }
  }

  /** A token is given out exactly when the last thing that happened to its nonce is its creation,
      not longer than the life time ago; and it is what was stored then. */
  lemma AnswerFromHistory<T>(cleans: bool, ttl: Time, events: seq<Event<T>>, nonce: Nonce, now: Time)
    requires ttl >= 0 && Steady(events, now)
    ensures var c := LastAbout(events, nonce);
            Answer(After(cleans, ttl, events), ttl, nonce, now) ==
              if c >= 0 && events[c].Create? && now - events[c].now <= ttl then Some(events[c].value) else None
  {
    EntryStays(cleans, ttl, events, nonce);
  }

  /** Cleanup at any times is invisible. */
  lemma {:induction false} CleanupIsInvisible<T>(ttl: Time, events: seq<Event<T>>, nonce: Nonce, now: Time)
    requires ttl >= 0 && Steady(events, now)
    ensures Answer(After(true, ttl, events), ttl, nonce, now) == Answer(After(false, ttl, events), ttl, nonce, now)
  {
    AnswerFromHistory(true, ttl, events, nonce, now);
    AnswerFromHistory(false, ttl, events, nonce, now);
  }

  /** Every consumption in the history read the clock after the cleanups before it. */
  ghost predicate Timely<T>(events: seq<Event<T>>) {
    forall i :: 0 <= i < |events| && events[i].Consume? ==> Steady(events[..i], events[i].now)
  }

  /** What the consumption at position i of a history answered. */
  function AnswerAt<T>(cleans: bool, ttl: Time, events: seq<Event<T>>, i: nat): Option<T>
    requires i < |events| && events[i].Consume?
  {
    Answer(After(cleans, ttl, events[..i]), ttl, events[i].nonce, events[i].now)
  }

  ghost predicate FreshNonces<T>(events: seq<Event<T>>) {
    forall i, j :: 0 <= i < j < |events| && events[i].Create? && events[j].Create? ==>
        events[i].nonce != events[j].nonce
  }

  /** With fresh nonces each token is given out at most once, with exactly what was stored, and
      only within its life time. */
  lemma GivenOutOnce<T>(cleans: bool, ttl: Time, events: seq<Event<T>>, i: nat, j: nat)
    requires ttl >= 0 && Timely(events) && FreshNonces(events)
    requires i < |events| && j < |events| && events[i].Consume? && events[j].Consume?
    requires AnswerAt(cleans, ttl, events, i).Some? && AnswerAt(cleans, ttl, events, j).Some?
    ensures events[i].nonce == events[j].nonce ==> i == j
    ensures exists c :: 0 <= c < i && events[i].now - events[c].now <= ttl &&
              events[c] == Create(events[i].nonce, AnswerAt(cleans, ttl, events, i).value, events[c].now)
  {
    AnswerFromHistory(cleans, ttl, events[..i], events[i].nonce, events[i].now);
    AnswerFromHistory(cleans, ttl, events[..j], events[j].nonce, events[j].now);
    var c, d := LastAbout(events[..i], events[i].nonce), LastAbout(events[..j], events[j].nonce);
    assert events[..i][c] == events[c] && events[..j][d] == events[d];
    if events[i].nonce == events[j].nonce && i != j {
      assert c == d;
      if i < j {
        assert About(events[..j][i], events[j].nonce);
      } else {
        assert About(events[..i][j], events[i].nonce);
      }
    }
  }

  /** The first attempt within the life time succeeds: a token is not lost before it is used. */
  lemma FirstUseSucceeds<T>(cleans: bool, ttl: Time, events: seq<Event<T>>, c: nat, i: nat)
    requires ttl >= 0 && Timely(events)
    requires c < i < |events| && events[c].Create? && events[i].Consume? && events[i].nonce == events[c].nonce
    requires forall k :: c < k < i ==> !About(events[k], events[c].nonce)
    ensures AnswerAt(cleans, ttl, events, i) ==
        if events[i].now - events[c].now <= ttl then Some(events[c].value) else None
  {
    AnswerFromHistory(cleans, ttl, events[..i], events[i].nonce, events[i].now);
    assert About(events[..i][c], events[c].nonce);
    assert forall k :: c < k < i ==> !About(events[..i][k], events[c].nonce);
  }

  // ------------------------------------------------------------------------- store

  datatype StateEntry = StateEntry(purpose: string, user: int, desktopRedirect: string)

  datatype CodeEntry = CodeEntry(accessToken: string, refreshToken: string, expiresIn: int)

  class OAuthStore {
    var states: Table<StateEntry>
    var codes: Table<CodeEntry>
    ghost var stateEvents: seq<Event<StateEntry>>
    ghost var codeEvents: seq<Event<CodeEntry>>

    ghost predicate Valid()
      reads this
    {
      states == After(true, STATE_TTL, stateEvents) && codes == After(true, CODE_TTL, codeEvents)
    }

    constructor ()
      ensures Valid() && stateEvents == [] && codeEvents == []
    {
      states, codes, stateEvents, codeEvents := map[], map[], [], [];
    }

    method CreateState(entry: StateEntry, nonce: Nonce, now: Time)
      requires Valid()
      modifies this
      ensures Valid() && stateEvents == old(stateEvents) + [Create(nonce, entry, now)] && codeEvents == old(codeEvents)
      ensures states == old(states)[nonce := Entry(entry, now)]
    {
      states := states[nonce := Entry(entry, now)];
      stateEvents := stateEvents + [Create(nonce, entry, now)];
      assert stateEvents[..|stateEvents| - 1] == old(stateEvents);
    }

    method ConsumeState(nonce: Nonce, now: Time) returns (entry: Option<StateEntry>)
      requires Valid()
      modifies this
      ensures Valid() && stateEvents == old(stateEvents) + [Consume(nonce, now)] && codeEvents == old(codeEvents)
      ensures entry == Answer(After(true, STATE_TTL, old(stateEvents)), STATE_TTL, nonce, now)
      ensures entry == if nonce in old(states) && now - old(states)[nonce].created <= 600
                       then Some(old(states)[nonce].value) else None
      ensures states == old(states) - {nonce}
    {
      stateEvents := stateEvents + [Consume(nonce, now)];
      assert stateEvents[..|stateEvents| - 1] == old(stateEvents);
      if nonce !in states {
        return None;
      }
      var found := states[nonce];
      states := states - {nonce};
      if now - found.created > STATE_TTL {
        return None;
      }
      return Some(found.value);
    }

    method CreateCode(entry: CodeEntry, nonce: Nonce, now: Time)
      requires Valid()
      modifies this
      ensures Valid() && codeEvents == old(codeEvents) + [Create(nonce, entry, now)] && stateEvents == old(stateEvents)
      ensures codes == old(codes)[nonce := Entry(entry, now)]
    {
      codes := codes[nonce := Entry(entry, now)];
      codeEvents := codeEvents + [Create(nonce, entry, now)];
      assert codeEvents[..|codeEvents| - 1] == old(codeEvents);
    }

    method ExchangeCode(nonce: Nonce, now: Time) returns (entry: Option<CodeEntry>)
      requires Valid()
      modifies this
      ensures Valid() && codeEvents == old(codeEvents) + [Consume(nonce, now)] && stateEvents == old(stateEvents)
      ensures entry == Answer(After(true, CODE_TTL, old(codeEvents)), CODE_TTL, nonce, now)
      ensures entry == if nonce in old(codes) && now - old(codes)[nonce].created <= 120
                       then Some(old(codes)[nonce].value) else None
      ensures codes == old(codes) - {nonce}
    {
      codeEvents := codeEvents + [Consume(nonce, now)];
      assert codeEvents[..|codeEvents| - 1] == old(codeEvents);
      if nonce !in codes {
        return None;
      }
      var found := codes[nonce];
      codes := codes - {nonce};
      if now - found.created > CODE_TTL {
        return None;
      }
      return Some(found.value);
    }

    /** One tick of the cleanup loop. */
    method CleanupTick(now: Time)
      requires Valid()
      modifies this
      ensures Valid() && stateEvents == old(stateEvents) + [Clean(now)] && codeEvents == old(codeEvents) + [Clean(now)]
      ensures Remaining(old(states), 1200, now, states) && Remaining(old(codes), 240, now, codes)
    {
      states := Sweep(states, STATE_TTL, now);
      codes := Sweep(codes, CODE_TTL, now);
      stateEvents, codeEvents := stateEvents + [Clean(now)], codeEvents + [Clean(now)];
      assert stateEvents[..|stateEvents| - 1] == old(stateEvents) && codeEvents[..|codeEvents| - 1] == old(codeEvents);
    }
  }

  /** What is left of t are the entries not older than the age. */
  ghost predicate Remaining<T>(t: Table<T>, age: Time, now: Time, left: Table<T>) {
    && (forall nonce :: nonce in left <==> nonce in t && now - t[nonce].created <= age)
    && forall nonce :: nonce in left ==> left[nonce] == t[nonce]
  }

  /** The deleting loop of a cleanup, over one table. */
  method Sweep<T>(t: Table<T>, ttl: Time, now: Time) returns (left: Table<T>)
    ensures left == Cleaned(t, ttl, now) && Remaining(t, 2 * ttl, now, left)
  {
    left := t;
    var todo := t.Keys;
    while todo != {}
      invariant todo <= left.Keys <= t.Keys && forall nonce :: nonce in left ==> left[nonce] == t[nonce]
      invariant forall nonce :: nonce in t && nonce !in todo ==> (nonce in left <==> !Outlived(t[nonce], now, ttl * 2))
      decreases todo
    {
      var nonce :| nonce in todo;
      if now - left[nonce].created > ttl * 2 {
        left := left - {nonce};
      }
      todo := todo - {nonce};
    }
  }
}
