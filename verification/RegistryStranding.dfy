/** Exactly which removed clients stay on their user's list. Client.Close can only come before the
    linking of its client when the server shuts down: everywhere else it follows the message loop. */
module RegistryStranding {
  import opened Registry
  import opened RegistryOwnership
  import opened RegistryLimits
  import opened RegistryIndex
  import RegistryAlone
  import opened Wrappers

  predicate OnList(s: State, c: Id) {
    c in s.clients && c in Listed(s.tables.index, s.clients[c].user)
  }

  // ---------------------------------------------------------- where a client stands

  /** Everything about c that linking and unlinking depend on. */
  predicate SamePlace(s: State, t: State, c: Id) {
    && c in s.clients && c in t.clients
    && t.clients[c].user == s.clients[c].user
    && t.clients[c].loop.Starting? == s.clients[c].loop.Starting?
    && LeftIndex(t.clients[c]) == LeftIndex(s.clients[c])
    && OnList(t, c) == OnList(s, c)
  }

  lemma {:induction false} WithoutKeepsMembers(list: seq<Id>, c: Id, d: Id)
    requires c != d
    ensures d in Without(list, c) <==> d in list
  {
    if list != [] {
      assert list == [list[0]] + list[1..];
      WithoutKeepsMembers(list[1..], c, d);
    }
  }

  lemma ListsOfOthers(cfg: Config, s: State, e: Step, c: Id, user: int)
    requires Enabled(s, e) && e != Link(c) && e != Unlink(c)
    ensures c in Listed(EffectOf(cfg, s, e).tables.index, user) <==> c in Listed(s.tables.index, user)
  {
    IndexWrites(cfg, s, e);
    if e.Unlink? && s.clients[e.c].user == user { WithoutKeepsMembers(Listed(s.tables.index, user), e.c, c); }
  }

  /** What linking and unlinking tell of a client is as before; a new client is neither. */
  predicate Stands(k: Option<Client>, was: Option<Client>) {
    if was.Some? then
      && k.Some? && k.value.user == was.value.user && k.value.loop.Starting? == was.value.loop.Starting?
      && LeftIndex(k.value) == LeftIndex(was.value)
    else k.Some? ==> k.value.loop.Starting? && !LeftIndex(k.value)
  }

  lemma WorkStands(cfg: Config, s: State, th: Thread, binds: bool)
    requires MayDo(s, th) && Orderly(s)
    ensures var f := EffectOf(cfg, s, Do(th, binds)); Stands(f.client, At(s.clients, f.c))
  {
    assert ThreadOk(th, s.work[th], At(s.clients, OwnClient(th)));
    if AboutSocket(s.work[th]) {
      SocketUnlinking(s, th, Answered(cfg, s, s.work[th]), binds);
    } else {
      HttpUnlinking(cfg.inspect, s, th);
    }
    assert EffectOf(cfg, s, Do(th, binds)) == WorkEffect(cfg, s, th, binds);
  }

  lemma SweepStands(cfg: Config, s: State, e: Step)
    requires Enabled(s, e) && OfClose(e) && !e.Unlink?
    ensures var f := EffectOf(cfg, s, e); Stands(f.client, At(s.clients, f.c))
  {
    assert EffectOf(cfg, s, e) == SweepEffect(s, e);
  }

  lemma CallStands(cfg: Config, s: State, e: Step)
    requires Enabled(s, e) && !e.Do? && !e.Link? && !OfClose(e) && Orderly(s)
    ensures var f := EffectOf(cfg, s, e); Stands(f.client, At(s.clients, f.c))
  {
  }

  /** Only its own linking and unlinking change where a client stands. */
  lemma StepStands(cfg: Config, s: State, e: Step, c: Id)
    requires Enabled(s, e) && e != Link(c) && e != Unlink(c) && Orderly(s)
    ensures Stands(At(Next(cfg, s, e).clients, c), At(s.clients, c))
  {
    if e.Do? {
      WorkStands(cfg, s, e.th, e.binds);
    } else if e.Link? || e.Unlink? {
      OthersLink(cfg, s, e, c);
    } else if OfClose(e) {
      SweepStands(cfg, s, e);
    } else {
      CallStands(cfg, s, e);
    }
    StandsAfter(s, EffectOf(cfg, s, e), c);
  }

  lemma OthersLink(cfg: Config, s: State, e: Step, c: Id)
    requires Enabled(s, e) && (e.Link? || e.Unlink?) && e.c != c
    ensures EffectOf(cfg, s, e).c != c
  {
  }

  lemma StandsAfter(s: State, f: Effect, c: Id)
    requires f.c == c ==> Stands(f.client, At(s.clients, c))
    ensures Stands(At(Apply(s, f).clients, c), At(s.clients, c))
  {
  }

  lemma OtherStepsKeepPlace(cfg: Config, s: State, e: Step, c: Id)
    requires Enabled(s, e) && e != Link(c) && e != Unlink(c) && Orderly(s) && c in s.clients
    ensures SamePlace(s, Next(cfg, s, e), c)
  {
    ListsOfOthers(cfg, s, e, c, s.clients[c].user);
    StepStands(cfg, s, e, c);
  }

  // ------------------------------------------------------------------------- runs

  /** The client's unlinking comes before its linking. */
  ghost predicate LinkedAfterUnlink(run: seq<Step>, c: Id) {
    exists i, j :: 0 <= i < j < |run| && run[i] == Unlink(c) && run[j] == Link(c)
  }

  lemma FirstStep(run: seq<Step>, c: Id)
    requires run != []
    ensures LinkedAfterUnlink(run, c) <==>
              LinkedAfterUnlink(run[1..], c) || (run[0] == Unlink(c) && Link(c) in run[1..])
  {
    var rest := run[1..];
    if i, j :| 0 <= i < j < |run| && run[i] == Unlink(c) && run[j] == Link(c) {
      assert rest[j - 1] == Link(c);
      if i > 0 { assert rest[i - 1] == Unlink(c); }
    }
    if i, j :| 0 <= i < j < |rest| && rest[i] == Unlink(c) && rest[j] == Link(c) {
      assert run[i + 1] == Unlink(c) && run[j + 1] == Link(c);
    }
    if run[0] == Unlink(c) && Link(c) in rest {
      var j :| 0 <= j < |rest| && rest[j] == Link(c);
      assert run[j + 1] == Link(c);
    }
  }

  /** Whether c will be on its list when it has left the index, as far as the rest of the run tells. */
  ghost predicate WillStay(s: State, run: seq<Step>, c: Id) {
    if c in s.clients && !s.clients[c].loop.Starting? then LeftIndex(s.clients[c]) && OnList(s, c)
    else if c in s.clients && LeftIndex(s.clients[c]) then s.clients[c].user != 0 && Link(c) in run
    else LinkedAfterUnlink(run, c)
  }

  /** A client past its linking is not linked again. */
  lemma {:induction false} LinksOnce(cfg: Config, s: State, run: seq<Step>, c: Id)
    requires Legal(cfg, s, run) && Orderly(s) && c in s.clients && !s.clients[c].loop.Starting?
    ensures Link(c) !in run
    decreases run
  {
    if run != [] {
      assert run[0] != Link(c) && run == [run[0]] + run[1..];
      StepOrder(cfg, s, run[0]);
      OrderFromEffect(s, EffectOf(cfg, s, run[0]));
      if run[0] != Unlink(c) { OtherStepsKeepPlace(cfg, s, run[0], c); }
      LinksOnce(cfg, Next(cfg, s, run[0]), run[1..], c);
    }
  }

  lemma LinkStep(cfg: Config, s: State, run: seq<Step>, c: Id)
    requires Legal(cfg, s, run) && Orderly(s) && run != [] && run[0] == Link(c)
    requires Orderly(Next(cfg, s, run[0]))
    ensures s.clients[c].user != 0 ==> (WillStay(s, run, c) <==> WillStay(Next(cfg, s, run[0]), run[1..], c))
  {
    LinksOnce(cfg, Next(cfg, s, run[0]), run[1..], c);
    FirstStep(run, c);
  }

  lemma UnlinkStep(cfg: Config, s: State, run: seq<Step>, c: Id)
    requires Legal(cfg, s, run) && IndexOk(s) && run != [] && run[0] == Unlink(c) && s.clients[c].user != 0
    ensures WillStay(s, run, c) <==> WillStay(Next(cfg, s, run[0]), run[1..], c)
  {
    FirstStep(run, c);
    var user := s.clients[c].user;
    assert RegistryIndex.ListOk(s, user);
    WithoutIsExact(Listed(s.tables.index, user), c);
    UnlinkedList(s.tables.index, user, c, user);
    if LinkedAfterUnlink(run[1..], c) {
      var i, j :| 0 <= i < j < |run[1..]| && run[1..][i] == Unlink(c) && run[1..][j] == Link(c);
      assert Link(c) in run[1..];
    }
  }

  lemma OtherStep(cfg: Config, s: State, run: seq<Step>, c: Id)
    requires Legal(cfg, s, run) && Orderly(s) && run != [] && run[0] != Link(c) && run[0] != Unlink(c)
    ensures WillStay(s, run, c) <==> WillStay(Next(cfg, s, run[0]), run[1..], c)
  {
    FirstStep(run, c);
    assert Link(c) in run <==> Link(c) in run[1..] by { assert run == [run[0]] + run[1..]; }
    if c in s.clients {
      OtherStepsKeepPlace(cfg, s, run[0], c);
    } else if c in Next(cfg, s, run[0]).clients {
      StepStands(cfg, s, run[0], c);
    }
  }

  lemma {:induction false} StaysAsForeseen(cfg: Config, s: State, run: seq<Step>, c: Id)
    requires Legal(cfg, s, run) && Orderly(s) && IndexOk(s)
    requires var t := Final(cfg, s, run); c in t.clients && LeftIndex(t.clients[c]) && t.clients[c].user != 0
    requires c in s.clients ==> s.clients[c].user == Final(cfg, s, run).clients[c].user
    ensures OnList(Final(cfg, s, run), c) <==> WillStay(s, run, c)
    decreases run
  {
    if run == [] {
      assert RegistryIndex.ListOk(s, s.clients[c].user);
    } else {
      var t := Next(cfg, s, run[0]);
      StepKeepsIndex(cfg, s, run[0]);
      StepOrder(cfg, s, run[0]);
      OrderFromEffect(s, EffectOf(cfg, s, run[0]));
      UserStays(cfg, t, run[1..], c);
      StaysAsForeseen(cfg, t, run[1..], c);
      if run[0] == Link(c) {
        LinkStep(cfg, s, run, c);
      } else if run[0] == Unlink(c) {
        UnlinkStep(cfg, s, run, c);
      } else {
        OtherStep(cfg, s, run, c);
      }
    }
  }

  lemma {:induction false} UserStays(cfg: Config, s: State, run: seq<Step>, c: Id)
    requires Legal(cfg, s, run) && Orderly(s)
    ensures c in s.clients ==>
        c in Final(cfg, s, run).clients && Final(cfg, s, run).clients[c].user == s.clients[c].user
    decreases run
  {
    if run != [] && c in s.clients {
      StepOrder(cfg, s, run[0]);
      OrderFromEffect(s, EffectOf(cfg, s, run[0]));
      if run[0] != Link(c) && run[0] != Unlink(c) { OtherStepsKeepPlace(cfg, s, run[0], c); }
      UserStays(cfg, Next(cfg, s, run[0]), run[1..], c);
    }
  }

  /** In every reachable state a client that has been unlinked is on its user's list exactly when it
      was linked after that; so a removed client stays listed for good exactly then. */
  lemma StrandedIffLinkedAfterUnlink(cfg: Config, run: seq<Step>, c: Id)
    requires Legal(cfg, INIT, run) && c in Final(cfg, INIT, run).clients
    requires LeftIndex(Final(cfg, INIT, run).clients[c])
    ensures OnList(Final(cfg, INIT, run), c) <==>
              Final(cfg, INIT, run).clients[c].user != 0 && LinkedAfterUnlink(run, c)
  {
    var s := Final(cfg, INIT, run);
    RunKeepsIndex(cfg, INIT, run);
    assert RegistryIndex.ListOk(s, s.clients[c].user);
    if s.clients[c].user != 0 { StaysAsForeseen(cfg, INIT, run, c); }
  }

  /** It happens to a new client of any state: a shutdown closes it between its addition and its
      linking. */
  lemma StrandingIsPossible(cfg: Config, s: State, user: int) returns (run: seq<Step>)
    requires user != 0 && s.tables.nextId !in s.clients && MessageLoop(s.tables.nextId) !in s.work
    ensures Legal(cfg, s, run) && Stranded(Final(cfg, s, run), s.tables.nextId)
  {
    var c := s.tables.nextId;
    var adding := RegistryAlone.AddingAlone(cfg, s, user, NoPlan, 0);
    var s1 := Final(cfg, s, adding);
    var k, w := s1.clients[c].(sweep := Sweeping, tunnels := map[]), At(s1.work, MessageLoop(c));
    var t := RegistryAlone.Dropped(s1.tables, s1.clients[c].tunnels);
    run := RegistryAlone.SweepingAlone(cfg, s1, c);
    run := RegistryAlone.LeavingAlone(cfg, s1, run, s1, c, k, t, w);
    var t1 := t.(index := UnlinkFrom(t.index, user, c), live := t.live - {c});
    run := RegistryAlone.Extend(cfg, s1, run, s1, c, k.(sweep := Removed), w, t1, Link(c),
                                k.(sweep := Removed, loop := Top), w, t1.(index := LinkIn(t1.index, user, c)));
    LeadsOn(cfg, s, adding, s1, run, Final(cfg, s1, run));
    run := adding + run;
  }
}
