/** The index from users to their clients while connecting, closing and every handler interleave
    (internal/server/client_manager.go). */
module RegistryIndex {
  import opened Ports
  import opened Registry
  import opened RegistryOwnership
  import opened RegistryLimits
  import opened Sums

  ghost predicate Distinct(list: seq<Id>) {
    forall i, j :: 0 <= i < j < |list| ==> list[i] != list[j]
  }

  lemma {:induction false} WithoutMember(list: seq<Id>, c: Id, d: Id)
    requires Distinct(list)
    ensures d in Without(list, c) <==> d in list && d != c
  {
    if list != [] {
      var rest := list[1..];
      assert list == [list[0]] + rest;
      assert forall i :: 0 <= i < |rest| ==> rest[i] == list[i + 1];
      WithoutMember(rest, c, d);
    }
  }

  lemma {:induction false} WithoutStaysDistinct(list: seq<Id>, c: Id)
    requires Distinct(list)
    ensures Distinct(Without(list, c))
  {
    if list != [] {
      var rest := list[1..];
      assert forall i :: 0 <= i < |rest| ==> rest[i] == list[i + 1];
      WithoutStaysDistinct(rest, c);
      WithoutMember(rest, c, list[0]);
      assert list[0] !in rest;
    }
  }

  /** Removing from a duplicate-free list takes out that client and nothing else. */
  lemma WithoutIsExact(list: seq<Id>, c: Id)
    requires Distinct(list)
    ensures Distinct(Without(list, c))
    ensures forall d: Id :: d in Without(list, c) <==> d in list && d != c
  {
    WithoutStaysDistinct(list, c);
    forall d: Id ensures d in Without(list, c) <==> d in list && d != c {
      WithoutMember(list, c, d);
    }
  }

  // --------------------------------------------------------------------- invariant

  predicate LeftIndex(k: Client) {
    k.sweep.Unlinked? || k.sweep.Removed?
  }

  /** c must be on the list of `user`: past Link and before Unlink. */
  predicate MustBeListed(s: State, user: int, c: Id) {
    user != 0 && c in s.clients && s.clients[c].user == user && !s.clients[c].loop.Starting? && !LeftIndex(s.clients[c])
  }

  /** c can be on the list of `user`: past Link. */
  predicate MayBeListed(s: State, user: int, c: Id) {
    user != 0 && c in s.clients && s.clients[c].user == user && !s.clients[c].loop.Starting?
  }

  ghost predicate ListOk(s: State, user: int) {
    var list := Listed(s.tables.index, user);
    && Distinct(list)
    && forall c: Id :: (MustBeListed(s, user, c) ==> c in list) && (c in list ==> MayBeListed(s, user, c))
  }

  ghost predicate IndexOk(s: State) {
    && (forall user: int :: ListOk(s, user))
    && forall c: Id :: c in s.tables.live <==> c in s.clients && !s.clients[c].sweep.Removed?
  }

  /** An effect that neither links nor unlinks: the client it writes keeps its user and its place. */
  predicate Unlinking(s: State, f: Effect) {
    && f.tables.index == s.tables.index
    && (f.client.None? ==> f.c !in s.clients)
    && (f.client.Some? ==>
          if f.c in s.clients then
            && f.client.value.user == s.clients[f.c].user
            && f.client.value.loop.Starting? == s.clients[f.c].loop.Starting?
            && LeftIndex(s.clients[f.c]) == LeftIndex(f.client.value)
          else f.client.value.loop.Starting? && !LeftIndex(f.client.value))
  }

  lemma UnlinkingKeepsLists(s: State, f: Effect)
    requires Unlinking(s, f) && forall user: int :: ListOk(s, user)
    ensures forall user: int :: ListOk(Apply(s, f), user)
  {
    forall user: int ensures ListOk(Apply(s, f), user) {
      assert ListOk(s, user);
    }
  }

  lemma HttpUnlinking(inspect: bool, s: State, th: Thread)
    requires MayDo(s, th) && !AboutSocket(s.work[th]) && ThreadOk(th, s.work[th], At(s.clients, OwnClient(th)))
    ensures Unlinking(s, HttpEffect(inspect, s, th)) && HttpEffect(inspect, s, th).tables.live == s.tables.live
    ensures KeepsSweep(s, HttpEffect(inspect, s, th))
  {
  }

  lemma SocketUnlinking(s: State, th: Thread, answer: Answer, binds: bool)
    requires MayDo(s, th) && AboutSocket(s.work[th]) && ThreadOk(th, s.work[th], At(s.clients, OwnClient(th)))
    ensures Unlinking(s, SocketEffect(s, th, answer, binds))
    ensures SocketEffect(s, th, answer, binds).tables.live == s.tables.live
    ensures KeepsSweep(s, SocketEffect(s, th, answer, binds))
  {
  }

  /** No client is created, and none is removed from the server. */
  predicate KeepsSweep(s: State, f: Effect) {
    && (f.client.Some? <==> f.c in s.clients)
    && (f.client.Some? && f.c in s.clients ==> f.client.value.sweep.Removed? == s.clients[f.c].sweep.Removed?)
  }

  lemma QuietKeeps(s: State, f: Effect)
    requires IndexOk(s) && Unlinking(s, f) && f.tables.live == s.tables.live && KeepsSweep(s, f)
    ensures IndexOk(Apply(s, f))
  {
    UnlinkingKeepsLists(s, f);
  }

  lemma WorkKeepsIndex(cfg: Config, s: State, th: Thread, binds: bool)
    requires MayDo(s, th) && Orderly(s) && IndexOk(s)
    ensures IndexOk(Apply(s, WorkEffect(cfg, s, th, binds)))
  {
    assert ThreadOk(th, s.work[th], At(s.clients, OwnClient(th)));
    if AboutSocket(s.work[th]) {
      SocketUnlinking(s, th, Answered(cfg, s, s.work[th]), binds);
    } else {
      HttpUnlinking(cfg.inspect, s, th);
    }
    QuietKeeps(s, WorkEffect(cfg, s, th, binds));
  }

  lemma ConnectKeepsIndex(cfg: Config, s: State, e: Step)
    requires e.Connect? && Orderly(s) && IndexOk(s)
    ensures IndexOk(Next(cfg, s, e))
  {
    assert s.tables.nextId !in s.clients;
    UnlinkingKeepsLists(s, EffectOf(cfg, s, e));
  }

  lemma LinkKeepsIndex(cfg: Config, s: State, e: Step)
    requires e.Link? && Enabled(s, e) && IndexOk(s)
    ensures IndexOk(Next(cfg, s, e))
  {
    var t := Next(cfg, s, e);
    forall user: int ensures ListOk(t, user) {
      assert ListOk(s, user);
      assert e.c !in Listed(s.tables.index, user);
    }
  }

  lemma UnlinkKeepsIndex(cfg: Config, s: State, e: Step)
    requires e.Unlink? && Enabled(s, e) && IndexOk(s)
    ensures IndexOk(Next(cfg, s, e))
  {
    var t, own := Next(cfg, s, e), s.clients[e.c].user;
    forall user: int ensures ListOk(t, user) {
      assert ListOk(s, user);
      WithoutIsExact(Listed(s.tables.index, user), e.c);
      UnlinkedList(s.tables.index, own, e.c, user);
    }
  }

  lemma UnlinkedList(index: map<int, seq<Id>>, own: int, c: Id, user: int)
    ensures Listed(UnlinkFrom(index, own, c), user)
            == if user == own && own != 0 then Without(Listed(index, user), c) else Listed(index, user)
  {
  }

  lemma CloseKeepsIndex(cfg: Config, s: State, e: Step)
    requires OfClose(e) && !e.Unlink? && !e.Remove? && Enabled(s, e) && IndexOk(s)
    ensures IndexOk(Next(cfg, s, e))
  {
    QuietKeeps(s, SweepEffect(s, e));
  }

  lemma RemoveKeepsIndex(cfg: Config, s: State, e: Step)
    requires e.Remove? && Enabled(s, e) && IndexOk(s)
    ensures IndexOk(Next(cfg, s, e))
  {
    UnlinkingKeepsLists(s, SweepEffect(s, e));
  }

  lemma TakeKeepsIndex(cfg: Config, s: State, e: Step)
    requires (e.ReceiveClose? || e.AdminClose?) && Enabled(s, e) && Orderly(s) && IndexOk(s)
    ensures IndexOk(Next(cfg, s, e))
  {
    QuietKeeps(s, EffectOf(cfg, s, e));
  }

  lemma LoopKeepsIndex(cfg: Config, s: State, e: Step)
    requires Enabled(s, e) && OfLoop(e) && !e.Connect? && !e.Link? && IndexOk(s)
    ensures IndexOk(Next(cfg, s, e))
  {
    QuietKeeps(s, EffectOf(cfg, s, e));
  }

  lemma StepKeepsIndex(cfg: Config, s: State, e: Step)
    requires Enabled(s, e) && Orderly(s) && IndexOk(s)
    ensures IndexOk(Next(cfg, s, e))
  {
    if e.Do? {
      WorkKeepsIndex(cfg, s, e.th, e.binds);
    } else if e.ReceiveClose? || e.AdminClose? {
      TakeKeepsIndex(cfg, s, e);
    } else if e.Unlink? {
      UnlinkKeepsIndex(cfg, s, e);
    } else if e.Remove? {
      RemoveKeepsIndex(cfg, s, e);
    } else if OfClose(e) {
      CloseKeepsIndex(cfg, s, e);
    } else if e.Connect? {
      ConnectKeepsIndex(cfg, s, e);
    } else if e.Link? {
      LinkKeepsIndex(cfg, s, e);
    } else {
      LoopKeepsIndex(cfg, s, e);
    }
  }

  lemma {:induction false} RunKeepsIndex(cfg: Config, s: State, run: seq<Step>)
    requires Legal(cfg, s, run) && Orderly(s) && IndexOk(s)
    ensures IndexOk(Final(cfg, s, run))
    decreases run
  {
    if run != [] {
      StepKeepsIndex(cfg, s, run[0]);
      StepOrder(cfg, s, run[0]);
      OrderFromEffect(s, EffectOf(cfg, s, run[0]));
      RunKeepsIndex(cfg, Next(cfg, s, run[0]), run[1..]);
    }
  }

  // ---------------------------------------------------------------------- theorems

  function Sizes(s: State, listed: seq<Id>): map<Id, nat> {
    map c | c in s.clients && c in listed && c in s.tables.live :: |s.clients[c].tunnels|
  }

  /** CountTunnelsByUserID on a duplicate-free list adds up its connected clients' tunnels. */
  lemma {:induction false} CountIsTotal(s: State, listed: seq<Id>)
    requires Distinct(listed)
    ensures Count(s, listed) == Total(Sizes(s, listed))
  {
    if listed == [] {
      assert Sizes(s, listed) == map[];
    } else {
      var h, rest := listed[0], listed[1..];
      assert listed == [h] + rest && h !in rest;
      assert forall i :: 0 <= i < |rest| ==> rest[i] == listed[i + 1];
      CountIsTotal(s, rest);
      SizesOfCons(s, h, rest);
      if h in s.clients && h in s.tables.live {
        TotalUpdates(Sizes(s, rest), h, |s.clients[h].tunnels|);
      }
    }
  }

  lemma SizesOfCons(s: State, h: Id, rest: seq<Id>)
    requires h !in rest
    ensures Sizes(s, [h] + rest)
            == if h in s.clients && h in s.tables.live then Sizes(s, rest)[h := |s.clients[h].tunnels|]
               else Sizes(s, rest)
    ensures Sizes(s, rest) - {h} == Sizes(s, rest)
  {
    assert forall c: Id :: c in [h] + rest <==> c == h || c in rest;
    assert h !in Sizes(s, rest);
  }

  /** In every reachable state a user's list has no duplicates, has every connected client of the
      user that is past its linking and not past its unlinking, and no other user's client. */
  lemma IndexHoldsUnderInterleaving(cfg: Config, run: seq<Step>, user: int)
    requires Legal(cfg, INIT, run)
    ensures var s := Final(cfg, INIT, run);
            var list := Listed(s.tables.index, user);
            && Distinct(list)
            && (forall c: Id :: MustBeListed(s, user, c) ==> c in list && c in s.tables.live)
            && (forall c: Id :: c in list ==> MayBeListed(s, user, c))
            && Count(s, list) == Total(Sizes(s, list))
  {
    RunKeepsIndex(cfg, INIT, run);
    var s := Final(cfg, INIT, run);
    assert ListOk(s, user);
    CountIsTotal(s, Listed(s.tables.index, user));
  }

  /** A scan of all connected clients of a user. */
  function Scan(s: State, user: int): map<Id, nat> {
    map c | c in s.clients && c in s.tables.live && s.clients[c].user == user :: |s.clients[c].tunnels|
  }

  /** None of the user's connected clients is on its way in or out of the index. */
  ghost predicate Settled(s: State, user: int) {
    forall c :: c in s.clients && c in s.tables.live && s.clients[c].user == user ==>
      !s.clients[c].loop.Starting? && !s.clients[c].sweep.Unlinked?
  }

  /** Whenever the user's clients are settled, whatever else is under way, the count by index is
      the count by scan. */
  lemma CountIsScan(cfg: Config, run: seq<Step>, user: int)
    requires Legal(cfg, INIT, run) && user != 0 && Settled(Final(cfg, INIT, run), user)
    ensures var s := Final(cfg, INIT, run); Count(s, Listed(s.tables.index, user)) == Total(Scan(s, user))
  {
    IndexHoldsUnderInterleaving(cfg, run, user);
    RunKeepsIndex(cfg, INIT, run);
    var s := Final(cfg, INIT, run);
    var list := Listed(s.tables.index, user);
    forall c | c in s.clients && c in s.tables.live ensures c in list <==> s.clients[c].user == user {
      assert s.clients[c].user == user ==> MustBeListed(s, user, c);
      assert c in list ==> MayBeListed(s, user, c);
    }
    assert Sizes(s, list) == Scan(s, user);
  }

  /** A client that was removed before it was linked stays on the list: no later step takes it off. */
  predicate Stranded(s: State, c: Id) {
    c in s.clients && s.clients[c].sweep.Removed? && c in Listed(s.tables.index, s.clients[c].user)
  }

  lemma RemovedStaysRemoved(cfg: Config, s: State, e: Step, c: Id)
    requires Enabled(s, e) && Orderly(s) && c in s.clients && s.clients[c].sweep.Removed?
    ensures var k := At(Next(cfg, s, e).clients, c);
            k.Some? && k.value.sweep.Removed? && k.value.user == s.clients[c].user
  {
    if e.Do? {
      WorkKeepsRemoved(cfg, s, e.th, e.binds, c);
    } else {
      CallKeepsRemoved(cfg, s, e, c);
    }
  }

  lemma WorkKeepsRemoved(cfg: Config, s: State, th: Thread, binds: bool, c: Id)
    requires MayDo(s, th) && Orderly(s) && c in s.clients && s.clients[c].sweep.Removed?
    ensures var k := At(Next(cfg, s, Do(th, binds)).clients, c);
            k.Some? && k.value.sweep.Removed? && k.value.user == s.clients[c].user
  {
    assert ThreadOk(th, s.work[th], At(s.clients, OwnClient(th)));
    if AboutSocket(s.work[th]) {
      SocketUnlinking(s, th, Answered(cfg, s, s.work[th]), binds);
    } else {
      HttpUnlinking(cfg.inspect, s, th);
    }
    assert EffectOf(cfg, s, Do(th, binds)) == WorkEffect(cfg, s, th, binds);
  }

  lemma CallKeepsRemoved(cfg: Config, s: State, e: Step, c: Id)
    requires Enabled(s, e) && !e.Do? && Orderly(s) && c in s.clients && s.clients[c].sweep.Removed?
    ensures var k := At(Next(cfg, s, e).clients, c);
            k.Some? && k.value.sweep.Removed? && k.value.user == s.clients[c].user
  {
    if OfClose(e) {
      assert EffectOf(cfg, s, e) == SweepEffect(s, e) && e.c != c;
    } else {
      LoopKeepsRemoved(cfg, s, e, c);
    }
  }

  lemma LoopKeepsRemoved(cfg: Config, s: State, e: Step, c: Id)
    requires Enabled(s, e) && !e.Do? && !OfClose(e) && Orderly(s) && c in s.clients && s.clients[c].sweep.Removed?
    ensures var f := EffectOf(cfg, s, e);
            f.c == c ==> f.client.Some? && f.client.value.sweep.Removed? && f.client.value.user == s.clients[c].user
  {
  }

  lemma StrandedStays(cfg: Config, s: State, e: Step, c: Id)
    requires Enabled(s, e) && Stranded(s, c) && Orderly(s)
    ensures Stranded(Next(cfg, s, e), c)
  {
    RemovedStaysRemoved(cfg, s, e, c);
    IndexKeepsOthers(cfg, s, e, c);
  }
}
