/** The two merge loops behind client synchronisation (internal/database/user_bundle_repo.go,
    internal/database/user_settings_repo.go), one user at a time. */
module Sync {
  import opened Lww
  import opened Wrappers

  /** What a bundle says about a tunnel. */
  datatype Content = Content(kind: string, localPort: int, subdomain: string, remotePort: int, autoConnect: bool)

  datatype Bundle = Bundle(name: string, content: Content, created: Time, updated: Time)

  datatype Row = Row(id: nat, content: Content, created: Time, updated: Time)

  datatype Store = Store(rows: map<string, Row>, nextId: nat)

  /** A bundle and the clock when its turn comes. */
  datatype Arrival = Arrival(bundle: Bundle, now: Time)

  // ------------------------------------------------------------------------ bundles

  /** One round of SyncBulk: insert, update when strictly newer, or leave. A zero time is
      replaced by the clock on insertion only. */
  function Merge(st: Store, b: Bundle, now: Time): Store {
    if b.name !in st.rows then
      var row := Row(st.nextId, b.content, if b.created == 0 then now else b.created,
                     if b.updated == 0 then now else b.updated);
      Store(st.rows[b.name := row], st.nextId + 1)
    else if b.updated > st.rows[b.name].updated then
      st.(rows := st.rows[b.name := st.rows[b.name].(content := b.content, updated := b.updated)])
    else st
  }

  function MergeAll(st: Store, q: seq<Arrival>): Store
    decreases q
  {
    if q == [] then st else MergeAll(Merge(st, q[0].bundle, q[0].now), q[1..])
  }

  /** What clients read back: content and stamp of every bundle. */
  function Visible(st: Store): Table<Content> {
    map name | name in st.rows :: Version(st.rows[name].content, st.rows[name].updated)
  }

  function EntryOf(b: Bundle): Entry<Content> {
    Entry(b.name, Version(b.content, b.updated))
  }

  function Entries(q: seq<Arrival>): (es: seq<Entry<Content>>)
    ensures |es| == |q| && forall i :: 0 <= i < |q| ==> es[i] == EntryOf(q[i].bundle)
  {
    seq(|q|, i requires 0 <= i < |q| => EntryOf(q[i].bundle))
  }

  ghost predicate Stamped(q: seq<Arrival>) {
    forall i :: 0 <= i < |q| ==> q[i].bundle.updated != 0
  }

  /** On stamped bundles SyncBulk is the last-writer-wins merge, whatever the clock says. */
  lemma {:induction false} StampedMergeIsJoin(st: Store, q: seq<Arrival>)
    requires Stamped(q)
    ensures Visible(MergeAll(st, q)) == JoinAll(Visible(st), Entries(q))
    decreases q
  {
    if q != [] {
      var next := Merge(st, q[0].bundle, q[0].now);
      assert Visible(next) == Join(Visible(st), EntryOf(q[0].bundle));
      assert Entries(q)[1..] == Entries(q[1..]);
      StampedMergeIsJoin(next, q[1..]);
    }
  }

  /** Batching does not matter: two requests in a row are one long request. */
  lemma {:induction false} MergeAllConcat(st: Store, a: seq<Arrival>, b: seq<Arrival>)
    ensures MergeAll(st, a + b) == MergeAll(MergeAll(st, a), b)
    decreases a
  {
    if a == [] {
      assert a + b == b;
    } else {
      assert (a + b)[1..] == a[1..] + b;
      MergeAllConcat(Merge(st, a[0].bundle, a[0].now), a[1..], b);
    }
  }

  /** The same stamped bundles, in any order, with any repetition and at any times, leave the
      same content and stamps, provided equal stamps mean equal content. */
  lemma BundlesConverge(st: Store, a: seq<Arrival>, b: seq<Arrival>)
    requires Stamped(a) && Stamped(b) && SameElements(Entries(a), Entries(b)) && NoClash(Visible(st), Entries(a))
    ensures Visible(MergeAll(st, a)) == Visible(MergeAll(st, b))
  {
    StampedMergeIsJoin(st, a);
    StampedMergeIsJoin(st, b);
    JoinAllConverges(Visible(st), Entries(a), Entries(b));
  }

  /** A bundle keeps the id and creation time of its first insertion for ever. */
  lemma {:induction false} FirstInsertKept(st: Store, q: seq<Arrival>, name: string)
    requires name in st.rows
    ensures var r := MergeAll(st, q).rows;
            name in r && r[name].id == st.rows[name].id && r[name].created == st.rows[name].created
            && st.rows[name].updated <= r[name].updated
    decreases q
  {
    if q != [] {
      FirstInsertKept(Merge(st, q[0].bundle, q[0].now), q[1..], name);
    }
  }

  /** The first bundle of a name makes its row; its times are the clock where they are zero. */
  lemma {:induction false} FirstArrivalMakesRow(st: Store, q: seq<Arrival>, name: string, i: nat)
    requires name !in st.rows && i < |q| && q[i].bundle.name == name
    requires forall j :: 0 <= j < i ==> q[j].bundle.name != name
    ensures var r, first := MergeAll(st, q).rows, q[i].bundle;
            && name in r && r[name].created == (if first.created == 0 then q[i].now else first.created)
            && r[name].updated >= if first.updated == 0 then q[i].now else first.updated
    decreases q
  {
    var next := Merge(st, q[0].bundle, q[0].now);
    if i == 0 {
      FirstInsertKept(next, q[1..], name);
    } else {
      FirstArrivalMakesRow(next, q[1..], name, i - 1);
    }
  }

  /** Row numbers are never given twice. */
  ghost predicate IdsDiffer(st: Store) {
    && (forall n :: n in st.rows ==> st.rows[n].id < st.nextId)
    && forall n, m :: n in st.rows && m in st.rows && st.rows[n].id == st.rows[m].id ==> n == m
  }

  lemma {:induction false} IdsStayDifferent(st: Store, q: seq<Arrival>)
    requires IdsDiffer(st)
    ensures IdsDiffer(MergeAll(st, q)) && MergeAll(st, q).nextId == st.nextId + |MergeAll(st, q).rows| - |st.rows|
    decreases q
  {
    if q != [] {
      var next := Merge(st, q[0].bundle, q[0].now);
      assert IdsDiffer(next) && next.nextId == st.nextId + |next.rows| - |st.rows|;
      IdsStayDifferent(next, q[1..]);
    }
  }

  // -------------------------------------------------- bundles without a time stamp

  /** The bundles at one clock. */
  function AllAt(now: Time, bs: seq<Bundle>): (q: seq<Arrival>)
    ensures |q| == |bs| && forall i :: 0 <= i < |bs| ==> q[i] == Arrival(bs[i], now)
  {
    seq(|bs|, i requires 0 <= i < |bs| => Arrival(bs[i], now))
  }

  const EMPTY := Store(map[], 0)

  lemma MergeOfTwo(st: Store, a: Arrival, b: Arrival)
    ensures MergeAll(st, [a, b]) == Merge(Merge(st, a.bundle, a.now), b.bundle, b.now)
  {
    assert [a, b][1..] == [b];
    assert MergeAll(st, [a, b]) == MergeAll(Merge(st, a.bundle, a.now), [b]);
    assert [b][1..] == [];
  }

  /** With a clock at 5, an unstamped bundle and one stamped 3 end differently in the two
      orders: whichever comes first stays. */
  lemma UnstampedOrderMatters(x: Content, y: Content)
    requires x != y
    ensures var a, b := Bundle("web", x, 1, 0), Bundle("web", y, 1, 3);
            && Visible(MergeAll(EMPTY, AllAt(5, [a, b]))) == map["web" := Version(x, 5)]
            && Visible(MergeAll(EMPTY, AllAt(5, [b, a]))) == map["web" := Version(y, 3)]
  {
    var a, b := Bundle("web", x, 1, 0), Bundle("web", y, 1, 3);
    assert AllAt(5, [a, b]) == [Arrival(a, 5), Arrival(b, 5)] && AllAt(5, [b, a]) == [Arrival(b, 5), Arrival(a, 5)];
    MergeOfTwo(EMPTY, Arrival(a, 5), Arrival(b, 5));
    MergeOfTwo(EMPTY, Arrival(b, 5), Arrival(a, 5));
  }

  /** The bundle of this arrival is one of those named `name`. */
  predicate Named(r: Arrival, name: string) {
    r.bundle.name == name
  }

  /** q delivers exactly these bundles, in some order, some of them more than once, while the clock
      goes on from `from`. */
  ghost predicate Delivers(q: seq<Arrival>, bs: seq<Bundle>, from: Time) {
    && (forall i, j :: 0 <= i < j < |q| ==> q[i].now <= q[j].now)
    && (forall r :: r in q ==> from <= r.now && r.bundle in bs)
    && (forall b :: b in bs ==> exists r :: r in q && r.bundle == b)
  }

  /** Every delivery of the bundles leaves the same content and stamps. */
  ghost predicate Converges(st: Store, bs: seq<Bundle>, from: Time) {
    forall p, q :: Delivers(p, bs, from) && Delivers(q, bs, from) ==>
        Visible(MergeAll(st, p)) == Visible(MergeAll(st, q))
  }

  /** No bundle of the name has a later stamp than r. */
  predicate IsNewest(bs: seq<Bundle>, name: string, r: Bundle) {
    r in bs && r.name == name && forall x :: x in bs && x.name == name ==> x.updated <= r.updated
  }

  ghost predicate NewestAgree(bs: seq<Bundle>, name: string) {
    forall r, w :: IsNewest(bs, name, r) && IsNewest(bs, name, w) ==> r.content == w.content
  }

  /** The test a caller can make for a name before sending: with a row there, nothing is newer than
      it or the newest bundles agree; without one, every bundle is stamped and the newest agree. */
  ghost predicate Settled(st: Store, bs: seq<Bundle>, name: string) {
    if name in st.rows then
      (forall r :: r in bs && r.name == name ==> r.updated <= st.rows[name].updated) || NewestAgree(bs, name)
    else
      (forall r :: r in bs && r.name == name ==> r.updated != 0) && NewestAgree(bs, name)
  }

  /** A row with the greatest stamp is never replaced. */
  lemma {:induction false} GreatestStays(st: Store, q: seq<Arrival>, name: string)
    requires name in st.rows && forall r :: r in q && Named(r, name) ==> r.bundle.updated <= st.rows[name].updated
    ensures name in MergeAll(st, q).rows && MergeAll(st, q).rows[name] == st.rows[name]
    decreases q
  {
    if q != [] {
      assert q == [q[0]] + q[1..];
      GreatestStays(Merge(st, q[0].bundle, q[0].now), q[1..], name);
    }
  }

  /** From no row, an older row or its own, the version that is newer than all others remains. */
  lemma {:induction false} WinnerStays(st: Store, q: seq<Arrival>, name: string, w: Version<Content>)
    requires forall r :: r in q && Named(r, name) ==> EntryOf(r.bundle).version == w || r.bundle.updated < w.updated
    requires name in st.rows ==> Visible(st)[name] == w || st.rows[name].updated < w.updated
    requires name !in st.rows ==> forall r :: r in q && Named(r, name) ==> r.bundle.updated != 0
    requires (name in st.rows && Visible(st)[name] == w)
        || exists r :: r in q && Named(r, name) && EntryOf(r.bundle).version == w
    ensures var v := Visible(MergeAll(st, q)); name in v && v[name] == w
    decreases q
  {
    if q != [] {
      var b := q[0].bundle;
      assert q == [q[0]] + q[1..];
      var next := Merge(st, b, q[0].now);
      assert b.name != name ==>
          (name in next.rows <==> name in st.rows) && (name in st.rows ==> next.rows[name] == st.rows[name]);
      WinnerStays(next, q[1..], name, w);
    }
  }

  lemma {:induction false} Greatest(bs: seq<Bundle>, name: string) returns (w: Bundle)
    requires exists r :: r in bs && r.name == name
    ensures IsNewest(bs, name, w)
    decreases bs
  {
    assert bs == [bs[0]] + bs[1..];
    if exists r :: r in bs[1..] && r.name == name {
      w := Greatest(bs[1..], name);
      if bs[0].name == name && bs[0].updated > w.updated { w := bs[0]; }
    } else {
      w := bs[0];
    }
  }

  /** A name nobody sends keeps its row, or its absence. */
  lemma {:induction false} UnsentStays(st: Store, q: seq<Arrival>, name: string)
    requires forall r :: r in q ==> !Named(r, name)
    ensures name in MergeAll(st, q).rows <==> name in st.rows
    ensures name in st.rows ==> MergeAll(st, q).rows[name] == st.rows[name]
    decreases q
  {
    if q != [] {
      assert q == [q[0]] + q[1..];
      assert !Named(q[0], name);
      UnsentStays(Merge(st, q[0].bundle, q[0].now), q[1..], name);
    }
  }

  /** What every delivery leaves under a settled name that is sent. */
  lemma SettledOutcome(st: Store, bs: seq<Bundle>, q: seq<Arrival>, from: Time, name: string, w: Bundle)
    requires Delivers(q, bs, from) && Settled(st, bs, name) && IsNewest(bs, name, w)
    ensures var v := Visible(MergeAll(st, q));
            name in v && v[name] == if name in st.rows && w.updated <= st.rows[name].updated then Visible(st)[name]
                                    else EntryOf(w).version
  {
    if name in st.rows && w.updated <= st.rows[name].updated {
      GreatestStays(st, q, name);
    } else {
      forall r | r in q && Named(r, name)
        ensures EntryOf(r.bundle).version == EntryOf(w).version || r.bundle.updated < w.updated
      {
        if r.bundle.updated == w.updated { assert IsNewest(bs, name, r.bundle); }
      }
      var r :| r in q && r.bundle == w;
      assert Named(r, name) && EntryOf(r.bundle).version == EntryOf(w).version;
      WinnerStays(st, q, name, EntryOf(w).version);
    }
  }

  lemma SettledName(st: Store, bs: seq<Bundle>, p: seq<Arrival>, q: seq<Arrival>, from: Time, name: string)
    requires Delivers(p, bs, from) && Delivers(q, bs, from) && forall b :: b in bs ==> Settled(st, bs, b.name)
    ensures var u, v := Visible(MergeAll(st, p)), Visible(MergeAll(st, q));
            (name in u <==> name in v) && (name in u ==> u[name] == v[name])
  {
    if b :| b in bs && b.name == name {
      var w := Greatest(bs, name);
      SettledOutcome(st, bs, p, from, name, w);
      SettledOutcome(st, bs, q, from, name, w);
    } else {
      UnsentStays(st, p, name);
      UnsentStays(st, q, name);
    }
  }

  lemma SettledConverges(st: Store, bs: seq<Bundle>, from: Time)
    requires forall b :: b in bs ==> Settled(st, bs, b.name)
    ensures Converges(st, bs, from)
  {
    forall p, q | Delivers(p, bs, from) && Delivers(q, bs, from)
      ensures Visible(MergeAll(st, p)) == Visible(MergeAll(st, q))
    {
      var u, v := Visible(MergeAll(st, p)), Visible(MergeAll(st, q));
      forall name ensures (name in u <==> name in v) && (name in u ==> u[name] == v[name]) {
        SettledName(st, bs, p, q, from, name);
      }
    }
  }

  /** The delivery that starts with bundle b and has the clock stand still. */
  function StartingWith(b: Bundle, bs: seq<Bundle>, now: Time): seq<Arrival> {
    AllAt(now, [b] + bs)
  }

  lemma StartingDelivers(b: Bundle, bs: seq<Bundle>, now: Time, from: Time)
    requires b in bs && from <= now
    ensures Delivers(StartingWith(b, bs, now), bs, from)
  {
    var q := StartingWith(b, bs, now);
    forall x | x in bs ensures exists r :: r in q && r.bundle == x {
      var i :| 0 <= i < |bs| && bs[i] == x;
      assert q[i + 1] == Arrival(x, now) && q[i + 1] in q;
    }
  }

  /** What such a delivery leaves when b is written and nothing is newer than what is written. */
  lemma StartingOutcome(st: Store, b: Bundle, bs: seq<Bundle>, now: Time)
    requires b.name in st.rows ==> b.updated > st.rows[b.name].updated
    requires forall r :: r in bs && r.name == b.name ==> r.updated <= if b.updated == 0 then now else b.updated
    ensures var v := Visible(MergeAll(st, StartingWith(b, bs, now)));
            b.name in v && v[b.name] == Version(b.content, if b.updated == 0 then now else b.updated)
  {
    assert StartingWith(b, bs, now)[1..] == AllAt(now, bs);
    GreatestStays(Merge(st, b, now), AllAt(now, bs), b.name);
  }

  /** Without a row, an unstamped bundle takes whatever stamp the clock gives it. */
  lemma UnstampedDiverges(st: Store, bs: seq<Bundle>, from: Time, b: Bundle)
    requires b in bs && b.name !in st.rows && b.updated == 0
    ensures !Converges(st, bs, from)
  {
    var w := Greatest(bs, b.name);
    var now := from + w.updated + 1;
    StartingDelivers(b, bs, now, from);
    StartingDelivers(b, bs, now + 1, from);
    StartingOutcome(st, b, bs, now);
    StartingOutcome(st, b, bs, now + 1);
  }

  lemma ConvergentIsSettled(st: Store, bs: seq<Bundle>, from: Time, name: string)
    requires Converges(st, bs, from) && exists b :: b in bs && b.name == name
    ensures Settled(st, bs, name)
  {
    if name !in st.rows {
      forall r | r in bs && r.name == name ensures r.updated != 0 {
        if r.updated == 0 { UnstampedDiverges(st, bs, from, r); }
      }
    }
    if name !in st.rows || exists r :: r in bs && r.name == name && r.updated > st.rows[name].updated {
      forall r, w | IsNewest(bs, name, r) && IsNewest(bs, name, w) ensures r.content == w.content {
        StartingDelivers(r, bs, from, from);
        StartingDelivers(w, bs, from, from);
        StartingOutcome(st, r, bs, from);
        StartingOutcome(st, w, bs, from);
      }
    }
  }

  /** Bundles converge over every order, repetition and course of the clock exactly when every name
      that is sent passes the test, which does not depend on the clock. */
  lemma ConvergesIffSettled(st: Store, bs: seq<Bundle>, from: Time)
    ensures Converges(st, bs, from) <==> forall b :: b in bs ==> Settled(st, bs, b.name)
  {
    if forall b :: b in bs ==> Settled(st, bs, b.name) {
      SettledConverges(st, bs, from);
    }
    if Converges(st, bs, from) {
      forall b | b in bs ensures Settled(st, bs, b.name) {
        ConvergentIsSettled(st, bs, from, b.name);
      }
    }
  }

  // ----------------------------------------------------------------------- settings

  /** One round of the settings loop: `old'` is the table as it was read before the loop. */
  function Upsert(old': Table<string>, t: Table<string>, e: Entry<string>): Table<string> {
    if e.key in old' && e.version.updated <= old'[e.key].updated then t else t[e.key := e.version]
  }

  function UpsertAll(old': Table<string>, t: Table<string>, es: seq<Entry<string>>): Table<string>
    decreases es
  {
    if es == [] then t else UpsertAll(old', Upsert(old', t, es[0]), es[1..])
  }

  ghost predicate DistinctKeys(es: seq<Entry<string>>) {
    forall i, j :: 0 <= i < j < |es| ==> es[i].key != es[j].key
  }

  lemma {:induction false} UpsertIsJoin(old': Table<string>, t: Table<string>, es: seq<Entry<string>>)
    requires DistinctKeys(es)
    requires forall e :: e in es ==> (e.key in t <==> e.key in old') && (e.key in t ==> t[e.key] == old'[e.key])
    ensures UpsertAll(old', t, es) == JoinAll(t, es)
    decreases es
  {
    if es != [] {
      forall e | e in es[1..] ensures e.key != es[0].key {
        var i :| 0 <= i < |es[1..]| && es[1..][i] == e;
        assert es[i + 1] == e;
      }
      UpsertIsJoin(old', Upsert(old', t, es[0]), es[1..]);
    }
  }

  /** One request with distinct keys is the last-writer-wins merge. */
  lemma SettingsRequestIsJoin(t: Table<string>, es: seq<Entry<string>>)
    requires DistinctKeys(es)
    ensures UpsertAll(t, t, es) == JoinAll(t, es)
  {
    UpsertIsJoin(t, t, es);
  }

  /** The entry is for the key and newer than the row the request found. */
  predicate NewerThanRow(t: Table<string>, e: Entry<string>, key: string) {
    e.key == key && (key in t ==> e.version.updated > t[key].updated)
  }

  /** The last entry newer than the row: the one the loop leaves. */
  ghost predicate IsLast(t: Table<string>, es: seq<Entry<string>>, key: string, i: int) {
    && 0 <= i < |es| && NewerThanRow(t, es[i], key)
    && forall k :: i < k < |es| ==> !NewerThanRow(t, es[k], key)
  }

  /** The first entry with the greatest stamp: the one the merge leaves. */
  ghost predicate IsFirstNewest(t: Table<string>, es: seq<Entry<string>>, key: string, j: int) {
    && 0 <= j < |es| && NewerThanRow(t, es[j], key)
    && (forall k :: 0 <= k < |es| && NewerThanRow(t, es[k], key) ==> es[k].version.updated <= es[j].version.updated)
    && (forall k :: 0 <= k < j && NewerThanRow(t, es[k], key) ==> es[k].version.updated < es[j].version.updated)
  }

  ghost predicate NoneNewer(t: Table<string>, es: seq<Entry<string>>, key: string) {
    forall k :: 0 <= k < |es| ==> !NewerThanRow(t, es[k], key)
  }

  lemma {:induction false} UpsertAllConcat(old': Table<string>, t: Table<string>, a: seq<Entry<string>>,
                                           b: seq<Entry<string>>)
    ensures UpsertAll(old', t, a + b) == UpsertAll(old', UpsertAll(old', t, a), b)
    decreases a
  {
    if a == [] {
      assert a + b == b;
    } else {
      assert (a + b)[1..] == a[1..] + b;
      UpsertAllConcat(old', Upsert(old', t, a[0]), a[1..], b);
    }
  }

  lemma LastUpsert(t: Table<string>, es: seq<Entry<string>>, e: Entry<string>)
    ensures UpsertAll(t, t, es + [e]) == Upsert(t, UpsertAll(t, t, es), e)
  {
    UpsertAllConcat(t, t, es, [e]);
    assert [e][1..] == [];
  }

  lemma LastJoin(t: Table<string>, es: seq<Entry<string>>, e: Entry<string>)
    ensures JoinAll(t, es + [e]) == Join(JoinAll(t, es), e)
  {
    JoinAllConcat(t, es, [e]);
    assert [e][1..] == [];
  }

  /** The settings loop leaves, for each key, the last entry newer than the row it found. */
  lemma {:induction false} RequestKeepsLast(t: Table<string>, es: seq<Entry<string>>, key: string) returns (i: int)
    ensures if i >= 0 then IsLast(t, es, key, i) else NoneNewer(t, es, key)
    ensures Lookup(UpsertAll(t, t, es), key) == if i >= 0 then Some(es[i].version) else Lookup(t, key)
    decreases es
  {
    i := -1;
    if es != [] {
      var n := |es| - 1;
      assert es == es[..n] + [es[n]];
      i := RequestKeepsLast(t, es[..n], key);
      LastUpsert(t, es[..n], es[n]);
      if NewerThanRow(t, es[n], key) { i := n; }
    }
  }

  /** The merge leaves, for each key, the first entry of the greatest stamp newer than the row. */
  lemma {:induction false} MergeKeepsNewest(t: Table<string>, es: seq<Entry<string>>, key: string) returns (j: int)
    ensures if j >= 0 then IsFirstNewest(t, es, key, j) else NoneNewer(t, es, key)
    ensures Lookup(JoinAll(t, es), key) == if j >= 0 then Some(es[j].version) else Lookup(t, key)
    decreases es
  {
    j := -1;
    if es != [] {
      var n := |es| - 1;
      assert es == es[..n] + [es[n]];
      j := MergeKeepsNewest(t, es[..n], key);
      LastJoin(t, es[..n], es[n]);
      if NewerThanRow(t, es[n], key) && (j < 0 || es[n].version.updated > es[j].version.updated) { j := n; }
    }
  }

  /** For the key, the last of the entries newer than the row has the first newest one's version. */
  ghost predicate LastIsNewest(t: Table<string>, es: seq<Entry<string>>, key: string) {
    forall i, j :: IsLast(t, es, key, i) && IsFirstNewest(t, es, key, j) ==> es[i].version == es[j].version
  }

  /** One settings request, keys repeated or not, is the last-writer-wins merge exactly when for
      every key the last entry that is newer than the row is also the newest. */
  lemma RequestIsJoinIff(t: Table<string>, es: seq<Entry<string>>)
    ensures UpsertAll(t, t, es) == JoinAll(t, es) <==> forall key :: LastIsNewest(t, es, key)
  {
    var u, m := UpsertAll(t, t, es), JoinAll(t, es);
    forall key ensures Lookup(u, key) == Lookup(m, key) <==> LastIsNewest(t, es, key) {
      var i := RequestKeepsLast(t, es, key);
      var j := MergeKeepsNewest(t, es, key);
      forall i' | IsLast(t, es, key, i') ensures i' == i { }
      forall j' | IsFirstNewest(t, es, key, j') ensures j' == j { }
    }
    if forall key :: LastIsNewest(t, es, key) {
      forall key ensures (key in u <==> key in m) && (key in u ==> u[key] == m[key]) {
        assert Lookup(u, key) == Lookup(m, key);
      }
    } else {
      var key :| !LastIsNewest(t, es, key);
      assert Lookup(u, key) != Lookup(m, key);
    }
  }

  /** An instance: "dark" of time 2 before "light" of time 1 ends light. */
  lemma RepeatedSettingLosesNewest()
    ensures var es := [Entry("theme", Version("dark", 2)), Entry("theme", Version("light", 1))];
            UpsertAll(map[], map[], es) == map["theme" := Version("light", 1)]
            && JoinAll(map[], es) == map["theme" := Version("dark", 2)]
  {
    var a, b := Entry("theme", Version("dark", 2)), Entry("theme", Version("light", 1));
    LastUpsert(map[], [a], b);
    LastJoin(map[], [a], b);
    assert [a] + [b] == [a, b];
  }

  /** A series of settings requests. */
  function Requests(t: Table<string>, rs: seq<seq<Entry<string>>>): Table<string>
    decreases rs
  {
    if rs == [] then t else Requests(UpsertAll(t, t, rs[0]), rs[1..])
  }

  function Flat(rs: seq<seq<Entry<string>>>): seq<Entry<string>> {
    if rs == [] then [] else rs[0] + Flat(rs[1..])
  }

  lemma {:induction false} RequestsAreJoin(t: Table<string>, rs: seq<seq<Entry<string>>>)
    requires forall r :: r in rs ==> DistinctKeys(r)
    ensures Requests(t, rs) == JoinAll(t, Flat(rs))
    decreases rs
  {
    if rs != [] {
      SettingsRequestIsJoin(t, rs[0]);
      RequestsAreJoin(UpsertAll(t, t, rs[0]), rs[1..]);
      JoinAllConcat(t, rs[0], Flat(rs[1..]));
    }
  }

  /** Settings converge like bundles, however the same entries are cut into such requests. */
  lemma SettingsConverge(t: Table<string>, a: seq<seq<Entry<string>>>, b: seq<seq<Entry<string>>>)
    requires (forall r :: r in a ==> DistinctKeys(r)) && (forall r :: r in b ==> DistinctKeys(r))
    requires SameElements(Flat(a), Flat(b)) && NoClash(t, Flat(a))
    ensures Requests(t, a) == Requests(t, b)
  {
    RequestsAreJoin(t, a);
    RequestsAreJoin(t, b);
    JoinAllConverges(t, Flat(a), Flat(b));
  }

  // ------------------------------------------------------------------- repositories

  class BundleRepository {
    var rows: map<string, Row>
    var nextId: nat

    function Contents(): Store
      reads this
    {
      Store(rows, nextId)
    }

    /** SyncBulk for one user; `clock` is what time.Now() gives in each round. */
    method SyncBulk(bundles: seq<Bundle>, clock: seq<Time>)
      requires |clock| == |bundles|
      modifies this
      ensures Contents() == MergeAll(old(Contents()), Arrivals(bundles, clock))
    {
      ghost var goal := MergeAll(Contents(), Arrivals(bundles, clock));
      var i := 0;
      while i < |bundles|
        invariant 0 <= i <= |bundles|
        invariant MergeAll(Contents(), Arrivals(bundles, clock)[i..]) == goal
      {
        var b, now := bundles[i], clock[i];
        assert Arrivals(bundles, clock)[i..][1..] == Arrivals(bundles, clock)[i + 1..];
        if b.name !in rows {
          rows := rows[b.name := Row(nextId, b.content, if b.created == 0 then now else b.created,
                                     if b.updated == 0 then now else b.updated)];
          nextId := nextId + 1;
        } else if b.updated > rows[b.name].updated {
          rows := rows[b.name := rows[b.name].(content := b.content, updated := b.updated)];
        }
        i := i + 1;
      }
    }
  }

  function Arrivals(bundles: seq<Bundle>, clock: seq<Time>): (q: seq<Arrival>)
    requires |clock| == |bundles|
    ensures |q| == |bundles| && forall i :: 0 <= i < |q| ==> q[i] == Arrival(bundles[i], clock[i])
  {
    seq(|bundles|, i requires 0 <= i < |bundles| => Arrival(bundles[i], clock[i]))
  }

  class SettingsRepository {
    var settings: Table<string>

    /** SyncBulk: read the table once, then upsert what is newer than what was read. */
    method SyncBulk(incoming: seq<Entry<string>>)
      modifies this
      ensures settings == UpsertAll(old(settings), old(settings), incoming)
    {
      var existing := settings;
      var i := 0;
      while i < |incoming|
        invariant 0 <= i <= |incoming|
        invariant UpsertAll(existing, settings, incoming[i..]) == UpsertAll(existing, existing, incoming)
      {
        var e := incoming[i];
        assert incoming[i..][1..] == incoming[i + 1..];
        i := i + 1;
        if e.key in existing && e.version.updated <= existing[e.key].updated {
          continue;
        }
        settings := settings[e.key := e.version];
      }
    }
  }
}
