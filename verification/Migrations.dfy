/** Running the database's migrations at every start of the server (internal/database/database.go).
    A crash is a limit on the durable writes a start gets to make: the tracking table, one row of
    the bootstrap, or one migration together with its row. */
module Migrations {

  /** `executed` lists the migrations that were committed, in the order they ran. */
  datatype Db = Db(tracking: bool, users: bool, recorded: set<nat>, executed: seq<nat>)

  const EMPTY := Db(false, false, {}, [])

  /** One start: how many migrations its binary has, which of them fail, and after how many writes
      it is cut off. The list is append-only, so a version number names a migration for good. */
  datatype Start = Start(count: nat, broken: set<nat>, writes: nat)

  // ------------------------------------------------------------------ specification

  function Bootstrapped(db: Db, count: nat, version: nat, writes: nat): Db
    decreases writes
  {
    if version > count || writes == 0 then db
    else Bootstrapped(db.(recorded := db.recorded + {version}), count, version + 1, writes - 1)
  }

  /** The first migration creates the users table. */
  function Committed(db: Db, version: nat): Db {
    db.(users := db.users || version == 1, recorded := db.recorded + {version}, executed := db.executed + [version])
  }

  function Migrated(db: Db, s: Start, version: nat, writes: nat): Db
    decreases s.count + 1 - version
  {
    if version > s.count then db
    else if version in db.recorded then Migrated(db, s, version + 1, writes)
    else if version in s.broken || writes == 0 then db
    else Migrated(Committed(db, version), s, version + 1, writes - 1)
  }

  /** A database with users but without a recorded version is taken for one that was made before
      versions were recorded. */
  predicate LooksUntracked(db: Db) {
    db.users && db.recorded == {}
  }

  function AfterStart(db: Db, s: Start): Db {
    if s.writes == 0 then db
    else
      var tracked := db.(tracking := true);
      if LooksUntracked(db) then Bootstrapped(tracked, s.count, 1, s.writes - 1)
      else Migrated(tracked, s, 1, s.writes - 1)
  }

  function AfterStarts(db: Db, starts: seq<Start>): Db
    decreases starts
  {
    if starts == [] then db else AfterStarts(AfterStart(db, starts[0]), starts[1..])
  }

  class Database {
    var tracking: bool
    var users: bool
    var recorded: set<nat>
    ghost var executed: seq<nat>

    ghost function Contents(): Db
      reads this
    {
      Db(tracking, users, recorded, executed)
    }

    method Migrate(s: Start)
      modifies this
      ensures Contents() == AfterStart(old(Contents()), s)
    {
      if s.writes == 0 {
        return;
      }
      var left := s.writes - 1;
      tracking := true;
      ghost var goal := AfterStart(old(Contents()), s);
      if users && recorded == {} {
        var i := 1;
        while i <= s.count && left > 0
          invariant 1 <= i && left >= 0
          invariant Bootstrapped(Contents(), s.count, i, left) == goal
          decreases left
        {
          recorded := recorded + {i};
          i, left := i + 1, left - 1;
        }
        return;
      }
      for version := 1 to s.count + 1
        invariant left >= 0
        invariant Migrated(Contents(), s, version, left) == goal
      {
        if version in recorded {
          continue;
        }
        if version in s.broken || left == 0 {
          return;
        }
        users := users || version == 1;
        recorded := recorded + {version};
        executed := executed + [version];
        left := left - 1;
      }
    }
  }

  // ---------------------------------------------------------- starting from nothing

  function UpTo(k: nat): (s: set<nat>)
    ensures forall v: nat :: v in s <==> 1 <= v <= k
  {
    if k == 0 then {} else UpTo(k - 1) + {k}
  }

  /** The versions i + 1, ..., k. */
  function Versions(i: nat, k: nat): seq<nat>
    requires i <= k
  {
    seq(k - i, j requires 0 <= j => i + 1 + j)
  }

  /** The versions 1..k are recorded, and the migrations i + 1..k of them have run, once each and in
      order. */
  predicate RunFrom(db: Db, i: nat, k: nat) {
    i <= k && db.recorded == UpTo(k) && db.executed == Versions(i, k) && (db.users <==> k >= 1)
  }

  predicate InOrder(db: Db, k: nat) {
    RunFrom(db, 0, k)
  }

  /** A start carries on after the last migration that was committed. */
  lemma {:induction false} MigratedInOrder(db: Db, s: Start, version: nat, writes: nat, i: nat, k: nat)
      returns (k': nat)
    requires RunFrom(db, i, k) && 1 <= version <= k + 1
    ensures RunFrom(Migrated(db, s, version, writes), i, k') && k <= k'
    ensures (s.count <= k || (s.broken == {} && writes >= s.count - k)) ==> k' >= s.count
    decreases s.count + 1 - version
  {
    if version > s.count || (version !in db.recorded && (version in s.broken || writes == 0)) {
      k' := k;
    } else if version in db.recorded {
      k' := MigratedInOrder(db, s, version + 1, writes, i, k);
    } else {
      assert Versions(i, k) + [version] == Versions(i, k + 1);
      assert UpTo(k) + {version} == UpTo(k + 1);
      k' := MigratedInOrder(Committed(db, version), s, version + 1, writes - 1, i, k + 1);
    }
  }

  lemma {:induction false} StartsKeepOrder(db: Db, starts: seq<Start>, i: nat, k: nat) returns (k': nat)
    requires RunFrom(db, i, k)
    ensures RunFrom(AfterStarts(db, starts), i, k') && k <= k'
    decreases starts
  {
    if starts == [] {
      k' := k;
    } else {
      var j := k;
      if starts[0].writes > 0 {
        assert 1 in UpTo(k) <==> k >= 1;
        j := MigratedInOrder(db.(tracking := true), starts[0], 1, starts[0].writes - 1, i, k);
      }
      k' := StartsKeepOrder(AfterStart(db, starts[0]), starts[1..], i, j);
    }
  }

  /** From an empty database, over any number of starts cut off anywhere and with any failing
      migrations: the recorded versions are a prefix 1..k, each has run exactly once in order, and
      no start takes the database for an untracked one. */
  lemma MigrationsRunOnceInOrder(starts: seq<Start>) returns (k: nat)
    ensures InOrder(AfterStarts(EMPTY, starts), k)
    ensures !LooksUntracked(AfterStarts(EMPTY, starts))
  {
    assert Versions(0, 0) == [] && UpTo(0) == {};
    k := StartsKeepOrder(EMPTY, starts, 0, 0);
    assert 1 in UpTo(k) <==> k >= 1;
  }

  /** A start that is not cut off and meets no failing migration brings the database up to date. */
  lemma FullStartCatchesUp(starts: seq<Start>, last: Start)
    requires last.broken == {} && last.writes > last.count
    ensures UpTo(last.count) <= AfterStart(AfterStarts(EMPTY, starts), last).recorded
    ensures Versions(0, last.count) <= AfterStart(AfterStarts(EMPTY, starts), last).executed
  {
    var k := MigrationsRunOnceInOrder(starts);
    var db := AfterStarts(EMPTY, starts);
    var k' := MigratedInOrder(db.(tracking := true), last, 1, last.writes - 1, 0, k);
    assert Versions(0, k')[..last.count] == Versions(0, last.count);
  }

  // ------------------------------------------------------- databases without tracking

  lemma {:induction false} BootstrapRecords(db: Db, count: nat, version: nat, writes: nat)
    requires 1 <= version <= count + 1
    ensures var done := if version - 1 + writes < count then version - 1 + writes else count;
            Bootstrapped(db, count, version, writes) == db.(recorded := db.recorded + (UpTo(done) - UpTo(version - 1)))
    decreases writes
  {
    var done := if version - 1 + writes < count then version - 1 + writes else count;
    if version > count || writes == 0 {
      assert UpTo(done) - UpTo(version - 1) == {};
    } else {
      BootstrapRecords(db.(recorded := db.recorded + {version}), count, version + 1, writes - 1);
      assert {version} + (UpTo(done) - UpTo(version)) == UpTo(done) - UpTo(version - 1);
    }
  }

  /** The bootstrap rows that a start writes into an untracked database. */
  function Rows(s: Start): nat {
    if s.writes == 0 then 0 else if s.writes - 1 < s.count then s.writes - 1 else s.count
  }

  /** How many versions are recorded without being run: the rows that the first start to get as far
      writes into an untracked database. */
  function RowsBooted(starts: seq<Start>): nat
    decreases starts
  {
    if starts == [] then 0
    else if Rows(starts[0]) > 0 then Rows(starts[0])
    else RowsBooted(starts[1..])
  }

  /** Over any number of starts of an untracked database, cut off anywhere and with any failing
      migrations: after the rows of the bootstrap every recorded version has run, once and in order. */
  lemma {:induction false} UntrackedRunsTheRest(tracking: bool, starts: seq<Start>) returns (k: nat)
    ensures var db := AfterStarts(Db(tracking, true, {}, []), starts);
            var i := RowsBooted(starts);
            i <= k && db.recorded == UpTo(k) && db.executed == Versions(i, k)
    decreases starts
  {
    if starts == [] {
      k := 0;
      assert UpTo(0) == {} && Versions(0, 0) == [];
    } else {
      var s, rows := starts[0], Rows(starts[0]);
      var db := Db(tracking || s.writes > 0, true, UpTo(rows), []);
      assert UpTo(0) == {} && Versions(rows, rows) == [];
      if s.writes > 0 { BootstrapRecords(Db(true, true, {}, []), s.count, 1, s.writes - 1); }
      assert AfterStart(Db(tracking, true, {}, []), s) == db;
      if rows == 0 {
        k := UntrackedRunsTheRest(db.tracking, starts[1..]);
      } else {
        k := StartsKeepOrder(db, starts[1..], rows, rows);
      }
    }
  }

  /** An untracked database whose schema had the migrations `had`: a recorded version has run, before
      the tracking or after, exactly when the schema had it or it is above the rows of the bootstrap.
      So all of them have exactly when the schema had every version that was recorded unseen. */
  lemma RecordedHasRunIff(had: set<nat>, tracking: bool, starts: seq<Start>)
    ensures var db := AfterStarts(Db(tracking, true, {}, []), starts);
            && (forall v: nat :: v in db.recorded ==>
                  (v in had || v in db.executed <==> v in had || v > RowsBooted(starts)))
            && ((forall v: nat :: v in db.recorded ==> v in had || v in db.executed) <==>
                  UpTo(RowsBooted(starts)) <= had)
  {
    var k := UntrackedRunsTheRest(tracking, starts);
    var i := RowsBooted(starts);
    forall v: nat ensures v in Versions(i, k) <==> i < v <= k {
      if i < v <= k { assert Versions(i, k)[v - i - 1] == v; }
    }
    assert forall v: nat :: v in UpTo(i) ==> v in UpTo(k) && v !in Versions(i, k);
  }

  /** Where a start that is not cut off stops, going up from version i: at its last migration or
      just below the first one that fails. */
  predicate StopsAt(s: Start, i: nat, m: nat) {
    i <= m <= s.count && (forall v: nat :: i < v <= m ==> v !in s.broken) && (m == s.count || m + 1 in s.broken)
  }

  lemma {:induction false} MigratesTheRest(db: Db, s: Start, version: nat, writes: nat, i: nat) returns (m: nat)
    requires db.users && i <= s.count && 1 <= version <= i + 1 && db.recorded == UpTo(i) && writes >= s.count - i
    ensures StopsAt(s, i, m)
    ensures Migrated(db, s, version, writes) == db.(recorded := UpTo(m), executed := db.executed + Versions(i, m))
    decreases s.count + 1 - version
  {
    if version > s.count || (version !in db.recorded && version in s.broken) {
      m := i;
      assert Versions(i, i) == [] && version == i + 1;
    } else if version in db.recorded {
      m := MigratesTheRest(db, s, version + 1, writes, i);
    } else {
      assert UpTo(i) + {version} == UpTo(version);
      m := MigratesTheRest(Committed(db, version), s, version + 1, writes - 1, version);
      assert Versions(i, m) == [version] + Versions(version, m);
    }
  }

  /** A database that was complete before versions were recorded: what an undisturbed start runs
      again after a first start that was cut off when i of the n bootstrap rows were written.
      Nothing when i is 0 or n; otherwise migrations i + 1..m, up to the first one that cannot be
      run twice. So it is nothing exactly when i is 0 or n or migration i + 1 fails. */
  lemma CutBootstrapRepeats(n: nat, i: nat, tracking: bool, broken: set<nat>, writes: nat) returns (m: nat)
    requires i <= n && writes > n
    ensures var legacy := Db(tracking, true, {}, []);
            var first := AfterStart(legacy, Start(n, {}, i + 1));
            var second := AfterStart(first, Start(n, broken, writes));
            && first.recorded == UpTo(i) && first.executed == []
            && (if i == 0 then m == n && second.executed == []
                else StopsAt(Start(n, broken, writes), i, m) && second.executed == Versions(i, m))
            && second == Db(true, true, UpTo(m), second.executed)
            && (second.executed == [] <==> i == 0 || i == n || i + 1 in broken)
  {
    var legacy := Db(tracking, true, {}, []);
    var first := AfterStart(legacy, Start(n, {}, i + 1));
    BootstrapRecords(legacy.(tracking := true), n, 1, i);
    assert UpTo(0) == {};
    assert first.recorded == UpTo(i);
    if i == 0 {
      BootstrapRecords(first, n, 1, writes - 1);
      m := n;
    } else {
      assert 1 in first.recorded;
      m := MigratesTheRest(first.(tracking := true), Start(n, broken, writes), 1, writes - 1, i);
      assert Versions(i, m) == [] <==> i == m;
    }
  }

  lemma {:induction false} NothingPasses(db: Db, s: Start, version: nat, writes: nat, m: nat)
    requires db.recorded == UpTo(m) && m + 1 in s.broken && 1 <= version <= m + 1
    ensures Migrated(db, s, version, writes) == db
    decreases m + 1 - version
  {
    if version <= m { NothingPasses(db, s, version + 1, writes, m); }
  }

  /** No later start gets past a migration that keeps failing. */
  lemma {:induction false} StuckForGood(db: Db, starts: seq<Start>, m: nat)
    requires db.users && db.tracking && m >= 1 && db.recorded == UpTo(m)
    requires forall k :: 0 <= k < |starts| ==> m + 1 in starts[k].broken
    ensures AfterStarts(db, starts) == db
    decreases starts
  {
    if starts != [] {
      assert 1 in db.recorded && db.(tracking := true) == db;
      if starts[0].writes > 0 { NothingPasses(db, starts[0], 1, starts[0].writes - 1, m); }
      StuckForGood(db, starts[1..], m);
    }
  }

  lemma {:induction false} FailingIsNotRecorded(db: Db, s: Start, version: nat, writes: nat, v: nat)
    requires v in s.broken && v !in db.recorded
    ensures v !in Migrated(db, s, version, writes).recorded && db.recorded <= Migrated(db, s, version, writes).recorded
    decreases s.count + 1 - version
  {
    if version <= s.count && version in db.recorded {
      FailingIsNotRecorded(db, s, version + 1, writes, v);
    } else if version <= s.count && version !in s.broken && writes > 0 {
      FailingIsNotRecorded(Committed(db, version), s, version + 1, writes - 1, v);
    }
  }

  lemma {:induction false} FailingIsNeverRecorded(db: Db, starts: seq<Start>, v: nat)
    requires v !in db.recorded && db.recorded != {} && forall k :: 0 <= k < |starts| ==> v in starts[k].broken
    ensures v !in AfterStarts(db, starts).recorded
    decreases starts
  {
    if starts != [] {
      if starts[0].writes > 0 {
        FailingIsNotRecorded(db.(tracking := true), starts[0], 1, starts[0].writes - 1, v);
      }
      FailingIsNeverRecorded(AfterStart(db, starts[0]), starts[1..], v);
    }
  }

  /** So every cut inside the bootstrap of the shipped list is final. Its last migration, the 26th,
      adds a column and fails on a database that has it: over any later starts, cut off or not, it is
      never recorded, and a start that gets as far fails. */
  lemma CutBootstrapIsFinal(i: nat, tracking: bool, later: seq<Start>)
    requires 0 < i < 26 && forall k :: 0 <= k < |later| ==> 26 in later[k].broken
    ensures 26 !in AfterStarts(AfterStart(Db(tracking, true, {}, []), Start(26, {}, i + 1)), later).recorded
  {
    var first := AfterStart(Db(tracking, true, {}, []), Start(26, {}, i + 1));
    BootstrapRecords(Db(true, true, {}, []), 26, 1, i);
    assert UpTo(0) == {} && first.recorded == UpTo(i) && 1 in first.recorded;
    FailingIsNeverRecorded(first, later, 26);
  }
}
