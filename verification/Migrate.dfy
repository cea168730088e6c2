/** Forward-only migrations and the record of what has run (cmd/migrate/main.go). */
module Migrate {

  import opened Text

  datatype Migration = Migration(name: string, checksum: string)

  // `record` is schema_migrations; `executed` is what really ran, in order.
  datatype Db = Db(record: map<string, string>, executed: seq<string>)

  // One invocation.  `writes` is how many of its writes succeed before one fails or the process dies.
  datatype Run = Run(all: seq<Migration>, seeds: seq<string>, dryRun: bool, verify: bool, install: bool, writes: nat)

  function Names(ms: seq<Migration>): (r: seq<string>)
    ensures |r| == |ms|
  {
    if ms == [] then [] else Names(ms[..|ms| - 1]) + [ms[|ms| - 1].name]
  }

  predicate NoRepeats(names: seq<string>) {
    names == [] || (names[|names| - 1] !in names[..|names| - 1] && NoRepeats(names[..|names| - 1]))
  }

  function Take<T>(s: seq<T>, n: nat): seq<T> {
    if n < |s| then s[..n] else s
  }

  /* ---- what a run comes to ---- */

  /** A migration that ran has been changed since. */
  predicate Edited(all: seq<Migration>, record: map<string, string>) {
    exists m <- all :: m.name in record && record[m.name] != m.checksum
  }

  function Pending(all: seq<Migration>, record: map<string, string>): seq<Migration> {
    if all == [] then []
    else if all[|all| - 1].name in record then Pending(all[..|all| - 1], record)
    else Pending(all[..|all| - 1], record) + [all[|all| - 1]]
  }

  function Recorded(record: map<string, string>, ms: seq<Migration>): map<string, string> {
    if ms == [] then record
    else Recorded(record, ms[..|ms| - 1])[ms[|ms| - 1].name := ms[|ms| - 1].checksum]
  }

  function Applied(db: Db, ms: seq<Migration>): Db {
    Db(Recorded(db.record, ms), db.executed + Names(ms))
  }

  function Find(all: seq<Migration>, name: string): (r: Option<Migration>)
    ensures r.Some? ==> r.value in all && r.value.name == name
    ensures r.None? ==> forall m <- all :: m.name != name
  {
    if all == [] then None
    else if all[|all| - 1].name == name then Some(all[|all| - 1])
    else Find(all[..|all| - 1], name)
  }

  /** The manifest's migrations, up to the first name that is none or has come before. */
  function Skippable(all: seq<Migration>, seeds: seq<string>): (r: seq<Migration>)
    ensures |r| <= |seeds|
  {
    if seeds == [] then []
    else
      var front, last := Skippable(all, seeds[..|seeds| - 1]), Find(all, seeds[|seeds| - 1]);
      if |front| < |seeds| - 1 || last.None? || last.value.name in Names(front) then front else front + [last.value]
  }

  /** The seeds a fresh run has recorded when it is through with them, or stopped. */
  function Skipped(r: Run): seq<Migration> {
    Take(Skippable(r.all, r.seeds), r.writes)
  }

  predicate Refuses(db: Db, r: Run) {
    Edited(r.all, db.record) || (r.install && (db.record != map[] || r.seeds == []))
  }

  function Ran(db: Db, r: Run): Db {
    if r.dryRun || r.verify || Refuses(db, r) then db
    else if !r.install then Applied(db, Take(Pending(r.all, db.record), r.writes))
    else
      var skipped := Skipped(r);
      var after := Db(Recorded(db.record, skipped), db.executed);
      if |skipped| < |r.seeds| then after
      else Applied(after, Take(Pending(r.all, after.record), r.writes - |skipped|))
  }

  /** A run that was to write has come to its end. */
  predicate Succeeds(db: Db, r: Run) {
    && !Refuses(db, r)
    && if r.install
       then |Skipped(r)| == |r.seeds| && |Pending(r.all, Recorded(db.record, Skipped(r)))| <= r.writes - |r.seeds|
       else |Pending(r.all, db.record)| <= r.writes
  }

  /* ---- the command ---- */

  /** The first `i` seeds have been recorded, and nothing else has happened. */
  ghost predicate SkippedSoFar(r: Run, i: nat, db: Db, executed: seq<string>) {
    && i <= |r.seeds| && |Skippable(r.all, r.seeds[..i])| == i
    && db == Db(Recorded(map[], Skippable(r.all, r.seeds[..i])), executed)
  }

  /** A seed's insert goes through exactly when the seed names a migration that none before it named. */
  lemma OneSeed(r: Run, i: nat, db: Db, executed: seq<string>)
    requires i < |r.seeds| && SkippedSoFar(r, i, db, executed)
    ensures var m := Find(r.all, r.seeds[i]);
            if m.Some? && m.value.name !in db.record
            then SkippedSoFar(r, i + 1, Db(db.record[m.value.name := m.value.checksum], db.executed), executed)
            else |Skippable(r.all, r.seeds[..i + 1])| == i
  {
    assert r.seeds[..i + 1][..i] == r.seeds[..i];
    RecordedKeys(map[], Skippable(r.all, r.seeds[..i]));
  }

  class Database {
    var db: Db
    var writes: nat

    constructor (db: Db, writes: nat)
      ensures this.db == db && this.writes == writes
    {
      this.db, this.writes := db, writes;
    }

    /** apply: the change and its record in one transaction. */
    method Apply(m: Migration) returns (ok: bool)
      modifies this
      ensures ok <==> old(writes) > 0
      ensures ok ==> writes == old(writes) - 1 && db == Db(old(db).record[m.name := m.checksum], old(db).executed + [m.name])
      ensures !ok ==> writes == 0 && db == old(db)
    {
      if writes == 0 {
        return false;
      }
      writes, db := writes - 1, Db(db.record[m.name := m.checksum], db.executed + [m.name]);
      return true;
    }

    /** INSERT INTO schema_migrations, whose name is its primary key. */
    method Insert(m: Migration) returns (ok: bool)
      modifies this
      ensures ok <==> old(writes) > 0 && m.name !in old(db).record
      ensures ok ==> writes == old(writes) - 1 && db == Db(old(db).record[m.name := m.checksum], old(db).executed)
      ensures !ok ==> writes == old(writes) && db == old(db)
    {
      ok := writes > 0 && m.name !in db.record;
      if ok {
        writes, db := writes - 1, Db(db.record[m.name := m.checksum], db.executed);
      }
    }

    method SkipTenantSeeds(r: Run) returns (ok: bool)
      requires db.record == map[] && r.seeds != []
      modifies this
      ensures r.dryRun ==> db == old(db) && writes == old(writes)
      ensures r.dryRun ==> (ok <==> forall seed <- r.seeds :: exists m <- r.all :: m.name == seed)
      ensures !r.dryRun ==>
                var skipped := Take(Skippable(r.all, r.seeds), old(writes));
                && db == Db(Recorded(map[], skipped), old(db).executed) && writes == old(writes) - |skipped|
                && (ok <==> |skipped| == |r.seeds|)
    {
      for i := 0 to |r.seeds|
        invariant !r.dryRun ==> i <= old(writes) == writes + i && SkippedSoFar(r, i, db, old(db).executed)
        invariant r.dryRun ==> db == old(db) && writes == old(writes)
        invariant r.dryRun ==> forall j :: 0 <= j < i ==> exists m <- r.all :: m.name == r.seeds[j]
      {
        var m := Find(r.all, r.seeds[i]);
        if m.None? && r.dryRun {
          assert r.seeds[i] in r.seeds;
          return false;
        }
        if !r.dryRun {
          ghost var before := db;
          var inserted := false;
          if m.Some? {
            inserted := Insert(m.value);
          }
          OneSeed(r, i, before, old(db).executed);
          if !inserted {
            StopsAt(r, i, old(writes));
            return false;
          }
        }
      }
      assert r.seeds[..|r.seeds|] == r.seeds;
      return true;
    }

    /** The whole command.  `would` is what a dry run says it would apply. */
    method Migrate(r: Run) returns (ok: bool, would: seq<string>)
      requires writes == r.writes
      modifies this
      ensures db == Ran(old(db), r)
      ensures (exists m <- r.all :: m.name in old(db).record && old(db).record[m.name] != m.checksum) ==>
                !ok && db == old(db)
      ensures r.verify ==> db == old(db)
      ensures r.verify && (forall m <- r.all :: m.name in old(db).record ==> old(db).record[m.name] == m.checksum) ==> ok
      ensures r.dryRun ==> db == old(db)
      ensures r.dryRun && !r.verify && !Refuses(old(db), r) ==>
                (ok <==> !r.install || forall seed <- r.seeds :: exists m <- r.all :: m.name == seed)
      ensures r.install && !r.verify && (old(db).record != map[] || r.seeds == []) ==> !ok && db == old(db)
      ensures !r.verify && Refuses(old(db), r) ==> !ok
      ensures !r.verify && !r.dryRun ==> (ok <==> Succeeds(old(db), r))
      ensures r.verify ==> (ok <==> !Edited(r.all, old(db).record))
      ensures ok && r.dryRun && !r.verify ==> would == Names(Pending(r.all, old(db).record))
      ensures ok && !r.dryRun && !r.verify ==> forall m <- r.all :: m.name in db.record
    {
      var edited := CheckSums(r.all);
      if edited || r.verify {
        return !edited, [];
      }
      if r.install {
        if db.record != map[] || r.seeds == [] {
          return false, [];
        }
        ok := SkipTenantSeeds(r);
        if !ok {
          return false, [];
        }
      }
      var pending := PendingNow(r.all);
      NothingLeftOut(r.all, db.record);
      RecordedKeys(db.record, pending);
      ok, would := ApplyAll(pending, r.dryRun);
    }

    method CheckSums(all: seq<Migration>) returns (edited: bool)
      ensures edited <==> Edited(all, db.record)
    {
      for i := 0 to |all|
        invariant forall m <- all[..i] :: m.name in db.record ==> db.record[m.name] == m.checksum
      {
        if all[i].name in db.record && db.record[all[i].name] != all[i].checksum {
          assert all[i] in all;
          return true;
        }
      }
      assert all[..|all|] == all;
      return false;
    }

    method PendingNow(all: seq<Migration>) returns (pending: seq<Migration>)
      ensures pending == Pending(all, db.record)
    {
      pending := [];
      for i := 0 to |all|
        invariant pending == Pending(all[..i], db.record)
      {
        assert all[..i + 1][..i] == all[..i];
        if all[i].name !in db.record {
          pending := pending + [all[i]];
        }
      }
      assert all[..|all|] == all;
    }

    method ApplyAll(pending: seq<Migration>, dryRun: bool) returns (ok: bool, would: seq<string>)
      modifies this
      ensures !dryRun ==> db == Applied(old(db), Take(pending, old(writes))) && (ok <==> |pending| <= old(writes))
      ensures dryRun ==> db == old(db) && ok && would == Names(pending)
    {
      would := [];
      for i := 0 to |pending|
        invariant !dryRun ==> i + writes == old(writes) && db == Applied(old(db), pending[..i])
        invariant dryRun ==> db == old(db) && would == Names(pending[..i])
      {
        assert pending[..i + 1][..i] == pending[..i];
        if dryRun {
          would := would + [pending[i].name];
        } else {
          var applied := Apply(pending[i]);
          if !applied {
            return false, [];
          }
        }
      }
      assert pending[..|pending|] == pending;
      return true, would;
    }
  }

  lemma {:induction false} RecordedKeys(record: map<string, string>, ms: seq<Migration>)
    ensures forall name :: name in Recorded(record, ms) <==> name in record || name in Names(ms)
  {
    if ms != [] {
      RecordedKeys(record, ms[..|ms| - 1]);
    }
  }

  /** A shorter manifest's skippable migrations come first; and once the list has stopped it grows no more. */
  lemma {:induction false} SkippableGrows(all: seq<Migration>, seeds: seq<string>, i: nat)
    requires i <= |seeds|
    ensures Skippable(all, seeds[..i]) <= Skippable(all, seeds)
    ensures |Skippable(all, seeds[..i])| < i ==> Skippable(all, seeds[..i]) == Skippable(all, seeds)
    decreases |seeds|
  {
    if i == |seeds| {
      assert seeds[..i] == seeds;
    } else {
      var front := seeds[..|seeds| - 1];
      assert front[..i] == seeds[..i];
      SkippableGrows(all, front, i);
    }
  }

  lemma StopsAt(r: Run, i: nat, writes: nat)
    requires i < |r.seeds| && i <= writes && |Skippable(r.all, r.seeds[..i])| == i
    requires |Skippable(r.all, r.seeds[..i + 1])| == i || i == writes
    ensures Take(Skippable(r.all, r.seeds), writes) == Skippable(r.all, r.seeds[..i])
  {
    SkippableGrows(r.all, r.seeds, i);
    SkippableGrows(r.all, r.seeds, i + 1);
    assert r.seeds[..i + 1][..i] == r.seeds[..i];
  }

  lemma NamesPush(ms: seq<Migration>, m: Migration)
    ensures Names(ms + [m]) == Names(ms) + [m.name]
  {
    assert (ms + [m])[..|ms|] == ms;
  }

  lemma {:induction false} NothingLeftOut(all: seq<Migration>, record: map<string, string>)
    ensures forall m <- all :: m.name in record || m.name in Names(Pending(all, record))
  {
    if all != [] {
      var front, last := all[..|all| - 1], all[|all| - 1];
      NothingLeftOut(front, record);
      NamesPush(Pending(front, record), last);
      assert all == front + [last];
    }
  }

  lemma {:induction false} NamesJoin(ms: seq<Migration>, ns: seq<Migration>)
    ensures Names(ms + ns) == Names(ms) + Names(ns)
  {
    if ns == [] {
      assert ms + ns == ms;
    } else {
      assert (ms + ns)[..|ms + ns| - 1] == ms + ns[..|ns| - 1];
      NamesJoin(ms, ns[..|ns| - 1]);
    }
  }
}
