/** What is true of a database after any number of migration runs, finished or not. */
module MigrateHistory {
  import opened Text
  import opened Migrate

  const EMPTY := Db(map[], [])

  function Ends(db: Db, runs: seq<Run>): Db {
    if runs == [] then db else Ran(Ends(db, runs[..|runs| - 1]), runs[|runs| - 1])
  }

  /* ---- pending migrations ---- */

  lemma PendingNames(all: seq<Migration>, record: map<string, string>)
    requires all != []
    ensures var front, last := all[..|all| - 1], all[|all| - 1];
            && Names(all) == Names(front) + [last.name]
            && (last.name in record ==> Pending(all, record) == Pending(front, record))
            && (last.name !in record ==> Names(Pending(all, record)) == Names(Pending(front, record)) + [last.name])
  {
    NamesPush(Pending(all[..|all| - 1], record), all[|all| - 1]);
  }

  lemma NoRepeatsPush(names: seq<string>, name: string)
    ensures NoRepeats(names + [name]) <==> NoRepeats(names) && name !in names
  {
    assert (names + [name])[..|names|] == names;
  }

  lemma {:induction false} PendingAre(all: seq<Migration>, record: map<string, string>)
    requires NoRepeats(Names(all))
    ensures var p := Pending(all, record);
            NoRepeats(Names(p)) && forall name :: name in Names(p) <==> name in Names(all) && name !in record
  {
    if all != [] {
      var front, last := all[..|all| - 1], all[|all| - 1];
      PendingNames(all, record);
      NoRepeatsPush(Names(front), last.name);
      PendingAre(front, record);
      NoRepeatsPush(Names(Pending(front, record)), last.name);
    }
  }

  lemma {:induction false} NamesOfTake(ms: seq<Migration>, n: nat)
    ensures Names(Take(ms, n)) == Take(Names(ms), n)
  {
    if n < |ms| {
      var front := ms[..|ms| - 1];
      NamesOfTake(front, n);
      assert front[..n] == ms[..n];
      assert Names(ms)[..n] == Names(front)[..n];
    }
  }

  lemma {:induction false} TakeKeepsNoRepeats(names: seq<string>, n: nat)
    requires NoRepeats(names)
    ensures NoRepeats(Take(names, n))
  {
    if n < |names| {
      TakeKeepsNoRepeats(names[..|names| - 1], n);
      assert names[..|names| - 1][..n] == names[..n];
    }
  }

  lemma {:induction false} JoinNoRepeats(xs: seq<string>, ys: seq<string>)
    requires NoRepeats(xs) && NoRepeats(ys) && forall y <- ys :: y !in xs
    ensures NoRepeats(xs + ys)
  {
    if ys == [] {
      assert xs + ys == xs;
    } else {
      assert (xs + ys)[..|xs + ys| - 1] == xs + ys[..|ys| - 1];
      JoinNoRepeats(xs, ys[..|ys| - 1]);
    }
  }

  /* ---- nothing runs twice ---- */

  ghost predicate Sane(db: Db) {
    NoRepeats(db.executed) && forall name <- db.executed :: name in db.record
  }

  lemma ApplyingSome(db: Db, all: seq<Migration>, n: nat)
    requires NoRepeats(Names(all))
    ensures var ms := Take(Pending(all, db.record), n);
            && (Sane(db) ==> Sane(Applied(db, ms)))
            && (forall name <- Names(ms) :: name !in db.record && name in Names(all))
            && (forall name <- db.record :: name in Applied(db, ms).record)
  {
    var p := Pending(all, db.record);
    var ms := Take(p, n);
    PendingAre(all, db.record);
    NamesOfTake(p, n);
    TakeKeepsNoRepeats(Names(p), n);
    RecordedKeys(db.record, ms);
    if Sane(db) {
      JoinNoRepeats(db.executed, Names(ms));
    }
  }

  /** One run executes only what was not recorded, and forgets no record. */
  lemma RunExecutesOnlyNew(db: Db, r: Run)
    requires NoRepeats(Names(r.all))
    ensures var after := Ran(db, r);
            && (Sane(db) ==> Sane(after))
            && db.executed <= after.executed
            && (forall name <- after.executed[|db.executed|..] :: name !in db.record)
            && (forall name <- db.record :: name in after.record)
  {
    if !(r.dryRun || r.verify || Refuses(db, r)) {
      var recorded := if r.install then Db(Recorded(db.record, Skipped(r)), db.executed) else db;
      RecordedKeys(db.record, Skipped(r));
      var n := if r.install then r.writes - |Skipped(r)| else r.writes;
      ApplyingSome(recorded, r.all, n);
      var ms := Take(Pending(r.all, recorded.record), n);
      assert (db.executed + Names(ms))[|db.executed|..] == Names(ms);
    }
  }

  ghost predicate ListsHaveNoRepeats(runs: seq<Run>) {
    forall r <- runs :: NoRepeats(Names(r.all))
  }

  /** Over any runs, whatever their lists, flags and fates: no migration runs twice, and each that ran is recorded. */
  lemma {:induction false} NothingRunsTwice(runs: seq<Run>)
    requires ListsHaveNoRepeats(runs)
    ensures Sane(Ends(EMPTY, runs))
  {
    if runs != [] {
      assert ListsHaveNoRepeats(runs[..|runs| - 1]);
      NothingRunsTwice(runs[..|runs| - 1]);
      RunExecutesOnlyNew(Ends(EMPTY, runs[..|runs| - 1]), runs[|runs| - 1]);
    }
  }

  /** What has been recorded without running never runs. */
  lemma {:induction false} SkippedForGood(db: Db, runs: seq<Run>, name: string)
    requires ListsHaveNoRepeats(runs) && name in db.record && name !in db.executed
    ensures name in Ends(db, runs).record && name !in Ends(db, runs).executed
  {
    if runs != [] {
      var before, r := Ends(db, runs[..|runs| - 1]), runs[|runs| - 1];
      assert ListsHaveNoRepeats(runs[..|runs| - 1]);
      SkippedForGood(db, runs[..|runs| - 1], name);
      RunExecutesOnlyNew(before, r);
      var after := Ran(before, r);
      assert after.executed == before.executed + after.executed[|before.executed|..];
    }
  }

  /* ---- a list that only grows at its end ---- */

  /** What ran is the list's beginning, in its order, and exactly that is recorded. */
  ghost predicate InStep(db: Db, names: seq<string>) {
    db.executed <= names && forall name :: name in db.record <==> name in db.executed
  }

  lemma {:induction false} NothingPending(all: seq<Migration>, record: map<string, string>)
    requires forall name <- Names(all) :: name in record
    ensures Pending(all, record) == []
  {
    if all != [] {
      PendingNames(all, record);
      NothingPending(all[..|all| - 1], record);
    }
  }

  lemma {:induction false} PendingIsTheRest(all: seq<Migration>, db: Db)
    requires NoRepeats(Names(all)) && InStep(db, Names(all))
    ensures Names(Pending(all, db.record)) == Names(all)[|db.executed|..]
  {
    if |db.executed| == |all| {
      assert Names(all) == db.executed;
      NothingPending(all, db.record);
    } else {
      PendingNames(all, db.record);
      NoRepeatsPush(Names(all[..|all| - 1]), all[|all| - 1].name);
      StillInStep(db, Names(all[..|all| - 1]), all[|all| - 1].name);
      PendingIsTheRest(all[..|all| - 1], db);
    }
  }

  lemma StillInStep(db: Db, front: seq<string>, last: string)
    requires InStep(db, front + [last]) && |db.executed| <= |front| && last !in front
    ensures InStep(db, front) && last !in db.record
    ensures (front + [last])[|db.executed|..] == front[|db.executed|..] + [last]
  {
    assert db.executed == front[..|db.executed|];
  }

  lemma PlainRunKeepsStep(db: Db, r: Run)
    requires !r.install && NoRepeats(Names(r.all)) && InStep(db, Names(r.all))
    ensures InStep(Ran(db, r), Names(r.all))
  {
    var p := Pending(r.all, db.record);
    PendingIsTheRest(r.all, db);
    NamesOfTake(p, r.writes);
    RecordedKeys(db.record, Take(p, r.writes));
    StepOn(db, Names(r.all), Recorded(db.record, Take(p, r.writes)), r.writes);
  }

  lemma StepOn(db: Db, names: seq<string>, record: map<string, string>, n: nat)
    requires InStep(db, names)
    requires forall name :: name in record <==> name in db.record || name in Take(names[|db.executed|..], n)
    ensures InStep(Db(record, db.executed + Take(names[|db.executed|..], n)), names)
  {
  }

  ghost predicate OnlyGrows(runs: seq<Run>) {
    runs == [] ||
    (OnlyGrows(runs[..|runs| - 1])
     && (|runs| > 1 ==> Names(runs[|runs| - 2].all) <= Names(runs[|runs| - 1].all)))
  }

  /**
    Runs of a list that only grows at its end, any of them cut short anywhere, checksums edited or not: what has
    run is a beginning of the list, in order, and the record says exactly that.
  */
  lemma {:induction false} ExecutedIsABeginning(runs: seq<Run>)
    requires ListsHaveNoRepeats(runs) && OnlyGrows(runs) && (forall r <- runs :: !r.install) && runs != []
    ensures InStep(Ends(EMPTY, runs), Names(runs[|runs| - 1].all))
  {
    var front, r := runs[..|runs| - 1], runs[|runs| - 1];
    if front == [] {
      assert Ends(EMPTY, front) == EMPTY;
    } else {
      assert ListsHaveNoRepeats(front);
      assert front[|front| - 1] == runs[|runs| - 2];
      ExecutedIsABeginning(front);
    }
    PlainRunKeepsStep(Ends(EMPTY, front), r);
  }

  /* ---- a run that died ---- */

  predicate Plain(r: Run) {
    !r.install && !r.dryRun && !r.verify
  }

  lemma LastIsNew(all: seq<Migration>)
    requires all != [] && NoRepeats(Names(all))
    ensures NoRepeats(Names(all[..|all| - 1])) && all[|all| - 1].name !in Names(all[..|all| - 1])
  {
    NoRepeatsPush(Names(all[..|all| - 1]), all[|all| - 1].name);
  }

  /** Recording the first pending migrations leaves the others pending. */
  ghost predicate LeavesTheRest(all: seq<Migration>, record: map<string, string>, n: nat) {
    var p := Pending(all, record);
    n <= |p| ==> Pending(all, Recorded(record, p[..n])) == p[n..]
  }

  lemma {:induction false} PendingAfterSome(all: seq<Migration>, record: map<string, string>, n: nat)
    requires NoRepeats(Names(all))
    ensures LeavesTheRest(all, record, n)
  {
    if all != [] {
      var front, last := all[..|all| - 1], all[|all| - 1];
      LastIsNew(all);
      PendingAfterSome(front, record, n);
      if n <= |Pending(front, record)| {
        RestWithOneMore(front, last, record, n);
        assert all == front + [last];
      } else {
        PendingAfterAll(all, record);
        AllOrMore(all, record, n);
      }
    }
  }

  lemma AllOrMore(all: seq<Migration>, record: map<string, string>, n: nat)
    requires Pending(all, Recorded(record, Pending(all, record))) == [] && n >= |Pending(all, record)|
    ensures LeavesTheRest(all, record, n)
  {
    assert Pending(all, record)[..|Pending(all, record)|] == Pending(all, record);
  }

  lemma RestWithOneMore(front: seq<Migration>, last: Migration, record: map<string, string>, n: nat)
    requires NoRepeats(Names(front)) && last.name !in Names(front)
    requires n <= |Pending(front, record)| && LeavesTheRest(front, record, n)
    ensures LeavesTheRest(front + [last], record, n)
  {
    LastStillPending(front, record, n, last.name);
    OneMorePending(front, last, record, Recorded(record, Pending(front, record)[..n]), n);
  }

  lemma OneMorePending(front: seq<Migration>, last: Migration, record: map<string, string>, later: map<string, string>, n: nat)
    requires n <= |Pending(front, record)| && Pending(front, later) == Pending(front, record)[n..]
    requires last.name in later <==> last.name in record
    ensures n <= |Pending(front + [last], record)|
    ensures Pending(front + [last], record)[..n] == Pending(front, record)[..n]
    ensures Pending(front + [last], later) == Pending(front + [last], record)[n..]
  {
    assert (front + [last])[..|front|] == front;
  }

  lemma PendingAfterAll(all: seq<Migration>, record: map<string, string>)
    requires NoRepeats(Names(all))
    ensures Pending(all, Recorded(record, Pending(all, record))) == []
  {
    var p := Pending(all, record);
    PendingAre(all, record);
    RecordedKeys(record, p);
    NothingPending(all, Recorded(record, p));
  }

  lemma LastStillPending(all: seq<Migration>, record: map<string, string>, n: nat, name: string)
    requires NoRepeats(Names(all)) && name !in Names(all) && n <= |Pending(all, record)|
    ensures name in Recorded(record, Pending(all, record)[..n]) <==> name in record
  {
    var q := Pending(all, record);
    PendingAre(all, record);
    RecordedKeys(record, q[..n]);
    NamesOfTake(q, n);
    assert Take(q, n) == q[..n] by {
      assert q[..|q|] == q;
    }
  }

  lemma {:induction false} RecordingInParts(record: map<string, string>, ms: seq<Migration>, ns: seq<Migration>)
    ensures Recorded(record, ms + ns) == Recorded(Recorded(record, ms), ns)
  {
    if ns == [] {
      assert ms + ns == ms;
    } else {
      assert (ms + ns)[..|ms + ns| - 1] == ms + ns[..|ns| - 1];
      RecordingInParts(record, ms, ns[..|ns| - 1]);
    }
  }

  lemma AppliedInParts(db: Db, p: seq<Migration>, n: nat)
    requires n <= |p|
    ensures Applied(Applied(db, p[..n]), p[n..]) == Applied(db, p)
  {
    assert p[..n] + p[n..] == p;
    RecordingInParts(db.record, p[..n], p[n..]);
    NamesJoin(p[..n], p[n..]);
  }

  lemma {:induction false} SameNameSameMigration(all: seq<Migration>, m: Migration, n: Migration)
    requires NoRepeats(Names(all)) && m in all && n in all && m.name == n.name
    ensures m == n
  {
    var front, last := all[..|all| - 1], all[|all| - 1];
    NoRepeatsPush(Names(front), last.name);
    NamesCover(front);
    if m in front && n in front {
      SameNameSameMigration(front, m, n);
    }
  }

  lemma {:induction false} NamesCover(all: seq<Migration>)
    ensures forall m <- all :: m.name in Names(all)
  {
    if all != [] {
      NamesCover(all[..|all| - 1]);
      assert all == all[..|all| - 1] + [all[|all| - 1]];
    }
  }

  lemma {:induction false} PendingComesFrom(all: seq<Migration>, record: map<string, string>)
    ensures forall m <- Pending(all, record) :: m in all
  {
    if all != [] {
      PendingComesFrom(all[..|all| - 1], record);
    }
  }

  /** Recording a list's own migrations leaves none of them edited. */
  lemma {:induction false} RecordingEditsNothing(all: seq<Migration>, record: map<string, string>, ms: seq<Migration>)
    requires NoRepeats(Names(all)) && !Edited(all, record) && forall m <- ms :: m in all
    ensures !Edited(all, Recorded(record, ms))
  {
    if ms != [] {
      var last := ms[|ms| - 1];
      RecordingEditsNothing(all, record, ms[..|ms| - 1]);
      forall m <- all | m.name == last.name
        ensures m == last
      {
        SameNameSameMigration(all, m, last);
      }
    }
  }

  /** A run that was cut short changes nothing about where the next one, run to its end, arrives. */
  lemma CutShortAndRunAgain(db: Db, r: Run, again: Run)
    requires Plain(r) && Plain(again) && r.all == again.all && NoRepeats(Names(r.all))
    requires again.writes >= |Pending(r.all, db.record)|
    ensures Ran(Ran(db, r), again) == Ran(db, again)
  {
    if !Edited(r.all, db.record) {
      var p := Pending(r.all, db.record);
      var n := if r.writes < |p| then r.writes else |p|;
      assert Take(p, r.writes) == p[..n] by {
        assert p[..|p|] == p;
      }
      PendingComesFrom(r.all, db.record);
      RecordingEditsNothing(r.all, db.record, p[..n]);
      PendingAfterSome(r.all, db.record, n);
      assert LeavesTheRest(r.all, db.record, n);
      AppliedInParts(db, p, n);
    }
  }

  /* ---- installing without the seeds ---- */

  function Without(all: seq<Migration>, names: seq<string>): seq<Migration> {
    if all == [] then []
    else if all[|all| - 1].name in names then Without(all[..|all| - 1], names)
    else Without(all[..|all| - 1], names) + [all[|all| - 1]]
  }

  lemma {:induction false} PendingIsWithout(all: seq<Migration>, record: map<string, string>, names: seq<string>)
    requires forall name :: name in record <==> name in names
    ensures Pending(all, record) == Without(all, names)
  {
    if all != [] {
      PendingIsWithout(all[..|all| - 1], record, names);
    }
  }

  lemma BeginningPush(names: seq<string>, seeds: seq<string>)
    requires seeds != [] && names <= seeds[..|seeds| - 1]
    ensures names <= seeds && (|names| == |seeds| - 1 ==> names + [seeds[|seeds| - 1]] == seeds)
  {
  }

  lemma {:induction false} SkippableNames(all: seq<Migration>, seeds: seq<string>)
    ensures Names(Skippable(all, seeds)) <= seeds
  {
    if seeds != [] {
      var front, last := Skippable(all, seeds[..|seeds| - 1]), Find(all, seeds[|seeds| - 1]);
      SkippableNames(all, seeds[..|seeds| - 1]);
      BeginningPush(Names(front), seeds);
      if last.Some? {
        NamesPush(front, last.value);
      }
    }
  }

  lemma {:induction false} SkippableComesFrom(all: seq<Migration>, seeds: seq<string>)
    ensures forall m <- Skippable(all, seeds) :: m in all
  {
    if seeds != [] {
      SkippableComesFrom(all, seeds[..|seeds| - 1]);
    }
  }

  predicate GoodManifest(all: seq<Migration>, seeds: seq<string>) {
    seeds != [] && NoRepeats(seeds) && forall seed <- seeds :: seed in Names(all)
  }

  lemma FindIff(all: seq<Migration>, name: string)
    ensures Find(all, name).Some? <==> name in Names(all)
  {
    NamesCover(all);
    NamesAreOf(all, name);
  }

  lemma {:induction false} NamesAreOf(all: seq<Migration>, name: string)
    ensures name in Names(all) ==> exists m <- all :: m.name == name
  {
    if all != [] && all[|all| - 1].name != name {
      NamesAreOf(all[..|all| - 1], name);
    }
  }

  lemma OneMoreSeed(all: seq<Migration>, front: seq<string>, last: string)
    requires |Skippable(all, front)| == |front|
    ensures |Skippable(all, front + [last])| == |front| + 1 <==> last in Names(all) && last !in front
  {
    assert (front + [last])[..|front|] == front;
    FindIff(all, last);
    SkippableNames(all, front);
  }

  /** All seeds can be skipped exactly when the manifest names migrations, each once. */
  lemma {:induction false} SkippableIff(all: seq<Migration>, seeds: seq<string>)
    ensures |Skippable(all, seeds)| == |seeds| <==> NoRepeats(seeds) && forall seed <- seeds :: seed in Names(all)
  {
    if seeds != [] {
      var front, last := seeds[..|seeds| - 1], seeds[|seeds| - 1];
      assert seeds == front + [last];
      SkippableIff(all, front);
      if |Skippable(all, front)| == |front| {
        OneMoreSeed(all, front, last);
      } else {
        SkippableGrows(all, seeds, |front|);
      }
    }
  }

  /** An install on an empty database that writes. */
  predicate Install(r: Run) {
    r.install && !r.dryRun && !r.verify && r.seeds != []
  }

  lemma AfterTheSeeds(r: Run)
    requires Install(r)
    ensures var skipped := Skipped(r);
            && Names(skipped) <= r.seeds
            && (forall name :: name in Recorded(map[], skipped) <==> name in Names(skipped))
            && (Names(skipped) == r.seeds <==> GoodManifest(r.all, r.seeds) && r.writes >= |r.seeds|)
  {
    SkippableNames(r.all, r.seeds);
    SkippableIff(r.all, r.seeds);
    NamesOfTake(Skippable(r.all, r.seeds), r.writes);
    RecordedKeys(map[], Skipped(r));
  }

  /** What is left of an install after the seeds is an ordinary run. */
  function Rest(r: Run): Run {
    Run(r.all, [], false, false, false, if r.writes >= |r.seeds| then r.writes - |r.seeds| else 0)
  }

  lemma InstallIsSeedsThenPlain(r: Run)
    requires Install(r) && NoRepeats(Names(r.all))
    ensures var db := Db(Recorded(map[], Skipped(r)), []);
            && !Edited(r.all, db.record)
            && Ran(EMPTY, r) == if |Skipped(r)| < |r.seeds| then db else Ran(db, Rest(r))
  {
    SkippedEditsNothing(r);
    RestOfAnInstall(r);
  }

  lemma SkippedEditsNothing(r: Run)
    requires NoRepeats(Names(r.all))
    ensures !Edited(r.all, Recorded(map[], Skipped(r)))
  {
    SkippableComesFrom(r.all, r.seeds);
    RecordingEditsNothing(r.all, map[], Skipped(r));
  }

  lemma RestOfAnInstall(r: Run)
    requires Install(r) && !Edited(r.all, Recorded(map[], Skipped(r)))
    ensures var db := Db(Recorded(map[], Skipped(r)), []);
            Ran(EMPTY, r) == if |Skipped(r)| < |r.seeds| then db else Ran(db, Rest(r))
  {
  }

  lemma RunToItsEnd(db: Db, plain: Run)
    requires Plain(plain) && db.executed == [] && !Edited(plain.all, db.record)
    requires plain.writes >= |Pending(plain.all, db.record)|
    ensures var p := Pending(plain.all, db.record); Ran(db, plain) == Db(Recorded(db.record, p), Names(p))
  {
  }

  /** With a good manifest, an install run to its end executes exactly the other migrations, in order, and records all. */
  lemma InstallRunsAllButTheSeeds(r: Run)
    requires Install(r) && GoodManifest(r.all, r.seeds) && NoRepeats(Names(r.all))
    requires r.writes >= |r.seeds| + |Without(r.all, r.seeds)|
    ensures Ran(EMPTY, r).executed == Names(Without(r.all, r.seeds))
    ensures forall name :: name in Ran(EMPTY, r).record <==> name in Names(r.all)
    ensures forall seed <- r.seeds :: seed !in Ran(EMPTY, r).executed
  {
    var db := Db(Recorded(map[], Skipped(r)), []);
    AfterTheSeeds(r);
    InstallIsSeedsThenPlain(r);
    PendingIsWithout(r.all, db.record, r.seeds);
    RunToItsEnd(db, Rest(r));
    PendingAre(r.all, db.record);
    RecordedKeys(db.record, Pending(r.all, db.record));
  }

  /** After such an install no run of any kind ever executes a seed. */
  lemma SeedsNeverRun(r: Run, runs: seq<Run>, seed: string)
    requires Install(r) && GoodManifest(r.all, r.seeds) && NoRepeats(Names(r.all))
    requires r.writes >= |r.seeds| + |Without(r.all, r.seeds)|
    requires ListsHaveNoRepeats(runs) && seed in r.seeds
    ensures seed !in Ends(Ran(EMPTY, r), runs).executed
  {
    InstallRunsAllButTheSeeds(r);
    SkippedForGood(Ran(EMPTY, r), runs, seed);
  }

  /**
    An install that stopped anywhere, followed by an ordinary run to its end: a migration has run in the end exactly
    when the install had not recorded it as skipped.  A seed it had not reached is executed after all.
  */
  lemma StoppedInstallThenPlainRun(r: Run, plain: Run, name: string)
    requires Install(r) && Plain(plain) && plain.all == r.all && NoRepeats(Names(r.all))
    requires plain.writes >= |r.all| && name in Names(r.all)
    ensures name in Ran(Ran(EMPTY, r), plain).executed <==> name !in Names(Skipped(r))
  {
    var db := Db(Recorded(map[], Skipped(r)), []);
    InstallIsSeedsThenPlain(r);
    PendingIsShorter(r.all, db.record);
    if |Skipped(r)| == |r.seeds| {
      CutShortAndRunAgain(db, Rest(r), plain);
    }
    assert Ran(Ran(EMPTY, r), plain) == Ran(db, plain);
    AfterTheSeeds(r);
    RunToItsEnd(db, plain);
    PendingAre(r.all, db.record);
  }

  lemma {:induction false} PendingIsShorter(all: seq<Migration>, record: map<string, string>)
    ensures |Pending(all, record)| <= |all|
  {
    if all != [] {
      PendingIsShorter(all[..|all| - 1], record);
    }
  }

  /** An install that stopped amid the seeds can be tried again exactly when it had recorded none. */
  lemma InstallCanBeRetriedIff(r: Run, again: Run)
    requires Install(r) && Install(again) && !Edited(again.all, Ran(EMPTY, r).record)
    requires |Skipped(r)| < |r.seeds|
    ensures Refuses(Ran(EMPTY, r), again) <==> r.writes > 0 && Skippable(r.all, r.seeds) != []
  {
    AfterTheSeeds(r);
    if Skipped(r) != [] {
      assert Names(Skipped(r))[0] in Recorded(map[], Skipped(r));
    }
  }

  /** What a dry run says it would apply is what a real one goes on to apply, unless it is an install. */
  lemma DryRunTellsTheTruthIff(db: Db, r: Run)
    requires !r.dryRun && !r.verify && !Refuses(db, r) && NoRepeats(Names(r.all))
    requires r.install ==> GoodManifest(r.all, r.seeds)
    requires r.writes >= |r.all| + |r.seeds|
    ensures Ran(db, r).executed == db.executed + Names(Pending(r.all, db.record)) <==> !r.install
  {
    if r.install {
      SeedsArePending(r);
      InstallExecutes(db, r);
      SameTail(db.executed, Names(Without(r.all, r.seeds)), Names(Pending(r.all, db.record)));
    } else {
      PendingIsShorter(r.all, db.record);
    }
  }

  lemma InstallExecutes(db: Db, r: Run)
    requires Install(r) && GoodManifest(r.all, r.seeds) && !Refuses(db, r) && r.writes >= |r.all| + |r.seeds|
    ensures Ran(db, r).executed == db.executed + Names(Without(r.all, r.seeds))
  {
    AfterTheSeeds(r);
    var record := Recorded(map[], Skipped(r));
    PendingIsWithout(r.all, record, r.seeds);
    PendingIsShorter(r.all, record);
  }

  lemma SeedsArePending(r: Run)
    requires GoodManifest(r.all, r.seeds) && NoRepeats(Names(r.all))
    ensures Names(Without(r.all, r.seeds)) != Names(Pending(r.all, map[]))
  {
    PendingAre(r.all, map[]);
    WithoutIs(r.all, r.seeds);
    assert r.seeds[0] in Names(Pending(r.all, map[]));
  }

  lemma SameTail(xs: seq<string>, ys: seq<string>, zs: seq<string>)
    ensures xs + ys == xs + zs <==> ys == zs
  {
    assert (xs + ys)[|xs|..] == ys && (xs + zs)[|xs|..] == zs;
  }

  /* ---- an install, and the runs after it ---- */

  function Strip(db: Db, seeds: seq<string>): Db {
    Db(db.record - (set seed | seed in seeds), db.executed)
  }

  /** The seeds are recorded, and what ran is a beginning of the rest of the list, in its order, and otherwise all of the record. */
  ghost predicate InStepWithout(db: Db, all: seq<Migration>, seeds: seq<string>) {
    InStep(Strip(db, seeds), Names(Without(all, seeds))) && forall seed <- seeds :: seed in db.record
  }

  lemma {:induction false} PendingOfWithout(all: seq<Migration>, db: Db, seeds: seq<string>)
    requires forall seed <- seeds :: seed in db.record
    ensures Pending(all, db.record) == Pending(Without(all, seeds), Strip(db, seeds).record)
  {
    if all != [] {
      var front, last := all[..|all| - 1], all[|all| - 1];
      PendingOfWithout(front, db, seeds);
      if last.name !in seeds {
        PendingPush(Without(front, seeds), last, Strip(db, seeds).record);
      }
    }
  }

  lemma PendingPush(ms: seq<Migration>, m: Migration, record: map<string, string>)
    ensures Pending(ms + [m], record) == if m.name in record then Pending(ms, record) else Pending(ms, record) + [m]
  {
    assert (ms + [m])[..|ms|] == ms;
  }

  lemma WithoutIs(all: seq<Migration>, seeds: seq<string>)
    requires NoRepeats(Names(all))
    ensures NoRepeats(Names(Without(all, seeds)))
    ensures forall name :: name in Names(Without(all, seeds)) <==> name in Names(all) && name !in seeds
  {
    var record := map seed | seed in seeds :: seed;
    PendingIsWithout(all, record, seeds);
    PendingAre(all, record);
  }

  lemma PlainRunKeepsStepWithout(db: Db, r: Run, seeds: seq<string>)
    requires !r.install && NoRepeats(Names(r.all)) && InStepWithout(db, r.all, seeds)
    ensures InStepWithout(Ran(db, r), r.all, seeds)
  {
    if !(r.dryRun || r.verify || Refuses(db, r)) {
      AppliedInStepWithout(db, r.all, r.writes, seeds);
    }
  }

  lemma AppliedInStepWithout(db: Db, all: seq<Migration>, n: nat, seeds: seq<string>)
    requires NoRepeats(Names(all)) && InStepWithout(db, all, seeds)
    ensures InStepWithout(Applied(db, Take(Pending(all, db.record), n)), all, seeds)
  {
    var ms, rest, bare := Take(Pending(all, db.record), n), Names(Without(all, seeds)), Strip(db, seeds);
    PendingNamesWithout(db, all, n, seeds);
    OnlyOfTheRest(rest, |db.executed|, n, seeds);
    StrippedKeys(db, ms, seeds);
    StepOn(bare, rest, Strip(Applied(db, ms), seeds).record, n);
    RecordedKeys(db.record, ms);
  }

  lemma PendingNamesWithout(db: Db, all: seq<Migration>, n: nat, seeds: seq<string>)
    requires NoRepeats(Names(all)) && InStepWithout(db, all, seeds)
    ensures Names(Take(Pending(all, db.record), n)) == Take(Names(Without(all, seeds))[|db.executed|..], n)
    ensures forall name <- Names(Without(all, seeds)) :: name !in seeds
  {
    WithoutIs(all, seeds);
    PendingOfWithout(all, db, seeds);
    PendingIsTheRest(Without(all, seeds), Strip(db, seeds));
    NamesOfTake(Pending(all, db.record), n);
  }

  lemma StrippedKeys(db: Db, ms: seq<Migration>, seeds: seq<string>)
    requires forall name <- Names(ms) :: name !in seeds
    ensures forall name :: name in Strip(Applied(db, ms), seeds).record <==> name in Strip(db, seeds).record || name in Names(ms)
  {
    RecordedKeys(db.record, ms);
  }

  lemma OnlyOfTheRest(names: seq<string>, k: nat, n: nat, seeds: seq<string>)
    requires k <= |names| && forall name <- names :: name !in seeds
    ensures forall name <- Take(names[k..], n) :: name !in seeds
  {
  }

  function NamesWithout(names: seq<string>, seeds: seq<string>): seq<string> {
    if names == [] then []
    else if names[|names| - 1] in seeds then NamesWithout(names[..|names| - 1], seeds)
    else NamesWithout(names[..|names| - 1], seeds) + [names[|names| - 1]]
  }

  lemma {:induction false} NamesOfWithout(all: seq<Migration>, seeds: seq<string>)
    ensures Names(Without(all, seeds)) == NamesWithout(Names(all), seeds)
  {
    if all != [] {
      var front, last := all[..|all| - 1], all[|all| - 1];
      NamesOfWithout(front, seeds);
      NamesPush(Without(front, seeds), last);
      WithoutPush(Names(front), last.name, seeds);
    }
  }

  lemma WithoutPush(names: seq<string>, name: string, seeds: seq<string>)
    ensures NamesWithout(names + [name], seeds)
            == if name in seeds then NamesWithout(names, seeds) else NamesWithout(names, seeds) + [name]
  {
    assert (names + [name])[..|names|] == names;
  }

  lemma {:induction false} LongerWithout(names: seq<string>, more: seq<string>, seeds: seq<string>)
    ensures NamesWithout(names, seeds) <= NamesWithout(names + more, seeds)
  {
    if more == [] {
      assert names + more == names;
    } else {
      var front, last := more[..|more| - 1], more[|more| - 1];
      assert names + more == (names + front) + [last];
      LongerWithout(names, front, seeds);
      WithoutPush(names + front, last, seeds);
    }
  }

  lemma WithoutGrows(all: seq<Migration>, more: seq<Migration>, seeds: seq<string>)
    requires Names(all) <= Names(more)
    ensures Names(Without(all, seeds)) <= Names(Without(more, seeds))
  {
    assert Names(all) + Names(more)[|all|..] == Names(more);
    NamesOfWithout(all, seeds);
    NamesOfWithout(more, seeds);
    LongerWithout(Names(all), Names(more)[|all|..], seeds);
  }

  /** An install that got past the seeds, whether it then ended or died. */
  lemma InstallIsInStep(r: Run)
    requires Install(r) && GoodManifest(r.all, r.seeds) && r.writes >= |r.seeds| && NoRepeats(Names(r.all))
    ensures InStepWithout(Ran(EMPTY, r), r.all, r.seeds)
  {
    var db := Db(Recorded(map[], Skipped(r)), []);
    AfterTheSeeds(r);
    InstallIsSeedsThenPlain(r);
    assert InStepWithout(db, r.all, r.seeds);
    PlainRunKeepsStepWithout(db, Rest(r), r.seeds);
  }

  function LastList(r: Run, runs: seq<Run>): seq<Migration> {
    if runs == [] then r.all else runs[|runs| - 1].all
  }

  ghost predicate GrowsFrom(r: Run, runs: seq<Run>) {
    runs == []
    || (GrowsFrom(r, runs[..|runs| - 1]) && Names(LastList(r, runs[..|runs| - 1])) <= Names(runs[|runs| - 1].all))
  }

  /**
    An install that got past the seeds, and after it any plain runs, cut short anywhere, of a list that only grows at
    its end: what has run is a beginning of that list without the seeds, in its order, and the record says exactly that
    and the seeds.
  */
  lemma {:induction false} InstalledThenGrown(r: Run, runs: seq<Run>)
    requires Install(r) && GoodManifest(r.all, r.seeds) && r.writes >= |r.seeds| && NoRepeats(Names(r.all))
    requires ListsHaveNoRepeats(runs) && GrowsFrom(r, runs) && forall q <- runs :: !q.install
    ensures InStepWithout(Ends(Ran(EMPTY, r), runs), LastList(r, runs), r.seeds)
  {
    if runs == [] {
      InstallIsInStep(r);
    } else {
      var front, last := runs[..|runs| - 1], runs[|runs| - 1];
      assert ListsHaveNoRepeats(front);
      InstalledThenGrown(r, front);
      WithoutGrows(LastList(r, front), last.all, r.seeds);
      PlainRunKeepsStepWithout(Ends(Ran(EMPTY, r), front), last, r.seeds);
    }
  }

  /* ---- any history ---- */

  /** A run that is an install and is let: it finds the record empty. */
  predicate Installs(db: Db, r: Run) {
    Install(r) && !Refuses(db, r)
  }

  /** What the runs recorded without running it. */
  function SkippedBy(runs: seq<Run>): seq<string> {
    if runs == [] then []
    else
      var front, last := runs[..|runs| - 1], runs[|runs| - 1];
      if Installs(Ends(EMPTY, front), last) then Names(Skipped(last)) else SkippedBy(front)
  }

  lemma HasAFirst(names: seq<string>)
    ensures names == [] || names[0] in names
  {
  }

  lemma EmptyRecordMeansEmpty(db: Db, all: seq<Migration>, seeds: seq<string>)
    requires InStepWithout(db, all, seeds) && db.record == map[]
    ensures db == EMPTY && seeds == []
  {
    assert forall name <- db.executed :: name in Strip(db, seeds).record;
    HasAFirst(db.executed);
    HasAFirst(seeds);
  }

  lemma InstallKeepsStep(r: Run)
    requires Install(r) && NoRepeats(Names(r.all))
    ensures InStepWithout(Ran(EMPTY, r), r.all, Names(Skipped(r)))
  {
    var db := Db(Recorded(map[], Skipped(r)), []);
    AfterTheSeeds(r);
    InstallIsSeedsThenPlain(r);
    assert InStepWithout(db, r.all, Names(Skipped(r)));
    PlainRunKeepsStepWithout(db, Rest(r), Names(Skipped(r)));
  }

  lemma AnyRunKeepsStep(db: Db, r: Run, seeds: seq<string>)
    requires NoRepeats(Names(r.all)) && InStepWithout(db, r.all, seeds)
    ensures if Installs(db, r) then seeds == [] && InStepWithout(Ran(db, r), r.all, Names(Skipped(r)))
            else InStepWithout(Ran(db, r), r.all, seeds)
  {
    if Installs(db, r) {
      EmptyRecordMeansEmpty(db, r.all, seeds);
      InstallKeepsStep(r);
    } else if !r.install {
      PlainRunKeepsStepWithout(db, r, seeds);
    }
  }

  /**
    Any runs of a list that only grows at its end, installs among them wherever and with whatever manifests, each cut
    short anywhere: what has run is a beginning of the list without what was skipped, in its order, the record says
    exactly that and what was skipped, and nothing is skipped by more than one of them.
  */
  lemma {:induction false} AnyHistory(runs: seq<Run>)
    requires ListsHaveNoRepeats(runs) && OnlyGrows(runs) && runs != []
    ensures InStepWithout(Ends(EMPTY, runs), runs[|runs| - 1].all, SkippedBy(runs))
    ensures SkippedBy(runs[..|runs| - 1]) != [] ==> SkippedBy(runs) == SkippedBy(runs[..|runs| - 1])
  {
    var front, r := runs[..|runs| - 1], runs[|runs| - 1];
    if front == [] {
      assert InStepWithout(EMPTY, r.all, []);
    } else {
      assert ListsHaveNoRepeats(front);
      assert front[|front| - 1] == runs[|runs| - 2];
      AnyHistory(front);
      WithoutGrows(front[|front| - 1].all, r.all, SkippedBy(front));
    }
    AnyRunKeepsStep(Ends(EMPTY, front), r, SkippedBy(front));
  }

  /* ---- what is recorded of a migration ---- */

  /** A migration recorded with the checksum it had in some run's list. */
  ghost predicate FromSomeList(runs: seq<Run>, name: string, checksum: string) {
    exists r <- runs :: Migration(name, checksum) in r.all
  }

  lemma {:induction false} RecordedFrom(record: map<string, string>, ms: seq<Migration>, name: string)
    requires name in Recorded(record, ms)
    ensures (name in record && Recorded(record, ms)[name] == record[name]) || Migration(name, Recorded(record, ms)[name]) in ms
  {
    if ms != [] {
      var front, last := ms[..|ms| - 1], ms[|ms| - 1];
      assert ms == front + [last];
      if last.name != name {
        RecordedFrom(record, front, name);
      }
    }
  }

  lemma {:induction false} RecordedKeeps(record: map<string, string>, ms: seq<Migration>, name: string)
    requires name in record && forall m <- ms :: m.name != name
    ensures name in Recorded(record, ms) && Recorded(record, ms)[name] == record[name]
  {
    if ms != [] {
      RecordedKeeps(record, ms[..|ms| - 1], name);
    }
  }

  lemma {:induction false} PendingIsNew(all: seq<Migration>, record: map<string, string>)
    ensures forall m <- Pending(all, record) :: m in all && m.name !in record
  {
    if all != [] {
      PendingIsNew(all[..|all| - 1], record);
    }
  }

  lemma TakenIsNew(all: seq<Migration>, record: map<string, string>, n: nat)
    ensures forall m <- Take(Pending(all, record), n) :: m in all && m.name !in record
  {
    PendingIsNew(all, record);
  }

  /** What one run records: old records stay as they are, and each new one is of its list, with the checksum it has there. */
  lemma RunRecords(db: Db, r: Run, name: string)
    requires name in Ran(db, r).record
    ensures if name in db.record then Ran(db, r).record[name] == db.record[name]
            else Migration(name, Ran(db, r).record[name]) in r.all
  {
    if !(r.dryRun || r.verify || Refuses(db, r)) {
      if r.install {
        InstallRecords(r, name);
      } else {
        AppliedRecords(db.record, r.all, r.writes, name);
      }
    }
  }

  lemma AppliedRecords(record: map<string, string>, all: seq<Migration>, n: nat, name: string)
    requires name in Recorded(record, Take(Pending(all, record), n))
    ensures var after := Recorded(record, Take(Pending(all, record), n));
            if name in record then after[name] == record[name] else Migration(name, after[name]) in all
  {
    TakenIsNew(all, record, n);
    if name in record {
      RecordedKeeps(record, Take(Pending(all, record), n), name);
    } else {
      RecordedFrom(record, Take(Pending(all, record), n), name);
    }
  }

  lemma {:induction false} SkippableIsListed(all: seq<Migration>, seeds: seq<string>)
    ensures forall m <- Skippable(all, seeds) :: m in all
  {
    if seeds != [] {
      SkippableIsListed(all, seeds[..|seeds| - 1]);
    }
  }

  lemma InstallRecords(r: Run, name: string)
    requires r.install && !r.dryRun && !r.verify && !Refuses(EMPTY, r) && name in Ran(EMPTY, r).record
    ensures Migration(name, Ran(EMPTY, r).record[name]) in r.all
  {
    var skipped := Recorded(map[], Skipped(r));
    SkippableIsListed(r.all, r.seeds);
    if name in skipped {
      RecordedFrom(map[], Skipped(r), name);
    }
    if |Skipped(r)| == |r.seeds| {
      AppliedRecords(skipped, r.all, r.writes - |Skipped(r)|, name);
    }
  }

  /** Over any runs, whatever is recorded has the checksum it had in the list of some run. */
  lemma {:induction false} RecordsAreFromLists(runs: seq<Run>, name: string)
    requires name in Ends(EMPTY, runs).record
    ensures FromSomeList(runs, name, Ends(EMPTY, runs).record[name])
  {
    if runs != [] {
      var front, last := runs[..|runs| - 1], runs[|runs| - 1];
      RunRecords(Ends(EMPTY, front), last, name);
      assert runs == front + [last];
      if name in Ends(EMPTY, front).record {
        RecordsAreFromLists(front, name);
      } else {
        assert last in runs;
      }
    }
  }

  /**
    After any runs: a list with a recorded migration under another checksum is refused, whatever else it holds and
    wherever that stands in it, and nothing is executed or recorded.
  */
  lemma EditedListIsRefused(runs: seq<Run>, r: Run, m: Migration)
    requires m in r.all && m.name in Ends(EMPTY, runs).record && Ends(EMPTY, runs).record[m.name] != m.checksum
    ensures Refuses(Ends(EMPTY, runs), r) && Ends(EMPTY, runs + [r]) == Ends(EMPTY, runs)
  {
    assert (runs + [r])[..|runs|] == runs;
  }

  /** One name has one checksum in all these lists. */
  ghost predicate NeverEdited(runs: seq<Run>) {
    forall r, q :: r in runs && q in runs ==> forall m, n :: m in r.all && n in q.all && m.name == n.name ==> m == n
  }

  /** Of lists that were never edited, none is refused for its checksums. */
  lemma UneditedListIsNotRefused(runs: seq<Run>, r: Run)
    requires NeverEdited(runs + [r])
    ensures !Edited(r.all, Ends(EMPTY, runs).record)
  {
    forall m | m in r.all && m.name in Ends(EMPTY, runs).record
      ensures Ends(EMPTY, runs).record[m.name] == m.checksum
    {
      RecordsAreFromLists(runs, m.name);
      var q :| q in runs && Migration(m.name, Ends(EMPTY, runs).record[m.name]) in q.all;
      assert q in runs + [r] && r in runs + [r];
    }
  }
}
