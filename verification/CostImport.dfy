/** Copying a gateway's log into usage records, any number of times (cmd/costimport/main.go). */
module CostImport {
  import opened Text
  import opened LogWalk

  datatype Record = Record(gateway: string, occurred: int, body: string)

  type Usage = map<string, Record>  // by the gateway's own id, which is unique over all gateways

  // One row of import_runs.
  datatype Pass = Pass(gateway: string, fetched: nat, complete: bool)

  datatype Summary = Summary(from: int, fetched: nat, imported: nat, duplicate: nat, skipped: nat, complete: bool)

  /** cost.FromEntry: a row without an id, or whose time does not parse, becomes no record. */
  function FromEntry(e: Entry, gateway: string): Option<Record> {
    if Blank(e.id) || e.at.None? then None else Some(Record(gateway, e.at.value, e.body))
  }

  predicate Mappable(e: Entry) {
    !Blank(e.id) && e.at.Some?
  }

  /** The record has the gateway's name, and of the row its time and what else it says. */
  predicate SaysRow(r: Record, e: Entry, gateway: string) {
    e.at.Some? && r.gateway == gateway && r.occurred == e.at.value && r.body == e.body
  }

  /** ON CONFLICT DO NOTHING. */
  function Recorded(usage: Usage, e: Entry, gateway: string): Usage {
    match FromEntry(e, gateway)
    case None => usage
    case Some(r) => if e.id in usage then usage else usage[e.id := r]
  }

  function AllRecorded(usage: Usage, es: seq<Entry>, gateway: string): Usage {
    if es == [] then usage else Recorded(AllRecorded(usage, es[..|es| - 1], gateway), es[|es| - 1], gateway)
  }

  function Skips(es: seq<Entry>): nat {
    if es == [] then 0 else Skips(es[..|es| - 1]) + if Mappable(es[|es| - 1]) then 0 else 1
  }

  /** What recording rows comes to: nothing old is touched, and exactly the mappable rows' ids are there. */
  lemma {:induction false} RecordedMeans(usage: Usage, es: seq<Entry>, gateway: string)
    ensures var after := AllRecorded(usage, es, gateway);
            && (forall id <- usage :: id in after && after[id] == usage[id])
            && after.Keys == usage.Keys + (set e | e in es && Mappable(e) :: e.id)
            && (forall id <- after :: id in usage || exists e <- es :: e.id == id && FromEntry(e, gateway) == Some(after[id]))
  {
    if es != [] {
      var front, last := es[..|es| - 1], es[|es| - 1];
      RecordedMeans(usage, front, gateway);
      assert es == front + [last];
      assert last in es && forall e <- front :: e in es;
    }
  }

  /** In full: just the rows with an id and a time are there, each under its id, and each record says one of them. */
  lemma RecordedInFull(usage: Usage, es: seq<Entry>, gateway: string, id: string)
    ensures var after := AllRecorded(usage, es, gateway);
            && (id in after <==> id in usage || exists e <- es :: e.id == id && Trim(e.id) != "" && e.at.Some?)
            && (id in after && id !in usage ==> exists e <- es :: e.id == id && SaysRow(after[id], e, gateway))
  {
    RecordedMeans(usage, es, gateway);
  }

  /** Recording the same rows again records nothing. */
  lemma {:induction false} RecordingAgain(usage: Usage, fs: seq<Entry>, gateway: string)
    requires forall e <- fs :: Mappable(e) ==> e.id in usage
    ensures AllRecorded(usage, fs, gateway) == usage
  {
    if fs != [] {
      RecordingAgain(usage, fs[..|fs| - 1], gateway);
    }
  }

  /** A part of the rows and then the rest come to what all of them at once do. */
  lemma {:induction false} RecordedInParts(usage: Usage, es: seq<Entry>, fs: seq<Entry>, gateway: string)
    ensures AllRecorded(usage, es + fs, gateway) == AllRecorded(AllRecorded(usage, es, gateway), fs, gateway)
  {
    if fs == [] {
      assert es + fs == es;
    } else {
      assert (es + fs)[..|es + fs| - 1] == es + fs[..|fs| - 1];
      RecordedInParts(usage, es, fs[..|fs| - 1], gateway);
    }
  }

  /** The rows of one id are one row. */
  ghost predicate IdsNameRows(es: seq<Entry>) {
    forall e, f :: e in es && f in es && e.id == f.id ==> e == f
  }

  /** In which order rows are recorded, and how often each, makes no difference. */
  lemma OrderMakesNoDifference(usage: Usage, es: seq<Entry>, fs: seq<Entry>, gateway: string)
    requires IdsNameRows(es) && forall e :: e in es <==> e in fs
    ensures AllRecorded(usage, es, gateway) == AllRecorded(usage, fs, gateway)
  {
    var a, b := AllRecorded(usage, es, gateway), AllRecorded(usage, fs, gateway);
    RecordedMeans(usage, es, gateway);
    RecordedMeans(usage, fs, gateway);
    assert a.Keys == b.Keys;
    forall id <- a
      ensures a[id] == b[id]
    {
      if id !in usage {
        var e :| e in es && e.id == id && FromEntry(e, gateway) == Some(a[id]);
        var f :| f in fs && f.id == id && FromEntry(f, gateway) == Some(b[id]);
      }
    }
  }

  /* ---- the watermark ---- */

  /** system_usage_watermark: the newest time recorded for a gateway. */
  ghost predicate IsWatermark(usage: Usage, gateway: string, w: Option<int>) {
    match w
    case None => forall id <- usage :: usage[id].gateway != gateway
    case Some(t) =>
      && (forall id <- usage :: usage[id].gateway == gateway ==> usage[id].occurred <= t)
      && exists id <- usage :: usage[id].gateway == gateway && usage[id].occurred == t
  }

  function From(w: Option<int>, now: int, overlap: int, backfill: int): int {
    if w.Some? then w.value - overlap else now - backfill
  }

  datatype Written = New | Known | Skip | Broken

  class Importer {
    var usage: Usage
    var passes: seq<Pass>

    constructor (usage: Usage)
      ensures this.usage == usage && passes == []
    {
      this.usage, passes := usage, [];
    }

    /** system_record_usage: true when the row was new. */
    method RecordUsage(id: string, r: Record) returns (isNew: bool)
      modifies this`usage
      ensures isNew <==> id !in old(usage)
      ensures usage == if id in old(usage) then old(usage) else old(usage)[id := r]
    {
      isNew := id !in usage;
      if isNew {
        usage := usage[id := r];
      }
    }

    /** Writes one row, if it maps to a record. */
    method WriteOne(e: Entry, gateway: string, dryRun: bool, fails: bool) returns (w: Written)
      modifies this`usage
      ensures w == Skip <==> !Mappable(e)
      ensures w == Broken <==> Mappable(e) && !dryRun && fails
      ensures dryRun ==> w != Known
      ensures usage == if dryRun || w == Broken then old(usage) else Recorded(old(usage), e, gateway)
      ensures !dryRun && w != Broken ==> |usage| == |old(usage)| + if w == New then 1 else 0
    {
      var r := FromEntry(e, gateway);
      if r.None? {
        return Skip;
      }
      if dryRun {
        return New;
      }
      if fails {
        return Broken;
      }
      var isNew := RecordUsage(e.id, r.value);
      return if isNew then New else Known;
    }

    /** Writes the rows of a pass and counts them; `failAt` is the row whose write fails, if one does. */
    method Write(es: seq<Entry>, gateway: string, dryRun: bool, failAt: Option<nat>)
      returns (imported: nat, duplicate: nat, skipped: nat, failed: bool)
      modifies this`usage
      ensures !failed && !dryRun ==>
                && usage == AllRecorded(old(usage), es, gateway)
                && imported + duplicate + skipped == |es| && skipped == Skips(es)
                && imported == |usage| - |old(usage)|
      ensures !failed && dryRun ==> imported + skipped == |es| && duplicate == 0 && skipped == Skips(es)
      ensures dryRun ==> usage == old(usage) && !failed
      ensures failed <==> failAt.Some? && failAt.value < |es| && Mappable(es[failAt.value]) && !dryRun
      ensures failed ==> failAt.Some? && failAt.value < |es| && usage == AllRecorded(old(usage), es[..failAt.value], gateway)
    {
      imported, duplicate, skipped, failed := 0, 0, 0, false;
      for i := 0 to |es|
        invariant imported + duplicate + skipped == i && skipped == Skips(es[..i]) && !failed
        invariant failAt.Some? && failAt.value < i && !dryRun ==> !Mappable(es[failAt.value])
        invariant if dryRun then usage == old(usage) && duplicate == 0
                  else usage == AllRecorded(old(usage), es[..i], gateway) && imported == |usage| - |old(usage)|
      {
        assert es[..i + 1][..i] == es[..i];
        var w := WriteOne(es[i], gateway, dryRun, failAt == Some(i));
        match w {
          case New => imported := imported + 1;
          case Known => duplicate := duplicate + 1;
          case Skip => skipped := skipped + 1;
          case Broken =>
            failed := true;
            return;
        }
      }
      assert es[..|es|] == es;
    }

    /** One pass over one gateway; `mark` is what system_usage_watermark answered. */
    method ImportOne(g: Gateway, gateway: string, mark: Option<int>, now: int, overlap: int, backfill: int, max: int,
                     dryRun: bool, failAt: Option<nat>, noteFails: bool)
      returns (s: Summary, failed: bool, w: Walk, ghost es: seq<Edit>, ghost pages: nat)
      requires StaysNewestFirst(g.log, g.future) && IsWatermark(usage, gateway, mark)
      modifies this, g
      ensures s.from == if mark.Some? then mark.value - overlap else now - backfill
      ensures g.log == After(old(g.log), es) && IsWalk(old(g.log), old(g.future), g.future, s.from, max, w, es, pages)
      ensures s.fetched == |w.out| && s.complete == w.complete && forall e <- w.out :: Newer(e, s.from)
      ensures w.complete ==> NothingMissed(old(g.log), es, s.from, w.out)
      ensures !w.complete && !w.failed ==> |w.out| >= max
      ensures max > 0 ==> s.fetched < max + PER_PAGE
      ensures failAt == None ==> (failed <==> w.failed || (!dryRun && noteFails))
      ensures !failed ==> !w.failed
      ensures !failed && !dryRun ==>
                && usage == AllRecorded(old(usage), w.out, gateway)
                && s.fetched == s.imported + s.duplicate + s.skipped && s.skipped == Skips(w.out)
                && s.imported == |usage| - |old(usage)|
                && passes == old(passes) + [Pass(gateway, s.fetched, s.complete)]
      ensures failAt == None && !dryRun ==>
                && usage == AllRecorded(old(usage), w.out, gateway)
                && passes == if noteFails then old(passes) else old(passes) + [Pass(gateway, s.fetched, s.complete)]
      ensures dryRun ==> usage == old(usage) && passes == old(passes)
    {
      var from := From(mark, now, overlap, backfill);
      w, es, pages := LogsSince(g, from, max);
      var imported, duplicate, skipped, broken := Write(w.out, gateway, dryRun, failAt);
      s := Summary(from, |w.out|, imported, duplicate, skipped, w.complete);
      if broken {
        return s, true, w, es, pages;
      }
      failed := w.failed;
      if !dryRun {
        if noteFails {
          failed := true;
        } else {
          passes := passes + [Pass(gateway, s.fetched, s.complete)];
        }
      }
    }
  }

  /* ---- importing again ---- */

  /** Rows that one pass has recorded are all duplicates to a later one: it imports nothing. */
  lemma ImportingAgainImportsNothing(usage: Usage, es: seq<Entry>, more: seq<Entry>, fs: seq<Entry>, gateway: string, other: string)
    requires forall e <- fs :: e in es
    ensures var after := AllRecorded(AllRecorded(usage, es, gateway), more, other);
            AllRecorded(after, fs, gateway) == after
  {
    var once := AllRecorded(usage, es, gateway);
    var after := AllRecorded(once, more, other);
    RecordedMeans(usage, es, gateway);
    RecordedMeans(once, more, other);
    forall e <- fs | Mappable(e)
      ensures e.id in after
    {
      assert e.id in once;
    }
    RecordingAgain(after, fs, gateway);
  }

  /** Every row with this id is the same row. */
  ghost predicate IdNames(es: seq<Entry>, row: Entry) {
    forall e <- es :: e.id == row.id ==> e == row
  }

  /**
    What a complete pass with everything written adds: of the rows that were in the log all along, exactly those
    newer than the watermark less the overlap.
  */
  lemma CompletePassCatchesUpIff(usage: Usage, gateway: string, start: seq<Entry>, es: seq<Edit>, from: int,
                                 out: seq<Entry>, i: nat)
    requires i < |start| && Track(start, es, i).Some? && Mappable(start[i])
    requires NothingMissed(start, es, from, out) && (forall e <- out :: Newer(e, from)) && IdNames(out, start[i])
    ensures start[i].id in AllRecorded(usage, out, gateway) <==> start[i].id in usage || start[i].at.value > from
  {
    RecordedMeans(usage, out, gateway);
  }

  /* ---- a pass that stopped at its cap ---- */

  /** The watermark only moves forward. */
  lemma WatermarkOnlyRises(usage: Usage, es: seq<Entry>, gateway: string, g: string, w: Option<int>, v: Option<int>)
    requires IsWatermark(usage, g, w) && IsWatermark(AllRecorded(usage, es, gateway), g, v)
    ensures w.Some? ==> v.Some? && v.value >= w.value
  {
    RecordedMeans(usage, es, gateway);
    if w.Some? {
      var id :| id in usage && usage[id].gateway == g && usage[id].occurred == w.value;
      assert AllRecorded(usage, es, gateway)[id] == usage[id];
    }
  }

  /** Passes over one gateway, each reading rows newer than its own watermark less the overlap. */
  ghost predicate Passes(usage: Usage, gateway: string, overlap: int, walks: seq<seq<Entry>>)
    decreases |walks|
  {
    walks == [] ||
    ((exists w: Option<int> :: IsWatermark(usage, gateway, w)
                               && (w.Some? ==> forall e <- walks[0] :: Newer(e, w.value - overlap)))
     && Passes(AllRecorded(usage, walks[0], gateway), gateway, overlap, walks[1..]))
  }

  function AfterPasses(usage: Usage, gateway: string, walks: seq<seq<Entry>>): Usage
    decreases |walks|
  {
    if walks == [] then usage else AfterPasses(AllRecorded(usage, walks[0], gateway), gateway, walks[1..])
  }

  ghost predicate IdNamesAll(walks: seq<seq<Entry>>, row: Entry) {
    forall es <- walks :: IdNames(es, row)
  }

  /** A row left unread behind the watermark's overlap is never recorded, however many passes follow. */
  lemma {:induction false} LeftBehindForGood(usage: Usage, gateway: string, overlap: int, m: int, walks: seq<seq<Entry>>, row: Entry)
    requires IsWatermark(usage, gateway, Some(m)) && Passes(usage, gateway, overlap, walks) && IdNamesAll(walks, row)
    requires row.id !in usage && row.at.Some? && row.at.value <= m - overlap
    ensures row.id !in AfterPasses(usage, gateway, walks)
    decreases |walks|
  {
    if walks != [] {
      var w :| IsWatermark(usage, gateway, w) && (w.Some? ==> forall e <- walks[0] :: Newer(e, w.value - overlap));
      OneWatermark(usage, gateway, w, Some(m));
      var after := AllRecorded(usage, walks[0], gateway);
      RecordedMeans(usage, walks[0], gateway);
      assert IdNames(walks[0], row);
      assert row.id !in after;
      var v := HasWatermark(after, gateway);
      WatermarkOnlyRises(usage, walks[0], gateway, gateway, Some(m), v);
      assert IdNamesAll(walks[1..], row);
      LeftBehindForGood(after, gateway, overlap, v.value, walks[1..], row);
    }
  }

  lemma OneWatermark(usage: Usage, gateway: string, v: Option<int>, w: Option<int>)
    requires IsWatermark(usage, gateway, v) && IsWatermark(usage, gateway, w)
    ensures v == w
  {
  }

  lemma {:induction false} HasWatermark(usage: Usage, gateway: string) returns (w: Option<int>)
    ensures IsWatermark(usage, gateway, w)
    decreases |usage|
  {
    if usage == map[] {
      return None;
    }
    var id :| id in usage;
    var rest := usage - {id};
    assert usage == rest[id := usage[id]];
    w := HasWatermark(rest, gateway);
    if usage[id].gateway == gateway && (w.None? || w.value < usage[id].occurred) {
      w := Some(usage[id].occurred);
    } else if w.Some? {
      var top :| top in rest && rest[top].gateway == gateway && rest[top].occurred == w.value;
      assert usage[top] == rest[top];
    }
  }

  function Later(prior: Option<int>, t: int): int {
    if prior.Some? && prior.value > t then prior.value else t
  }

  /** A pass that read the first rows of the log, the newest one new to the store: the watermark is that row's time, or stays. */
  lemma WatermarkAfterAPass(usage: Usage, gateway: string, prior: Option<int>, log: seq<Entry>, n: nat, mark: Option<int>)
    requires IsWatermark(usage, gateway, prior) && 0 < n <= |log| && NewestFirst(log)
    requires Mappable(log[0]) && log[0].id !in usage
    requires IsWatermark(AllRecorded(usage, log[..n], gateway), gateway, mark)
    ensures mark == Some(Later(prior, log[0].at.value))
  {
    var out := log[..n];
    var after, t := AllRecorded(usage, out, gateway), Later(prior, log[0].at.value);
    RecordedMeans(usage, out, gateway);
    FirstRowWins(usage, out, gateway);
    forall id <- after | after[id].gateway == gateway
      ensures after[id].occurred <= t
    {
      NoneLater(usage, gateway, prior, log, n, id);
    }
    if prior.Some? && prior.value > log[0].at.value {
      var id :| id in usage && usage[id].gateway == gateway && usage[id].occurred == t;
      assert after[id] == usage[id];
    } else {
      assert after[log[0].id].occurred == t;
    }
    OneWatermark(after, gateway, mark, Some(t));
  }

  lemma NoneLater(usage: Usage, gateway: string, prior: Option<int>, log: seq<Entry>, n: nat, id: string)
    requires IsWatermark(usage, gateway, prior) && 0 < n <= |log| && NewestFirst(log) && Mappable(log[0])
    requires id in AllRecorded(usage, log[..n], gateway) && AllRecorded(usage, log[..n], gateway)[id].gateway == gateway
    ensures AllRecorded(usage, log[..n], gateway)[id].occurred <= Later(prior, log[0].at.value)
  {
    var after := AllRecorded(usage, log[..n], gateway);
    RecordedMeans(usage, log[..n], gateway);
    if id !in usage {
      var e :| e in log[..n] && e.id == id && FromEntry(e, gateway) == Some(after[id]);
      var k :| 0 <= k < n && log[..n][k] == e;
      assert log[k] == e;
    }
  }

  lemma {:induction false} FirstRowWins(usage: Usage, es: seq<Entry>, gateway: string)
    requires es != [] && Mappable(es[0]) && es[0].id !in usage
    ensures var after := AllRecorded(usage, es, gateway);
            es[0].id in after && Some(after[es[0].id]) == FromEntry(es[0], gateway)
  {
    if |es| == 1 {
      assert AllRecorded(usage, es[..0], gateway) == usage;
    } else {
      FirstRowWins(usage, es[..|es| - 1], gateway);
    }
  }

  lemma FirstPassHolds(usage: Usage, gateway: string, log: seq<Entry>, n: nat, k: nat)
    requires n <= |log| && k < |log| && Mappable(log[k]) && log[k].id !in usage && IdNames(log, log[k])
    requires forall j :: 0 <= j < |log| && log[j] == log[k] ==> j == k
    ensures log[k].id in AllRecorded(usage, log[..n], gateway) <==> k < n
  {
    RecordedMeans(usage, log[..n], gateway);
    if k < n {
      assert log[..n][k] == log[k];
    }
  }

  /**
    A pass that stopped at its cap after `n` rows, whatever had been imported before it, and a complete pass after it
    over the same log, from the watermark it finds: row `k` is recorded in the end exactly when it was among the first
    `n`, or lies inside the overlap behind the newest time recorded.
  */
  lemma CappedImportCatchesUpIff(
    usage: Usage, gateway: string, prior: Option<int>, log: seq<Entry>, n: nat, mark: Option<int>,
    now: int, overlap: int, backfill: int, out: seq<Entry>, k: nat)
    requires IsWatermark(usage, gateway, prior) && 0 < n <= |log| && NewestFirst(log) && k < |log|
    requires Mappable(log[0]) && log[0].id !in usage && Mappable(log[k]) && log[k].id !in usage
    requires IdNames(log, log[k]) && IdNames(out, log[k])
    requires forall j :: 0 <= j < |log| && log[j] == log[k] ==> j == k
    requires IsWatermark(AllRecorded(usage, log[..n], gateway), gateway, mark)
    requires var from := From(mark, now, overlap, backfill); NothingMissed(log, [], from, out) && forall e <- out :: Newer(e, from)
    ensures log[k].id in AllRecorded(AllRecorded(usage, log[..n], gateway), out, gateway)
            <==> k < n || log[k].at.value > Later(prior, log[0].at.value) - overlap
  {
    var once := AllRecorded(usage, log[..n], gateway);
    WatermarkAfterAPass(usage, gateway, prior, log, n, mark);
    FirstPassHolds(usage, gateway, log, n, k);
    CompletePassCatchesUpIff(once, gateway, log, [], From(mark, now, overlap, backfill), out, k);
  }
}
