/** Paging a log newest-first while entries keep arriving (cmd/costimport/gateway.go). */
module LogWalk {

  import opened Text

  // `at` is the parsed created_at, `None` when it does not parse; `body` is the rest of the row.
  datatype Entry = Entry(id: string, at: Option<int>, body: string)

  const PER_PAGE := 50

  /* ---- how the log moves ---- */

  // The log grows anywhere, a late entry included, and rotates by deleting its oldest row.
  datatype Edit = Insert(k: nat, entry: Entry) | DropOldest

  function Edited(log: seq<Entry>, e: Edit): seq<Entry> {
    match e
    case Insert(k, entry) => if k <= |log| then log[..k] + [entry] + log[k..] else log
    case DropOldest => if log == [] then [] else log[..|log| - 1]
  }

  /** Where row `i` stands after an edit, if it is still there. */
  function Moved(log: seq<Entry>, e: Edit, i: nat): Option<nat>
    requires i < |log|
  {
    match e
    case Insert(k, _) => if k <= i then Some(i + 1) else Some(i)
    case DropOldest => if i == |log| - 1 then None else Some(i)
  }

  function After(log: seq<Entry>, es: seq<Edit>): seq<Entry> {
    if es == [] then log else Edited(After(log, es[..|es| - 1]), es[|es| - 1])
  }

  /** Where row `i` of `log` stands after the edits; `None` once it has rotated away. */
  function Track(log: seq<Entry>, es: seq<Edit>, i: nat): (r: Option<nat>)
    requires i < |log|
    ensures r.Some? ==> i <= r.value < |After(log, es)| && After(log, es)[r.value] == log[i]
  {
    if es == [] then Some(i)
    else
      var before := es[..|es| - 1];
      match Track(log, before, i)
      case None => None
      case Some(k) => Moved(After(log, before), es[|es| - 1], k)
  }

  lemma {:induction false} TrackFurther(log: seq<Entry>, es: seq<Edit>, fs: seq<Edit>, i: nat)
    requires i < |log|
    ensures Track(log, es + fs, i).Some? ==>
              Track(log, es, i).Some? && Track(log, es + fs, i).value >= Track(log, es, i).value
  {
    if fs == [] {
      assert es + fs == es;
    } else {
      assert (es + fs)[..|es + fs| - 1] == es + fs[..|fs| - 1];
      TrackFurther(log, es, fs[..|fs| - 1], i);
    }
  }

  lemma {:induction false} EditsCompose(log: seq<Entry>, es: seq<Edit>, fs: seq<Edit>)
    ensures After(log, es + fs) == After(After(log, es), fs)
  {
    if fs == [] {
      assert es + fs == es;
    } else {
      assert (es + fs)[..|es + fs| - 1] == es + fs[..|fs| - 1];
      EditsCompose(log, es, fs[..|fs| - 1]);
    }
  }

  /** Newest first, as far as the timestamps can be read. */
  predicate NewestFirst(log: seq<Entry>) {
    forall i, j :: 0 <= i < j < |log| && log[i].at.Some? && log[j].at.Some? ==> log[i].at.value >= log[j].at.value
  }

  function Page(log: seq<Entry>, p: nat): seq<Entry> {
    var lo, hi := PER_PAGE * p, PER_PAGE * p + PER_PAGE;
    if lo >= |log| then [] else if hi >= |log| then log[lo..] else log[lo..hi]
  }

  predicate Newer(e: Entry, since: int) {
    e.at.Some? ==> e.at.value > since
  }

  // What happens around one request: the edits just before it, and whether it is answered with a page.
  datatype Turn = Turn(edits: seq<Edit>, answered: bool)

  class Gateway {
    var log: seq<Entry>
    var future: seq<Turn>

    constructor (log: seq<Entry>, future: seq<Turn>)
      ensures this.log == log && this.future == future
    {
      this.log, this.future := log, future;
    }

    /** One request for page `p`, counted from 0. */
    method Fetch(p: nat) returns (page: Option<seq<Entry>>, ghost es: seq<Edit>)
      modifies this
      ensures es == (if old(future) == [] then [] else old(future)[0].edits)
      ensures future == (if old(future) == [] then [] else old(future)[1..])
      ensures log == After(old(log), es)
      ensures page == if old(future) == [] || old(future)[0].answered then Some(Page(log, p)) else None
    {
      es := [];
      if future == [] {
        return Some(Page(log, p)), es;
      }
      var turn := future[0];
      for i := 0 to |turn.edits|
        invariant log == After(old(log), turn.edits[..i]) && future == old(future)
      {
        assert turn.edits[..i + 1][..i] == turn.edits[..i];
        log := Edited(log, turn.edits[i]);
      }
      assert turn.edits[..|turn.edits|] == turn.edits;
      future := future[1..];
      return if turn.answered then Some(Page(log, p)) else None, turn.edits;
    }
  }

  /** Whatever the log does, it stays newest-first. */
  ghost predicate StaysNewestFirst(log: seq<Entry>, future: seq<Turn>)
    decreases |future|
  {
    NewestFirst(log)
    && (future != [] ==> StaysNewestFirst(After(log, future[0].edits), future[1..]))
  }

  /** Every row that was there at the start and still is has been read, or lies on a page still to come. */
  ghost predicate ReadUpTo(start: seq<Entry>, es: seq<Edit>, p: nat, out: seq<Entry>) {
    forall i :: 0 <= i < |start| && Track(start, es, i).Some? ==> Track(start, es, i).value >= PER_PAGE * p || start[i] in out
  }

  /** Every such row that is newer than `since` has been read. */
  ghost predicate NothingMissed(start: seq<Entry>, es: seq<Edit>, since: int, out: seq<Entry>) {
    forall i :: 0 <= i < |start| && Track(start, es, i).Some? && start[i].at.Some? && start[i].at.value > since ==> start[i] in out
  }

  lemma ReadUpToAfterEdits(start: seq<Entry>, es: seq<Edit>, fs: seq<Edit>, p: nat, out: seq<Entry>)
    requires ReadUpTo(start, es, p, out)
    ensures ReadUpTo(start, es + fs, p, out)
  {
    forall i | 0 <= i < |start| && Track(start, es + fs, i).Some?
      ensures Track(start, es + fs, i).value >= PER_PAGE * p || start[i] in out
    {
      TrackFurther(start, es, fs, i);
    }
  }

  /** A page read to its end brings the reading one page further. */
  lemma PageRead(start: seq<Entry>, es: seq<Edit>, p: nat, out: seq<Entry>)
    requires ReadUpTo(start, es, p, out)
    ensures ReadUpTo(start, es, p + 1, out + Page(After(start, es), p))
  {
    var log := After(start, es);
    forall i | 0 <= i < |start| && Track(start, es, i).Some?
      ensures Track(start, es, i).value >= PER_PAGE * (p + 1) || start[i] in out + Page(log, p)
    {
      var k := Track(start, es, i).value;
      if PER_PAGE * p <= k < PER_PAGE * p + PER_PAGE {
        assert Page(log, p)[k - PER_PAGE * p] == log[k];
      }
    }
  }

  /** An empty page means that there was nothing left to read. */
  lemma EmptyPageIsTheEnd(start: seq<Entry>, es: seq<Edit>, p: nat, since: int, out: seq<Entry>)
    requires ReadUpTo(start, es, p, out) && Page(After(start, es), p) == []
    ensures NothingMissed(start, es, since, out)
  {
  }

  /** A row as old as `since` means that all newer ones lie before it. */
  lemma OldRowIsTheEnd(start: seq<Entry>, es: seq<Edit>, p: nat, j: nat, since: int, out: seq<Entry>)
    requires ReadUpTo(start, es, p, out) && NewestFirst(After(start, es)) && j < |Page(After(start, es), p)|
    requires var e := Page(After(start, es), p)[j]; e.at.Some? && e.at.value <= since
    ensures NothingMissed(start, es, since, out + Page(After(start, es), p)[..j])
  {
    var log, page := After(start, es), Page(After(start, es), p);
    forall i | 0 <= i < |start| && Track(start, es, i).Some? && start[i].at.Some? && start[i].at.value > since
      ensures start[i] in out + page[..j]
    {
      var k := Track(start, es, i).value;
      if PER_PAGE * p <= k {
        assert page[j] == log[PER_PAGE * p + j];
        assert k < PER_PAGE * p + j;
        assert page[..j][k - PER_PAGE * p] == log[k];
      }
    }
  }

  /** The log has held this row at some moment of the walk. */
  ghost predicate WasThere(start: seq<Entry>, es: seq<Edit>, e: Entry) {
    exists k: nat :: k <= |es| && e in After(start, es[..k])
  }

  lemma StillWasThere(start: seq<Entry>, es: seq<Edit>, fs: seq<Edit>, out: seq<Entry>)
    requires forall e <- out :: WasThere(start, es, e)
    ensures forall e <- out :: WasThere(start, es + fs, e)
  {
    forall e <- out
      ensures WasThere(start, es + fs, e)
    {
      var k: nat :| k <= |es| && e in After(start, es[..k]);
      assert (es + fs)[..k] == es[..k];
    }
  }

  lemma PageWasThere(start: seq<Entry>, es: seq<Edit>, p: nat)
    ensures forall e <- Page(After(start, es), p) :: WasThere(start, es, e)
  {
    assert es[..|es|] == es;
    forall e <- Page(After(start, es), p)
      ensures WasThere(start, es, e)
    {
      assert e in After(start, es[..|es|]);
    }
  }

  predicate AllAnswered(future: seq<Turn>) {
    forall t <- future :: t.answered
  }

  datatype Walk = Walk(out: seq<Entry>, complete: bool, failed: bool)

  /* ---- the walk ---- */

  function EditsOf(turns: seq<Turn>): seq<Edit> {
    if turns == [] then [] else EditsOf(turns[..|turns| - 1]) + turns[|turns| - 1].edits
  }

  /** What there is to tell of the first `n` requests. */
  function First(future: seq<Turn>, n: nat): seq<Turn> {
    if n <= |future| then future[..n] else future
  }

  /** `es` is what happened to the log around the first `n` requests, and `rest` is yet to happen. */
  predicate Used(future: seq<Turn>, n: nat, rest: seq<Turn>, es: seq<Edit>) {
    rest == future[|First(future, n)|..] && es == EditsOf(First(future, n))
  }

  predicate FirstAnswered(future: seq<Turn>, n: nat) {
    AllAnswered(First(future, n))
  }

  /** The rows on the first `p` pages, each as the log stood when it was asked for. */
  function RowsOf(start: seq<Entry>, future: seq<Turn>, p: nat): seq<Entry> {
    if p == 0 then [] else RowsOf(start, future, p - 1) + Page(After(start, EditsOf(First(future, p))), p - 1)
  }

  lemma UsedOneMore(future: seq<Turn>, n: nat, rest: seq<Turn>, es: seq<Edit>)
    requires Used(future, n, rest, es)
    ensures if rest == [] then Used(future, n + 1, rest, es + [])
            else Used(future, n + 1, rest[1..], es + rest[0].edits)
    ensures FirstAnswered(future, n) && (rest == [] || rest[0].answered) ==> FirstAnswered(future, n + 1)
    ensures rest != [] ==> n < |future| && rest[0] == future[n]
  {
    assert es + [] == es;
    if n < |future| {
      assert future[..n + 1][..n] == future[..n];
      assert future[..n + 1] == future[..n] + [future[n]];
      assert future[n..][1..] == future[n + 1..];
    } else {
      assert future[..|future|] == future;
    }
  }

  /** `out` is what `p` whole pages have brought of the log that was `start`, if its rows are newer than `since`. */
  ghost predicate Gathered(start: seq<Entry>, es: seq<Edit>, since: int, p: nat, out: seq<Entry>) {
    && ReadUpTo(start, es, p, out) && p <= |out| <= PER_PAGE * p
    && (forall e <- out :: Newer(e, since)) && forall e <- out :: WasThere(start, es, e)
  }

  lemma StillGathered(start: seq<Entry>, es: seq<Edit>, fs: seq<Edit>, since: int, p: nat, out: seq<Entry>)
    requires Gathered(start, es, since, p, out)
    ensures Gathered(start, es + fs, since, p, out)
  {
    ReadUpToAfterEdits(start, es, fs, p, out);
    StillWasThere(start, es, fs, out);
  }

  lemma GatheredPage(start: seq<Entry>, es: seq<Edit>, since: int, p: nat, out: seq<Entry>)
    requires Gathered(start, es, since, p, out)
    requires var page := Page(After(start, es), p); page != [] && forall e <- page :: Newer(e, since)
    ensures Gathered(start, es, since, p + 1, out + Page(After(start, es), p))
  {
    PageRead(start, es, p, out);
    PageWasThere(start, es, p);
  }

  /**
    What a walk over a log that was `start` comes to.  It has made `pages` requests that brought whole pages, and, unless
    the cap stopped it, one more: `es` is what happened to the log around just those, and `rest` is yet to happen.
  */
  ghost predicate IsWalk(start: seq<Entry>, future: seq<Turn>, rest: seq<Turn>, since: int, cap: int,
                         w: Walk, es: seq<Edit>, pages: nat)
  {
    var n := if w.complete || w.failed then pages + 1 else pages;
    && Used(future, n, rest, es)
    && FirstAnswered(future, pages) && (w.failed <==> !FirstAnswered(future, n)) && (w.complete ==> !w.failed)
    && (forall e <- w.out :: Newer(e, since) && WasThere(start, es, e))
    && (if w.complete then RowsOf(start, future, pages) <= w.out <= RowsOf(start, future, pages + 1)
        else w.out == RowsOf(start, future, pages))
    && (w.complete ==> NothingMissed(start, es, since, w.out))
    && (!w.complete ==> ReadUpTo(start, es, pages, w.out) && |w.out| <= PER_PAGE * pages)
    && (!w.complete && !w.failed ==> |w.out| >= cap)
    && pages <= |w.out| < (if cap > 0 then cap else 1) + PER_PAGE
    && (cap <= 0 ==> w == Walk([], false, false))
  }

  lemma FailedWalk(start: seq<Entry>, future: seq<Turn>, rest: seq<Turn>, since: int, cap: int, out: seq<Entry>, es: seq<Edit>, p: nat)
    requires Gathered(start, es, since, p, out) && |out| < cap && Used(future, p + 1, rest, es)
    requires FirstAnswered(future, p) && p < |future| && !future[p].answered && out == RowsOf(start, future, p)
    ensures IsWalk(start, future, rest, since, cap, Walk(out, false, true), es, p)
  {
    assert future[p] in future[..p + 1];
    assert p + 1 == |future| ==> future[..p + 1] == future;
  }

  lemma FinishedWalk(
    start: seq<Entry>, future: seq<Turn>, rest: seq<Turn>, since: int, cap: int, out: seq<Entry>, read: seq<Entry>,
    es: seq<Edit>, p: nat)
    requires Gathered(start, es, since, p, out) && |out| < cap && Used(future, p + 1, rest, es)
    requires FirstAnswered(future, p) && FirstAnswered(future, p + 1) && out == RowsOf(start, future, p)
    requires read <= Page(After(start, es), p) && |read| < PER_PAGE && forall e <- read :: Newer(e, since)
    requires NothingMissed(start, es, since, out + read)
    ensures IsWalk(start, future, rest, since, cap, Walk(out + read, true, false), es, p)
  {
    PageWasThere(start, es, p);
    assert forall e <- read :: e in Page(After(start, es), p);
    assert RowsOf(start, future, p + 1) == out + Page(After(start, es), p);
  }

  /** `read` is the rows of a page before the first that is as old as `since`, and `stop` tells whether there is one. */
  predicate IsRead(page: seq<Entry>, since: int, read: seq<Entry>, stop: bool) {
    && |read| <= |page| && read == page[..|read|] && (forall e <- read :: Newer(e, since))
    && if stop then |read| < |page| && page[|read|].at.Some? && page[|read|].at.value <= since else |read| == |page|
  }

  /** A timestamp that does not parse stops nothing. */
  method ReadPage(page: seq<Entry>, since: int) returns (read: seq<Entry>, stop: bool)
    ensures IsRead(page, since, read, stop)
  {
    read := [];
    for j := 0 to |page|
      invariant read == page[..j] && forall e <- read :: Newer(e, since)
    {
      if page[j].at.Some? && page[j].at.value <= since {
        return read, true;
      }
      read := read + [page[j]];
    }
    return read, false;
  }

  /** A walk on its way, `p` pages read. */
  ghost predicate Walking(start: seq<Entry>, future: seq<Turn>, log: seq<Entry>, rest: seq<Turn>, since: int, p: nat,
                          out: seq<Entry>, es: seq<Edit>)
  {
    && StaysNewestFirst(log, rest) && log == After(start, es)
    && Used(future, p, rest, es) && FirstAnswered(future, p)
    && Gathered(start, es, since, p, out) && out == RowsOf(start, future, p)
  }

  lemma WalkBegins(log: seq<Entry>, future: seq<Turn>, since: int)
    requires StaysNewestFirst(log, future)
    ensures Walking(log, future, log, future, since, 0, [], [])
  {
    assert future[..0] == [];
  }

  lemma CappedWalk(start: seq<Entry>, future: seq<Turn>, log: seq<Entry>, rest: seq<Turn>, since: int, cap: int, p: nat,
                   out: seq<Entry>, es: seq<Edit>)
    requires Walking(start, future, log, rest, since, p, out, es)
    requires cap <= |out| < (if cap > 0 then cap else 1) + PER_PAGE && (cap <= 0 ==> out == [])
    ensures IsWalk(start, future, rest, since, cap, Walk(out, false, false), es, p)
  {
  }

  /** A walk that has asked for page `p`, and what there was on it. */
  ghost predicate Asked(start: seq<Entry>, future: seq<Turn>, log: seq<Entry>, rest: seq<Turn>, since: int, p: nat,
                        out: seq<Entry>, es: seq<Edit>)
  {
    && StaysNewestFirst(log, rest) && log == After(start, es)
    && Used(future, p + 1, rest, es) && FirstAnswered(future, p)
    && Gathered(start, es, since, p, out) && out == RowsOf(start, future, p)
  }

  lemma NoAnswer(start: seq<Entry>, future: seq<Turn>, log: seq<Entry>, rest: seq<Turn>, since: int, cap: int, p: nat,
                 out: seq<Entry>, es: seq<Edit>)
    requires Asked(start, future, log, rest, since, p, out, es) && |out| < cap && p < |future| && !future[p].answered
    ensures IsWalk(start, future, rest, since, cap, Walk(out, false, true), es, p)
  {
    FailedWalk(start, future, rest, since, cap, out, es, p);
  }

  lemma EmptyEnds(start: seq<Entry>, future: seq<Turn>, log: seq<Entry>, rest: seq<Turn>, since: int, cap: int, p: nat,
                  out: seq<Entry>, es: seq<Edit>)
    requires Asked(start, future, log, rest, since, p, out, es) && |out| < cap && FirstAnswered(future, p + 1)
    requires Page(log, p) == []
    ensures IsWalk(start, future, rest, since, cap, Walk(out, true, false), es, p)
  {
    EmptyPageIsTheEnd(start, es, p, since, out);
    assert out + [] == out;
    FinishedWalk(start, future, rest, since, cap, out, [], es, p);
  }

  lemma OldEnds(start: seq<Entry>, future: seq<Turn>, log: seq<Entry>, rest: seq<Turn>, since: int, cap: int, p: nat,
                out: seq<Entry>, read: seq<Entry>, es: seq<Edit>)
    requires Asked(start, future, log, rest, since, p, out, es) && |out| < cap && FirstAnswered(future, p + 1)
    requires IsRead(Page(log, p), since, read, true)
    ensures IsWalk(start, future, rest, since, cap, Walk(out + read, true, false), es, p)
  {
    OldRowIsTheEnd(start, es, p, |read|, since, out);
    FinishedWalk(start, future, rest, since, cap, out, read, es, p);
  }

  lemma GoesOn(start: seq<Entry>, future: seq<Turn>, log: seq<Entry>, rest: seq<Turn>, since: int, p: nat,
               out: seq<Entry>, read: seq<Entry>, es: seq<Edit>)
    requires Asked(start, future, log, rest, since, p, out, es) && FirstAnswered(future, p + 1)
    requires Page(log, p) != [] && IsRead(Page(log, p), since, read, false)
    ensures Walking(start, future, log, rest, since, p + 1, out + read, es)
    ensures |out| < |out + read| <= |out| + PER_PAGE
  {
    assert read == Page(log, p);
    GatheredPage(start, es, since, p, out);
  }

  /** One request of a walk, for page `p`. */
  method Request(g: Gateway, p: nat, since: int, out: seq<Entry>,
                 ghost start: seq<Entry>, ghost future: seq<Turn>, ghost before: seq<Edit>)
    returns (page: Option<seq<Entry>>, ghost es: seq<Edit>)
    requires Walking(start, future, g.log, g.future, since, p, out, before)
    modifies g
    ensures Asked(start, future, g.log, g.future, since, p, out, es) && g.log == After(start, es)
    ensures if page.Some? then page.value == Page(g.log, p) && FirstAnswered(future, p + 1)
            else p < |future| && !future[p].answered
  {
    ghost var fs;
    UsedOneMore(future, p, g.future, before);
    page, fs := g.Fetch(p);
    EditsCompose(start, before, fs);
    StillGathered(start, before, fs, since, p, out);
    es := before + fs;
  }

  /** One page of a walk: the walk that ends with it, or all of its rows as well. */
  method OnePage(g: Gateway, p: nat, since: int, cap: int, out: seq<Entry>,
                 ghost start: seq<Entry>, ghost future: seq<Turn>, ghost before: seq<Edit>)
    returns (done: Option<Walk>, more: seq<Entry>, ghost es: seq<Edit>)
    requires Walking(start, future, g.log, g.future, since, p, out, before) && |out| < cap
    modifies g
    ensures g.log == After(start, es)
    ensures done.Some? ==> IsWalk(start, future, g.future, since, cap, done.value, es, p)
    ensures done.None? ==>
              Walking(start, future, g.log, g.future, since, p + 1, more, es) && |out| < |more| <= |out| + PER_PAGE
  {
    var page;
    page, es := Request(g, p, since, out, start, future, before);
    if page == None {
      NoAnswer(start, future, g.log, g.future, since, cap, p, out, es);
      return Some(Walk(out, false, true)), out, es;
    }
    if page.value == [] {
      EmptyEnds(start, future, g.log, g.future, since, cap, p, out, es);
      return Some(Walk(out, true, false)), out, es;
    }
    var read, stop := ReadPage(page.value, since);
    if stop {
      OldEnds(start, future, g.log, g.future, since, cap, p, out, read, es);
      return Some(Walk(out + read, true, false)), out, es;
    }
    GoesOn(start, future, g.log, g.future, since, p, out, read, es);
    return None, out + read, es;
  }

  lemma AllMeansFirst(future: seq<Turn>, n: nat)
    requires AllAnswered(future)
    ensures FirstAnswered(future, n)
  {
  }

  /** Pages the log newest-first and stops at `since`, at the end of the log, at a failed request, or at `cap`. */
  method LogsSince(g: Gateway, since: int, cap: int) returns (w: Walk, ghost es: seq<Edit>, ghost pages: nat)
    requires StaysNewestFirst(g.log, g.future)
    modifies g
    ensures g.log == After(old(g.log), es)
    ensures IsWalk(old(g.log), old(g.future), g.future, since, cap, w, es, pages)
    ensures |w.out| < (if cap > 0 then cap else 1) + 50
  {
    ghost var start, future := g.log, g.future;
    var out: seq<Entry>, p := [], 0;
    es, pages := [], 0;
    WalkBegins(start, future, since);
    while |out| < cap
      invariant Walking(start, future, g.log, g.future, since, p, out, es) && g.log == After(start, es)
      invariant pages == p && |out| < (if cap > 0 then cap else 1) + PER_PAGE && (cap <= 0 ==> out == [])
      decreases cap - |out|
    {
      var done;
      done, out, es := OnePage(g, p, since, cap, out, start, future, es);
      if done.Some? {
        return done.value, es, pages;
      }
      p, pages := p + 1, pages + 1;
    }
    CappedWalk(start, future, g.log, g.future, since, cap, p, out, es);
    return Walk(out, false, false), es, pages;
  }

  /** A walk all of whose requests are answered does not fail. */
  lemma AnsweredWalksDoNotFail(
    start: seq<Entry>, future: seq<Turn>, rest: seq<Turn>, since: int, cap: int, w: Walk, es: seq<Edit>, pages: nat)
    requires IsWalk(start, future, rest, since, cap, w, es, pages) && AllAnswered(future)
    ensures !w.failed
  {
    AllMeansFirst(future, pages + 1);
  }

  /* ---- what the walk counts on ---- */

  /**
    Rows only ever leave at the old end.  Were one to leave in front of the reader, the first row of the next
    page would slip back onto the page just read, and be on neither.
  */
  lemma RowRemovedInFrontIsASkip(log: seq<Entry>, k: nat)
    requires |log| > PER_PAGE > k && forall i, j :: 0 <= i < j < |log| ==> log[i] != log[j]
    ensures log[PER_PAGE] !in Page(log, 0) + Page(log[..k] + log[k + 1..], 1)
  {
    var after := log[..k] + log[k + 1..];
    assert after[PER_PAGE - 1] == log[PER_PAGE];
    forall i | 0 <= i < |Page(after, 1)|
      ensures Page(after, 1)[i] != log[PER_PAGE]
    {
      assert Page(after, 1)[i] == after[PER_PAGE + i] == log[PER_PAGE + i + 1];
    }
  }
}
