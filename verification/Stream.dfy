/** Following the event log over connections that break (cmd/control-api/stream.go). */
module Stream {

  import opened Text

  // `year` is that of occurred_at; a timestamptz holds years from -4713 to 294276.
  datatype Event = Event(id: int, year: int, body: string)

  /** Whether json.Marshal takes the event: its only part that may fail is a time, outside the years 0 to 9999. */
  predicate Fits(e: Event) {
    0 <= e.year <= 9999
  }

  const LIMIT := 100

  /* ---- the log ---- */

  /** Ids start at 1 and only grow. */
  predicate Ordered(log: seq<Event>) {
    log == [] ||
    (Ordered(log[..|log| - 1]) && log[|log| - 1].id > Latest(log[..|log| - 1]))
  }

  function Latest(log: seq<Event>): int {
    if log == [] then 0 else log[|log| - 1].id
  }

  /** The events after `lo` up to and with `hi`. */
  function Between(log: seq<Event>, lo: int, hi: int): seq<Event> {
    if log == [] then []
    else
      var front, last := Between(log[..|log| - 1], lo, hi), log[|log| - 1];
      if lo < last.id <= hi then front + [last] else front
  }

  function Above(log: seq<Event>, lo: int): seq<Event> {
    if log == [] then []
    else if lo < log[|log| - 1].id then Above(log[..|log| - 1], lo) + [log[|log| - 1]]
    else Above(log[..|log| - 1], lo)
  }

  function Page(log: seq<Event>, after: int): (r: seq<Event>)
    ensures |r| <= LIMIT && r <= Above(log, after)
  {
    var above := Above(log, after);
    if |above| <= LIMIT then above else above[..LIMIT]
  }

  /** The events that can be sent at all. */
  function Fitting(es: seq<Event>): seq<Event> {
    if es == [] then []
    else if Fits(es[|es| - 1]) then Fitting(es[..|es| - 1]) + [es[|es| - 1]]
    else Fitting(es[..|es| - 1])
  }

  lemma {:induction false} OrderedBounds(log: seq<Event>)
    requires Ordered(log)
    ensures forall e <- log :: 0 < e.id <= Latest(log)
    ensures Latest(log) >= 0
  {
    if log != [] {
      OrderedBounds(log[..|log| - 1]);
    }
  }

  lemma {:induction false} BetweenUpToTheEnd(log: seq<Event>, lo: int, hi: int)
    requires Ordered(log) && Latest(log) <= hi
    ensures Between(log, lo, hi) == Above(log, lo)
  {
    if log != [] {
      OrderedBounds(log[..|log| - 1]);
      BetweenUpToTheEnd(log[..|log| - 1], lo, hi);
    }
  }

  /** Up to its j-th event, a page is the log's stretch up to that id. */
  lemma {:induction false} AboveIsTheStretch(log: seq<Event>, lo: int, j: nat)
    requires Ordered(log) && j < |Above(log, lo)|
    ensures Between(log, lo, Above(log, lo)[j].id) == Above(log, lo)[..j + 1]
    ensures Above(log, lo)[j].id > lo && Above(log, lo)[j].id <= Latest(log)
  {
    var front, last := log[..|log| - 1], log[|log| - 1];
    if lo < last.id && j == |Above(front, lo)| {
      OrderedBounds(front);
      BetweenUpToTheEnd(front, lo, last.id);
    } else {
      AboveIsTheStretch(front, lo, j);
    }
  }

  lemma {:induction false} StretchesJoin(log: seq<Event>, lo: int, mid: int, hi: int)
    requires Ordered(log) && lo <= mid <= hi
    ensures Between(log, lo, hi) == Between(log, lo, mid) + Between(log, mid, hi)
  {
    if log != [] {
      var front := log[..|log| - 1];
      StretchesJoin(front, lo, mid, hi);
      if log[|log| - 1].id <= mid {
        NothingBetween(front, mid, hi);
      }
    }
  }

  lemma {:induction false} NothingBetween(log: seq<Event>, lo: int, hi: int)
    requires Ordered(log) && Latest(log) <= lo
    ensures Between(log, lo, hi) == []
  {
    if log != [] {
      OrderedBounds(log[..|log| - 1]);
      NothingBetween(log[..|log| - 1], lo, hi);
    }
  }

  lemma {:induction false} FittingJoin(es: seq<Event>, fs: seq<Event>)
    ensures Fitting(es + fs) == Fitting(es) + Fitting(fs)
  {
    if fs == [] {
      assert es + fs == es;
    } else {
      assert (es + fs)[..|es + fs| - 1] == es + fs[..|fs| - 1];
      FittingJoin(es, fs[..|fs| - 1]);
    }
  }

  /** What is appended lies after everything that was there. */
  lemma {:induction false} OldStretchesStay(log: seq<Event>, more: seq<Event>, lo: int, hi: int)
    requires Ordered(log + more) && hi <= Latest(log)
    ensures Ordered(log) && Between(log + more, lo, hi) == Between(log, lo, hi) && Latest(log + more) >= Latest(log)
  {
    if more == [] {
      assert log + more == log;
    } else {
      assert (log + more)[..|log + more| - 1] == log + more[..|more| - 1];
      OldStretchesStay(log, more[..|more| - 1], lo, hi);
    }
  }

  lemma {:induction false} EmptyStretch(log: seq<Event>, lo: int)
    ensures Between(log, lo, lo) == []
  {
    if log != [] {
      EmptyStretch(log[..|log| - 1], lo);
    }
  }

  /** Reading a page up to its j-th event lengthens the stretch read by exactly the page's beginning. */
  lemma Reaches(log: seq<Event>, start: int, after: int, j: nat)
    requires Ordered(log) && start <= after && j < |Page(log, after)|
    ensures var page := Page(log, after);
            && start <= page[j].id <= Latest(log)
            && Fitting(Between(log, start, page[j].id)) == Fitting(Between(log, start, after)) + Fitting(page[..j + 1])
  {
    var page := Page(log, after);
    AboveIsTheStretch(log, after, j);
    assert page[..j + 1] == Above(log, after)[..j + 1];
    StretchesJoin(log, start, after, page[j].id);
    FittingJoin(Between(log, start, after), page[..j + 1]);
    EmptyStretch(log, start);
  }

  /* ---- one client, any number of connections ---- */

  // One turn of the stream's loop: what has been appended since, and whether it is a tick, of whose events `arrive`
  // arrive before the line breaks (None: all), or the end.
  datatype Turn = Tick(more: seq<Event>, arrive: Option<nat>) | End(more: seq<Event>)

  function After(log: seq<Event>, turns: seq<Turn>): seq<Event> {
    if turns == [] then log else After(log, turns[..|turns| - 1]) + turns[|turns| - 1].more
  }

  ghost predicate Grows(log: seq<Event>, turns: seq<Turn>) {
    forall i :: 0 <= i <= |turns| ==> Ordered(After(log, turns[..i]))
  }

  /** Nothing is appended and nothing breaks. */
  predicate Uneventful(turn: Turn) {
    turn.Tick? && turn.more == [] && turn.arrive == None
  }

  /** The first `n` turns are uneventful. */
  predicate Quiet(turns: seq<Turn>, n: nat)
    requires n <= |turns|
  {
    n == 0 || (Quiet(turns, n - 1) && Uneventful(turns[n - 1]))
  }

  /* ---- what a connection comes to ---- */

  /** Of a page, what arrives of it. */
  function Arriving(page: seq<Event>, arrive: Option<nat>): seq<Event> {
    if Breaks(page, arrive) then Fitting(page)[..arrive.value] else Fitting(page)
  }

  predicate Breaks(page: seq<Event>, arrive: Option<nat>) {
    arrive.Some? && arrive.value < |Fitting(page)|
  }

  /** What `arrived` makes of the last id, if anything did. */
  function LastId(before: Option<int>, arrived: seq<Event>): Option<int> {
    if arrived == [] then before else Some(arrived[|arrived| - 1].id)
  }

  // One connection on its way: the log, what the client has, and how far the server has read.
  datatype Session = Session(log: seq<Event>, received: seq<Event>, lastId: Option<int>, cursor: int, over: bool)

  function TurnOf(s: Session, turn: Turn): Session {
    var log := s.log + turn.more;
    if s.over || turn.End? then s.(log := log, over := true)
    else
      var page := Page(log, s.cursor);
      var arrived := Arriving(page, turn.arrive);
      Session(log, s.received + arrived, LastId(s.lastId, arrived),
              if arrived == [] then s.cursor else arrived[|arrived| - 1].id, Breaks(page, turn.arrive))
  }

  function SessionAfter(s: Session, turns: seq<Turn>): Session {
    if turns == [] then s else TurnOf(SessionAfter(s, turns[..|turns| - 1]), turns[|turns| - 1])
  }

  // What there is to know between connections.
  datatype View = View(log: seq<Event>, received: seq<Event>, lastId: Option<int>, start: int)

  /** One connection, from the client's place, or from where it is told to start. */
  function Connection(v: View, asked: Option<int>, turns: seq<Turn>, latestWorks: bool): View {
    var from := if v.lastId.Some? then v.lastId.value else StartOf(v.log, asked, latestWorks);
    var s := SessionAfter(Session(v.log, v.received, v.lastId, from, false), turns);
    View(s.log, s.received, s.lastId, if v.lastId.Some? then v.start else from)
  }

  lemma {:induction false} CursorIsLastSent(page: seq<Event>, after: int)
    ensures LastFitting(page, after) == if Fitting(page) == [] then after else Fitting(page)[|Fitting(page)| - 1].id
  {
    if page != [] && !Fits(page[|page| - 1]) {
      CursorIsLastSent(page[..|page| - 1], after);
    }
  }

  /** The line breaks before event `j` if just those before it arrive and it is to be sent. */
  lemma BreaksThere(page: seq<Event>, j: nat)
    requires j < |page| && Fits(page[j])
    ensures var arrive := Some(|Fitting(page[..j])|);
            Breaks(page, arrive) && Arriving(page, arrive) == Fitting(page[..j])
  {
    OneMoreOfThePage(page, 0, j);
    FittingJoin(page[..j + 1], page[j + 1..]);
    assert page == page[..j + 1] + page[j + 1..];
  }

  class Client {
    var log: seq<Event>            // the events this user may see
    var received: seq<Event>
    var lastId: Option<int>        // what it sends as Last-Event-ID
    const asked: Option<int>       // ?after= of its address
    ghost var start: int           // where the connection began on which the first event arrived

    constructor (log: seq<Event>, asked: Option<int>)
      requires Ordered(log)
      ensures this.log == log && this.asked == asked && received == [] && lastId == None && Valid()
    {
      this.log, this.asked, received, lastId, start := log, asked, [], None, 0;
    }

    ghost function Seen(): View
      reads this
    {
      View(log, received, lastId, start)
    }

    /** Every event received so far, in order, is every one that can be sent between the start and the last id. */
    ghost predicate Valid()
      reads this
    {
      && Ordered(log)
      && if lastId == None then received == []
         else received != [] && start <= lastId.value <= Latest(log) && received == Fitting(Between(log, start, lastId.value))
    }

    method Cursor(latestWorks: bool) returns (after: int)
      ensures after == if lastId.Some? then lastId.value
                       else if asked.Some? then asked.value
                       else if latestWorks then Latest(log) else 0
    {
      if lastId.Some? {
        return lastId.value;
      }
      if asked.Some? {
        return asked.value;
      }
      return if latestWorks then Latest(log) else 0;
    }

    method Append(more: seq<Event>)
      requires Valid() && Ordered(log + more)
      modifies this`log
      ensures Valid() && log == old(log) + more
    {
      if lastId.Some? {
        OldStretchesStay(log, more, start, lastId.value);
      }
      log := log + more;
    }

    /** The server's cursor is where the client is. */
    ghost predicate InStep(cursor: int)
      reads this
    {
      if lastId == None then cursor == start else cursor == lastId.value
    }

    /** Of the page after `after`, the first `j` events have been received, those that can be sent. */
    ghost predicate ReadTo(before: seq<Event>, after: int, j: nat)
      reads this
    {
      && Ordered(log) && start <= after && j <= |Page(log, after)|
      && before == Fitting(Between(log, start, after)) && received == before + Fitting(Page(log, after)[..j])
    }

    /**
      A page on its way to a client that had `before`: of its first `j` events those that can be sent have arrived, and
      `left` more will before the line breaks, if it does.
    */
    ghost predicate Writing(before: seq<Event>, beforeId: Option<int>, after: int, arrive: Option<nat>, j: nat,
                            cursor: int, left: Option<nat>)
      reads this
    {
      && Valid() && InStep(cursor) && ReadTo(before, after, j) && cursor == LastFitting(Page(log, after)[..j], after)
      && lastId == LastId(beforeId, Fitting(Page(log, after)[..j]))
      && if arrive == None then left == None
         else left.Some? && left.value + |Fitting(Page(log, after)[..j])| == arrive.value
    }

    /** The page is through, or the line has broken on it. */
    ghost predicate Written(before: seq<Event>, beforeId: Option<int>, after: int, arrive: Option<nat>, cursor: int, broken: bool)
      reads this
    {
      var page := Page(log, after);
      var arrived := Arriving(page, arrive);
      && Valid() && received == before + arrived && lastId == LastId(beforeId, arrived)
      && cursor == (if arrived == [] then after else arrived[|arrived| - 1].id)
      && (broken <==> Breaks(page, arrive)) && (!broken ==> cursor == CursorAfter(log, after) && InStep(cursor))
    }

    lemma PageBegins(after: int, arrive: Option<nat>)
      requires Valid() && InStep(after)
      ensures Writing(received, lastId, after, arrive, 0, after, arrive)
    {
      EmptyStretch(log, start);
      assert Page(log, after)[..0] == [];
    }

    lemma Skips(before: seq<Event>, beforeId: Option<int>, after: int, arrive: Option<nat>, j: nat, cursor: int, left: Option<nat>)
      requires Writing(before, beforeId, after, arrive, j, cursor, left) && j < |Page(log, after)| && !Fits(Page(log, after)[j])
      ensures Writing(before, beforeId, after, arrive, j + 1, cursor, left)
    {
      OneMoreOfThePage(Page(log, after), after, j);
    }

    lemma LineBreaks(before: seq<Event>, beforeId: Option<int>, after: int, arrive: Option<nat>, j: nat, cursor: int)
      requires Writing(before, beforeId, after, arrive, j, cursor, Some(0)) && j < |Page(log, after)| && Fits(Page(log, after)[j])
      ensures Written(before, beforeId, after, arrive, cursor, true)
    {
      BreaksThere(Page(log, after), j);
      CursorIsLastSent(Page(log, after)[..j], after);
    }

    lemma PageEnds(before: seq<Event>, beforeId: Option<int>, after: int, arrive: Option<nat>, cursor: int, left: Option<nat>)
      requires Writing(before, beforeId, after, arrive, |Page(log, after)|, cursor, left)
      ensures Written(before, beforeId, after, arrive, cursor, false)
    {
      var page := Page(log, after);
      assert page[..|page|] == page;
      CursorIsLastSent(page, after);
    }

    /** With one more event received, the stretch that has been read ends there. */
    lemma OneMoreReceived(before: seq<Event>, after: int, j: nat)
      requires ReadTo(before, after, j) && j < |Page(log, after)| && Fits(Page(log, after)[j])
      ensures var page, e := Page(log, after), Page(log, after)[j];
              && Fitting(page[..j + 1]) == Fitting(page[..j]) + [e] && LastFitting(page[..j + 1], after) == e.id
              && received + [e] == before + Fitting(page[..j + 1])
              && start <= e.id <= Latest(log) && received + [e] == Fitting(Between(log, start, e.id))
    {
      Reaches(log, start, after, j);
      OneMoreOfThePage(Page(log, after), after, j);
    }

    method Receive(e: Event, after: int, j: nat, left: Option<nat>,
                   ghost before: seq<Event>, ghost beforeId: Option<int>, ghost arrive: Option<nat>, ghost cursor: int)
      returns (fewer: Option<nat>)
      requires Writing(before, beforeId, after, arrive, j, cursor, left) && left != Some(0)
      requires j < |Page(log, after)| && e == Page(log, after)[j] && Fits(e)
      modifies this`received, this`lastId
      ensures Writing(before, beforeId, after, arrive, j + 1, e.id, fewer)
    {
      OneMoreReceived(before, after, j);
      received := received + [e];
      lastId := Some(e.id);
      fewer := if left.Some? then Some(left.value - 1) else None;
    }

    /** One page written to the line; `after` is the server's cursor, which the client's follows. */
    method WritePage(after: int, arrive: Option<nat>) returns (cursor: int, broken: bool)
      requires Valid() && InStep(after)
      modifies this`received, this`lastId
      ensures Written(old(received), old(lastId), after, arrive, cursor, broken)
    {
      PageBegins(after, arrive);
      var left: Option<nat> := arrive;
      cursor := after;
      for j := 0 to |Page(log, after)|
        invariant Writing(old(received), old(lastId), after, arrive, j, cursor, left)
      {
        var e := Page(log, after)[j];
        if !Fits(e) {
          Skips(old(received), old(lastId), after, arrive, j, cursor, left);
        } else if left == Some(0) {
          LineBreaks(old(received), old(lastId), after, arrive, j, cursor);
          return cursor, true;
        } else {
          left := Receive(e, after, j, left, old(received), old(lastId), arrive, cursor);
          cursor := e.id;
        }
      }
      PageEnds(old(received), old(lastId), after, arrive, cursor, left);
      broken := false;
    }

    method OneTurn(turn: Turn, after: int, over: bool) returns (cursor: int, ended: bool)
      requires Valid() && Ordered(log + turn.more)
      requires over || InStep(after)
      modifies this`log, this`received, this`lastId
      ensures Valid() && old(received) <= received && (old(lastId).Some? ==> lastId.Some?)
      ensures log == old(log) + turn.more
      ensures ended || InStep(cursor)
      ensures Uneventful(turn) && !over ==> !ended && log == old(log) && cursor == CursorAfter(log, after)
      ensures Session(log, received, lastId, cursor, ended)
              == TurnOf(Session(old(log), old(received), old(lastId), after, over), turn)
    {
      cursor, ended := after, over;
      assert log + [] == log;
      Append(turn.more);
      if !over {
        if turn.End? {
          ended := true;
        } else {
          cursor, ended := WritePage(after, turn.arrive);
        }
      }
    }

    /** The same, knowing how many uneventful ticks there have been from `from` on. */
    method Turned(turn: Turn, after: int, over: bool, ghost from: int, ghost n: nat, ghost quiet: bool)
      returns (cursor: int, ended: bool)
      requires Valid() && Ordered(log + turn.more)
      requires over || InStep(after)
      requires quiet ==> !over && after == CursorAfterTicks(log, from, n)
      modifies this`log, this`received, this`lastId
      ensures Valid() && old(received) <= received && (old(lastId).Some? ==> lastId.Some?)
      ensures log == old(log) + turn.more
      ensures ended || InStep(cursor)
      ensures quiet && Uneventful(turn) ==> !ended && log == old(log) && cursor == CursorAfterTicks(log, from, n + 1)
      ensures Session(log, received, lastId, cursor, ended)
              == TurnOf(Session(old(log), old(received), old(lastId), after, over), turn)
    {
      OneMoreTick(log, from, n);
      cursor, ended := OneTurn(turn, after, over);
    }

    /** One connection, from its cursor to its end. */
    method Follow(turns: seq<Turn>, latestWorks: bool)
      requires Valid() && Grows(log, turns)
      modifies this
      ensures Valid() && old(received) <= received && log == After(old(log), turns)
      ensures old(lastId).Some? ==> lastId.Some? && start == old(start)
      ensures old(lastId) == None ==>
                start == StartOf(old(log), asked, latestWorks)
      ensures Quiet(turns, |turns|) ==>
                InStep(CursorAfterTicks(log, if old(lastId).Some? then old(lastId).value else start, |turns|))
      ensures Seen() == Connection(old(Seen()), asked, turns, latestWorks)
    {
      var after := Cursor(latestWorks);
      if lastId == None {
        start := after;
      }
      Loop(turns, after);
    }

    /**
      A first connection, after which everything is as in `mid`, what is appended until the client is back, and a second
      one.  What is missed lies between the two starts; it is something only if no event arrived on the first connection.
    */
    method FollowTwice(first: seq<Turn>, firstLatest: bool, between: seq<Event>, second: seq<Turn>, secondLatest: bool)
      returns (ghost mid: View, ghost missed: seq<Event>)
      requires Valid() && lastId == None && Grows(log, first) && Ordered(After(log, first) + between)
      requires Grows(After(log, first) + between, second)
      modifies this
      ensures Valid() && mid == Connection(old(Seen()), asked, first, firstLatest)
      ensures Seen() == Connection(mid.(log := mid.log + between), asked, second, secondLatest)
      ensures mid.log == After(old(log), first) && log == After(mid.log + between, second)
      ensures mid.start == StartOf(old(log), asked, firstLatest) && mid.received <= received
      ensures missed == Fitting(Between(mid.log + between, mid.start, start))
      ensures lastId.Some? && mid.start <= start ==> Fitting(Between(log, mid.start, lastId.value)) == missed + received
      ensures forall e <- missed :: e !in received
      ensures mid.received != [] ==> start == mid.start && missed == []
      ensures mid.received == [] ==>
                && start == StartOf(mid.log + between, asked, secondLatest)
                && (missed == [] <==>
                    asked.Some? || !secondLatest || Fitting(Meanwhile(old(log), first, firstLatest, between)) == [])
    {
      Follow(first, firstLatest);
      mid := Seen();
      Append(between);
      ghost var log2 := log;
      OrderedBounds(log2);
      OrderedBounds(old(log));
      Follow(second, secondLatest);
      missed := Fitting(Between(log2, mid.start, start));
      BetweenTwoStarts(log2, second, mid.start, Seen());
      MissedIff(old(log), first, between, asked, firstLatest, secondLatest);
    }

    /** The stream's loop, from its cursor to its end. */
    method Loop(turns: seq<Turn>, from: int)
      requires Valid() && Grows(log, turns)
      requires InStep(from)
      modifies this`log, this`received, this`lastId
      ensures Valid() && old(received) <= received && log == After(old(log), turns)
      ensures old(lastId).Some? ==> lastId.Some?
      ensures Quiet(turns, |turns|) ==> InStep(CursorAfterTicks(log, from, |turns|))
      ensures var s := SessionAfter(Session(old(log), old(received), old(lastId), from, false), turns);
              log == s.log && received == s.received && lastId == s.lastId
    {
      var after, over := from, false;
      for i := 0 to |turns|
        invariant Valid() && old(received) <= received
        invariant log == After(old(log), turns[..i])
        invariant old(lastId).Some? ==> lastId.Some?
        invariant Session(log, received, lastId, after, over)
                  == SessionAfter(Session(old(log), old(received), old(lastId), from, false), turns[..i])
        invariant !over ==> InStep(after)
        invariant Quiet(turns, i) ==> !over && log == old(log) && after == CursorAfterTicks(log, from, i)
      {
        assert turns[..i + 1][..i] == turns[..i];
        assert Ordered(After(old(log), turns[..i + 1]));
        after, over := Turned(turns[i], after, over, from, i, Quiet(turns, i));
      }
      assert turns[..|turns|] == turns;
    }
  }

  /** The last id a page moves the cursor to. */
  function LastFitting(page: seq<Event>, after: int): int {
    if page == [] then after
    else if Fits(page[|page| - 1]) then page[|page| - 1].id
    else LastFitting(page[..|page| - 1], after)
  }

  lemma OneMoreOfThePage(page: seq<Event>, after: int, j: nat)
    requires j < |page|
    ensures Fitting(page[..j + 1]) == if Fits(page[j]) then Fitting(page[..j]) + [page[j]] else Fitting(page[..j])
    ensures LastFitting(page[..j + 1], after) == if Fits(page[j]) then page[j].id else LastFitting(page[..j], after)
  {
    assert page[..j + 1][..j] == page[..j];
  }

  function CursorAfter(log: seq<Event>, after: int): int {
    LastFitting(Page(log, after), after)
  }

  /* ---- whether the stream gets anywhere ---- */

  /** The stream stands still at `after`: a whole page that cannot be sent. */
  predicate Stuck(log: seq<Event>, after: int) {
    |Page(log, after)| == LIMIT && Fitting(Page(log, after)) == []
  }

  lemma {:induction false} AboveGrows(log: seq<Event>, more: seq<Event>, lo: int)
    ensures Above(log, lo) <= Above(log + more, lo)
  {
    if more == [] {
      assert log + more == log;
    } else {
      assert (log + more)[..|log + more| - 1] == log + more[..|more| - 1];
      AboveGrows(log, more[..|more| - 1], lo);
    }
  }

  lemma {:induction false} NoFittingNoMove(page: seq<Event>, after: int)
    requires Fitting(page) == []
    ensures LastFitting(page, after) == after
  {
    if page != [] {
      NoFittingNoMove(page[..|page| - 1], after);
    }
  }

  /** Once stuck, stuck for good: whatever is appended, no later tick moves the cursor or sends anything. */
  lemma StuckForGood(log: seq<Event>, more: seq<Event>, after: int)
    requires Stuck(log, after)
    ensures Stuck(log + more, after) && CursorAfter(log + more, after) == after
  {
    AboveGrows(log, more, after);
    assert Page(log + more, after) == Page(log, after);
    NoFittingNoMove(Page(log, after), after);
  }

  lemma {:induction false} LastFittingIs(page: seq<Event>, after: int) returns (j: nat)
    requires Fitting(page) != []
    ensures j < |page| && LastFitting(page, after) == page[j].id
  {
    j := |page| - 1;
    if !Fits(page[j]) {
      j := LastFittingIs(page[..j], after);
    }
  }

  /** Past its j-th event, what is left to send is the rest. */
  lemma {:induction false} AboveTheJth(log: seq<Event>, lo: int, j: nat)
    requires Ordered(log) && j < |Above(log, lo)|
    ensures Above(log, Above(log, lo)[j].id) == Above(log, lo)[j + 1..]
  {
    var front, last := log[..|log| - 1], log[|log| - 1];
    var above := Above(log, lo);
    if lo < last.id && j == |Above(front, lo)| {
      OrderedBounds(front);
      NothingAbove(front, last.id);
    } else {
      AboveTheJth(front, lo, j);
      AboveIsTheStretch(front, lo, j);
      if lo < last.id {
        assert above[j + 1..] == Above(front, lo)[j + 1..] + [last];
      } else {
        OrderedBounds(log);
      }
    }
  }

  lemma {:induction false} NothingAbove(log: seq<Event>, lo: int)
    requires forall e <- log :: e.id <= lo
    ensures Above(log, lo) == []
  {
    if log != [] {
      NothingAbove(log[..|log| - 1], lo);
    }
  }

  function CursorAfterTicks(log: seq<Event>, after: int, n: nat): int
    decreases n
  {
    if n == 0 then after else CursorAfterTicks(log, CursorAfter(log, after), n - 1)
  }

  lemma {:induction false} OneMoreTick(log: seq<Event>, after: int, n: nat)
    ensures CursorAfterTicks(log, after, n + 1) == CursorAfter(log, CursorAfterTicks(log, after, n))
    decreases n
  {
    if n > 0 {
      OneMoreTick(log, CursorAfter(log, after), n - 1);
    }
  }

  /** A tick has nothing left to send, is stuck, or brings the end nearer. */
  lemma TickProgresses(log: seq<Event>, after: int)
    requires Ordered(log)
    ensures var next := CursorAfter(log, after);
            CaughtUpOrStuck(log, after) || |Above(log, next)| < |Above(log, after)|
  {
    var page := Page(log, after);
    if Fitting(page) == [] {
    } else {
      var j := LastFittingIs(page, after);
      AboveTheJth(log, after, j);
    }
  }

  predicate CaughtUpOrStuck(log: seq<Event>, after: int) {
    Fitting(Above(log, after)) == [] || Stuck(log, after)
  }

  /** Enough ticks without a break end with everything sent that can be, or stuck before a page that cannot. */
  lemma {:induction false} TicksCatchUpOrStick(log: seq<Event>, after: int, n: nat)
    requires Ordered(log) && n >= |Above(log, after)|
    ensures CaughtUpOrStuck(log, CursorAfterTicks(log, after, n))
    decreases n
  {
    if n == 0 {
      assert Above(log, after) == [] && CursorAfterTicks(log, after, 0) == after;
    } else if CaughtUpOrStuck(log, after) {
      StandsStill(log, after, n);
    } else {
      TickProgresses(log, after);
      TicksCatchUpOrStick(log, CursorAfter(log, after), n - 1);
    }
  }

  lemma {:induction false} StandsStill(log: seq<Event>, after: int, n: nat)
    requires Fitting(Page(log, after)) == [] || Fitting(Above(log, after)) == []
    ensures CursorAfterTicks(log, after, n) == after
  {
    if n > 0 {
      var above := Above(log, after);
      var k := |Page(log, after)|;
      assert above == above[..k] + above[k..];
      FittingJoin(above[..k], above[k..]);
      assert above[..k] == Page(log, after);
      NoFittingNoMove(Page(log, after), after);
      StandsStill(log, after, n - 1);
    }
  }

  /* ---- a line that breaks before anything has arrived ---- */

  /**
    A client that asked for no place and lost its line before any event arrived starts afresh from the newest event:
    exactly the events appended in the meantime are lost to it.
  */
  lemma {:induction false} EarlyBreakLoses(log: seq<Event>, more: seq<Event>)
    requires Ordered(log + more)
    ensures Between(log + more, Latest(log), Latest(log + more)) == more
    ensures Above(log + more, Latest(log + more)) == []
  {
    SplitOrdered(log, more);
    OrderedBounds(log + more);
    NothingAbove(log + more, Latest(log + more));
    BetweenUpToTheEnd(log + more, Latest(log), Latest(log + more));
    AboveLatest(log, more);
  }

  lemma {:induction false} SplitOrdered(log: seq<Event>, more: seq<Event>)
    requires Ordered(log + more)
    ensures Ordered(log) && (more != [] ==> more[|more| - 1].id > Latest(log))
  {
    if more == [] {
      assert log + more == log;
    } else {
      assert (log + more)[..|log + more| - 1] == log + more[..|more| - 1];
      SplitOrdered(log, more[..|more| - 1]);
    }
  }

  lemma {:induction false} AboveLatest(log: seq<Event>, more: seq<Event>)
    requires Ordered(log + more)
    ensures Above(log + more, Latest(log)) == more
  {
    SplitOrdered(log, more);
    if more == [] {
      assert log + more == log;
      OrderedBounds(log);
      NothingAbove(log, Latest(log));
    } else {
      assert (log + more)[..|log + more| - 1] == log + more[..|more| - 1];
      AboveLatest(log, more[..|more| - 1]);
    }
  }

  function Appended(turns: seq<Turn>): seq<Event> {
    if turns == [] then [] else Appended(turns[..|turns| - 1]) + turns[|turns| - 1].more
  }

  lemma {:induction false} AfterAppends(log: seq<Event>, turns: seq<Turn>)
    ensures After(log, turns) == log + Appended(turns)
  {
    if turns != [] {
      AfterAppends(log, turns[..|turns| - 1]);
    }
  }

  /** What a client that starts anew has not been shown of: what was appended since it first asked for the newest event. */
  function Meanwhile(log: seq<Event>, first: seq<Turn>, firstLatest: bool, between: seq<Event>): seq<Event> {
    if firstLatest then Appended(first) + between else After(log, first) + between
  }

  function StartOf(log: seq<Event>, asked: Option<int>, latestWorks: bool): int {
    if asked.Some? then asked.value else if latestWorks then Latest(log) else 0
  }

  lemma {:induction false} NothingBackwards(log: seq<Event>, lo: int, hi: int)
    requires hi <= lo
    ensures Between(log, lo, hi) == []
  {
    if log != [] {
      NothingBackwards(log[..|log| - 1], lo, hi);
    }
  }

  lemma {:induction false} AllAboveNothing(log: seq<Event>)
    requires Ordered(log)
    ensures Above(log, 0) == log
  {
    if log != [] {
      OrderedBounds(log);
      AllAboveNothing(log[..|log| - 1]);
    }
  }

  /**
    Starting anew misses nothing exactly if the client asks for its place, or is not told the newest event the second
    time, or nothing that can be sent was appended meanwhile.
  */
  lemma MissedIff(
    log: seq<Event>, first: seq<Turn>, between: seq<Event>, asked: Option<int>, firstLatest: bool, secondLatest: bool)
    requires Ordered(log) && Ordered(After(log, first) + between)
    ensures var log2 := After(log, first) + between;
            Fitting(Between(log2, StartOf(log, asked, firstLatest), StartOf(log2, asked, secondLatest))) == [] <==>
            asked.Some? || !secondLatest || Fitting(Meanwhile(log, first, firstLatest, between)) == []
  {
    var log2 := After(log, first) + between;
    OrderedBounds(log);
    if asked.Some? || !secondLatest {
      NothingBackwards(log2, StartOf(log, asked, firstLatest), StartOf(log2, asked, secondLatest));
    } else if firstLatest {
      AfterAppends(log, first);
      assert log2 == log + (Appended(first) + between);
      EarlyBreakLoses(log, Appended(first) + between);
    } else {
      BetweenUpToTheEnd(log2, 0, Latest(log2));
      AllAboveNothing(log2);
    }
  }

  lemma {:induction false} BetweenBounds(log: seq<Event>, lo: int, hi: int)
    ensures forall e <- Fitting(Between(log, lo, hi)) :: lo < e.id <= hi
  {
    if log != [] {
      BetweenBounds(log[..|log| - 1], lo, hi);
      var front, last := Between(log[..|log| - 1], lo, hi), log[|log| - 1];
      if lo < last.id <= hi {
        assert (front + [last])[..|front|] == front;
      }
    }
  }

  lemma MissedIsNotReceived(log2: seq<Event>, log: seq<Event>, start1: int, start: int, id: int)
    ensures forall e <- Fitting(Between(log2, start1, start)) :: e !in Fitting(Between(log, start, id))
  {
    BetweenBounds(log2, start1, start);
    BetweenBounds(log, start, id);
  }

  lemma MissedAndReceived(log2: seq<Event>, more: seq<Event>, start1: int, start: int, id: int)
    requires Ordered(log2 + more) && start1 <= start <= id && start <= Latest(log2)
    ensures Fitting(Between(log2 + more, start1, id))
            == Fitting(Between(log2, start1, start)) + Fitting(Between(log2 + more, start, id))
  {
    StretchesJoin(log2 + more, start1, start, id);
    OldStretchesStay(log2, more, start1, start);
    FittingJoin(Between(log2 + more, start1, start), Between(log2 + more, start, id));
  }

  /** What lies between two starts has not been received since the second, and makes it whole. */
  lemma BetweenTwoStarts(log2: seq<Event>, second: seq<Turn>, start1: int, v: View)
    requires Ordered(log2) && v.log == After(log2, second) && Ordered(v.log)
    requires if v.lastId == None then v.received == []
             else v.start <= v.lastId.value && v.received == Fitting(Between(v.log, v.start, v.lastId.value))
    requires start1 < v.start ==> v.start <= Latest(log2)
    ensures var missed := Fitting(Between(log2, start1, v.start));
            && (start1 == v.start ==> missed == []) && (forall e <- missed :: e !in v.received)
            && (v.lastId.Some? && start1 <= v.start ==> Fitting(Between(v.log, start1, v.lastId.value)) == missed + v.received)
  {
    EmptyStretch(log2, start1);
    MissedIsNotReceived(log2, v.log, start1, v.start, if v.lastId == None then v.start else v.lastId.value);
    if v.lastId.Some? && start1 < v.start {
      AfterAppends(log2, second);
      MissedAndReceived(log2, Appended(second), start1, v.start, v.lastId.value);
    }
  }

  /**
    A client of an empty log that asks for no place: its first connection ends before anything has happened, `e` is
    appended, and it connects again.  Whatever that second connection brings, it never has `e`.
  */
  method OneEventIsLost(c: Client, e: Event, second: seq<Turn>) returns (ghost mid: View, ghost missed: seq<Event>)
    requires c.Valid() && c.log == [] && c.lastId == None && c.asked == None
    requires e.id > 0 && Fits(e) && Grows([e], second)
    modifies c
    ensures mid == Connection(old(c.Seen()), None, [], true) == View([], [], None, 0)
    ensures c.Seen() == Connection(mid.(log := [e]), None, second, true)
    ensures missed == Fitting(Between([e], mid.start, c.start)) == [e] && e !in c.received
  {
    assert Ordered([e]) by {
      assert [e][..0] == [];
    }
    assert After([], []) + [e] == [e];
    mid, missed := c.FollowTwice([], true, [e], second, true);
    JustThat(e);
  }

  lemma JustThat(e: Event)
    requires e.id > 0 && Fits(e)
    ensures Fitting(Between([e], 0, e.id)) == [e]
  {
    assert [e][..0] == [];
    assert Between([], 0, e.id) == [] && Fitting([]) == [];
  }

  /* ---- a page that cannot be sent ---- */

  /** `n` events of one year. */
  function OfYear(year: int, n: nat): seq<Event> {
    if n == 0 then [] else OfYear(year, n - 1) + [Event(n, year, "")]
  }

  lemma {:induction false} OfYearIs(year: int, n: nat)
    ensures |OfYear(year, n)| == n && Ordered(OfYear(year, n)) && Latest(OfYear(year, n)) == n
  {
    if n > 0 {
      OfYearIs(year, n - 1);
      assert OfYear(year, n)[..n - 1] == OfYear(year, n - 1);
    }
  }

  lemma FittingPush(es: seq<Event>, e: Event)
    ensures Fitting(es + [e]) == if 0 <= e.year <= 9999 then Fitting(es) + [e] else Fitting(es)
  {
    assert (es + [e])[..|es|] == es;
  }

  lemma {:induction false} OfYearFits(year: int, n: nat)
    ensures Fitting(OfYear(year, n)) == if 0 <= year <= 9999 then OfYear(year, n) else []
  {
    if n > 0 {
      OfYearFits(year, n - 1);
      FittingPush(OfYear(year, n - 1), Event(n, year, ""));
    }
  }

  /** Events of one year are a log the stream cannot get past exactly if there are a hundred at least and the year lies outside 0 to 9999. */
  lemma APageMayStick(year: int, n: nat)
    ensures Ordered(OfYear(year, n)) && (Stuck(OfYear(year, n), 0) <==> n >= 100 && (year < 0 || year > 9999))
  {
    OfYearIs(year, n);
    OfYearFits(year, n);
    AllAboveNothing(OfYear(year, n));
    if n > 100 {
      OfYearBegins(year, 100, n);
      OfYearFits(year, 100);
      OfYearIs(year, 100);
      assert OfYear(year, n)[..100] == OfYear(year, 100);
    }
  }

  lemma {:induction false} OfYearBegins(year: int, k: nat, n: nat)
    requires k <= n
    ensures OfYear(year, k) <= OfYear(year, n)
  {
    if k < n {
      OfYearBegins(year, k, n - 1);
    }
  }
}
