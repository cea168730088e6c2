/** The work loop, its slots and its goroutines, interleaved (pass, main and the claim in cmd/dispatcher/main.go). */
module Dispatch {
  import opened Text
  import opened JobRun

  // Where a goroutine stands: inside runClaimed, past it with its slot given back, or past wg.Done too.
  datatype Phase = Inside | SlotReturned | Gone

  datatype Worker = Worker(job: Job, world: World, pc: Pc, log: seq<Effect>, phase: Phase)

  // Where the main goroutine stands: waiting for a tick, in pass between slots, in pass with a slot and a
  // claim in the air, waiting for the workers, or returned.
  datatype Loop = Waiting | Passing | Claiming | Draining | Exited

  datatype State = State(
    capacity: nat,        // -max-concurrent, at least 1
    once: bool,           // -once: a single pass, and no waiting
    tokens: nat,          // tokens in the slots channel
    inFlight: nat,        // the wait group's counter
    loop: Loop,
    stopped: bool,        // the context was cancelled
    workers: seq<Worker>, // every goroutine ever launched
    queued: set<Job>,     // rows a claim may still take
    lost: set<Job>)       // rows claimed by a call whose answer never came

  predicate Initial(s: State) {
    && s.capacity >= 1 && s.tokens == 0 && s.inFlight == 0 && s.loop == Passing && !s.stopped
    && s.workers == [] && s.lost == {} && OneRowEach(s.queued)
  }

  /** No two rows have one id. */
  predicate OneRowEach(jobs: set<Job>) {
    forall j, k :: j in jobs && k in jobs && j.id == k.id ==> j == k
  }

  predicate Holds(jobs: set<Job>, id: nat) {
    exists j <- jobs :: j.id == id
  }

  datatype Action =
    | Tick                           // the ticker fires and pass starts
    | Fill                           // pass puts a token into the channel
    | Full                           // pass finds no slot free and returns
    | Claimed(job: Job, world: World) // the claim answers with a job, and its goroutine is launched
    | NothingToClaim                 // the claim answers that there is nothing
    | ClaimFailed                    // the claim fails, and has taken nothing
    | ClaimLost(job: Job)            // the claim takes a row, and its answer is lost
    | Advanced(i: nat)               // a worker takes its next step inside runClaimed
    | ReturnSlot(i: nat)             // a worker's first deferred call
    | Leave(i: nat)                  // a worker's second deferred call
    | Cancel                         // SIGTERM
    | StartDraining                  // the main loop sees the cancelled context
    | Exit                           // main returns
    | Enqueued(job: Job)             // a new row appears, under a new id

  /** Some row, queued or taken, has this id. */
  predicate Known(s: State, id: nat) {
    Holds(s.queued, id) || Holds(s.lost, id) || exists w <- s.workers :: w.job.id == id
  }

  predicate Enabled(s: State, a: Action) {
    match a
    case Tick => s.loop == Waiting
    case Fill => s.loop == Passing && s.tokens < s.capacity
    case Full => s.loop == Passing && s.tokens >= s.capacity
    case Claimed(j, _) => s.loop == Claiming && j in s.queued
    case NothingToClaim => s.loop == Claiming && s.tokens > 0
    case ClaimFailed => s.loop == Claiming && s.tokens > 0
    case ClaimLost(j) => s.loop == Claiming && j in s.queued && s.tokens > 0
    case Advanced(i) => i < |s.workers| && s.workers[i].phase == Inside && s.workers[i].pc != Returned
    case ReturnSlot(i) => i < |s.workers| && s.workers[i].phase == Inside && s.workers[i].pc == Returned && s.tokens > 0
    case Leave(i) => i < |s.workers| && s.workers[i].phase == SlotReturned && s.inFlight > 0
    case Cancel => true
    case StartDraining => s.loop == Waiting && s.stopped && !s.once
    case Exit => if s.once then s.loop == Waiting else s.loop == Draining && s.inFlight == 0
    case Enqueued(j) => !Known(s, j.id)
  }

  function StepWorker(w: Worker, stopped: bool): Worker
    requires w.pc != Returned
  {
    var (pc, es) := Advance(w.job, w.world, stopped, w.pc);
    w.(pc := pc, log := w.log + es)
  }

  function Apply(s: State, a: Action): State
    requires Enabled(s, a)
  {
    match a
    case Tick => s.(loop := Passing)
    case Fill => s.(tokens := s.tokens + 1, loop := Claiming)
    case Full => s.(loop := Waiting)
    case Claimed(j, w) =>
      s.(queued := s.queued - {j}, inFlight := s.inFlight + 1, loop := Passing,
         workers := s.workers + [Worker(j, w, Validating, [], Inside)])
    case NothingToClaim => s.(tokens := s.tokens - 1, loop := Waiting)
    case ClaimFailed => s.(tokens := s.tokens - 1, loop := Waiting)
    case ClaimLost(j) => s.(tokens := s.tokens - 1, loop := Waiting, queued := s.queued - {j}, lost := s.lost + {j})
    case Advanced(i) => s.(workers := s.workers[i := StepWorker(s.workers[i], s.stopped)])
    case ReturnSlot(i) => s.(workers := s.workers[i := s.workers[i].(phase := SlotReturned)], tokens := s.tokens - 1)
    case Leave(i) => s.(workers := s.workers[i := s.workers[i].(phase := Gone)], inFlight := s.inFlight - 1)
    case Cancel => s.(stopped := true)
    case StartDraining => s.(loop := Draining)
    case Exit => s.(loop := Exited)
    case Enqueued(j) => s.(queued := s.queued + {j})
  }

  predicate ByAWorker(a: Action) {
    a.Advanced? || a.ReturnSlot? || a.Leave?
  }

  /* ---- counting ---- */

  function Holding(ws: seq<Worker>): nat {
    if ws == [] then 0 else Holding(ws[..|ws| - 1]) + if ws[|ws| - 1].phase == Inside then 1 else 0
  }

  function Present(ws: seq<Worker>): nat {
    if ws == [] then 0 else Present(ws[..|ws| - 1]) + if ws[|ws| - 1].phase != Gone then 1 else 0
  }

  lemma {:induction false} CountsAfterUpdate(ws: seq<Worker>, i: nat, w: Worker)
    requires i < |ws|
    ensures Holding(ws[i := w]) == Holding(ws) - (if ws[i].phase == Inside then 1 else 0) + (if w.phase == Inside then 1 else 0)
    ensures Present(ws[i := w]) == Present(ws) - (if ws[i].phase != Gone then 1 else 0) + (if w.phase != Gone then 1 else 0)
  {
    var n := |ws| - 1;
    if i < n {
      CountsAfterUpdate(ws[..n], i, w);
      assert ws[i := w][..n] == ws[..n][i := w];
    } else {
      assert ws[i := w][..n] == ws[..n];
    }
  }

  lemma CountsAfterLaunch(ws: seq<Worker>, w: Worker)
    ensures Holding(ws + [w]) == Holding(ws) + if w.phase == Inside then 1 else 0
    ensures Present(ws + [w]) == Present(ws) + if w.phase != Gone then 1 else 0
  {
    assert (ws + [w])[..|ws|] == ws;
  }

  lemma {:induction false} ZeroPresentMeansAllGone(ws: seq<Worker>, i: nat)
    requires Present(ws) == 0 && i < |ws|
    ensures ws[i].phase == Gone
  {
    if i < |ws| - 1 {
      ZeroPresentMeansAllGone(ws[..|ws| - 1], i);
    }
  }

  lemma {:induction false} OneInsideHolds(ws: seq<Worker>, i: nat)
    requires i < |ws|
    ensures ws[i].phase == Inside ==> Holding(ws) > 0
    ensures ws[i].phase != Gone ==> Present(ws) > 0
  {
    if i < |ws| - 1 {
      OneInsideHolds(ws[..|ws| - 1], i);
    }
  }

  /* ---- the invariant ---- */

  /** Slots taken are workers inside runClaimed, and the one pass holds while its claim is out. */
  predicate SlotsAccounted(s: State) {
    && s.tokens == Holding(s.workers) + (if s.loop == Claiming then 1 else 0)
    && s.tokens <= s.capacity
    && s.inFlight == Present(s.workers)
  }

  predicate WorkerOk(w: Worker) {
    Tallies(w.pc, w.log) && (w.phase != Inside ==> w.pc == Returned)
  }

  /** No row is in two places: two workers, a worker and the queue, a worker or the queue and a lost claim. */
  ghost predicate JobsApart(s: State) {
    && WorkersApart(s.workers)
    && (forall i :: 0 <= i < |s.workers| ==> !Holds(s.queued, s.workers[i].job.id) && !Holds(s.lost, s.workers[i].job.id))
    && OneRowEach(s.queued) && forall j <- s.queued :: !Holds(s.lost, j.id)
  }

  ghost predicate WorkersApart(ws: seq<Worker>) {
    forall i, j :: 0 <= i < j < |ws| ==> ws[i].job.id != ws[j].job.id
  }

  ghost predicate Invariant(s: State) {
    && SlotsAccounted(s) && JobsApart(s)
    && (forall i :: 0 <= i < |s.workers| ==> WorkerOk(s.workers[i]))
    && (s.loop == Exited && !s.once ==> s.inFlight == 0)
  }

  lemma SlotsStayAccounted(s: State, a: Action)
    requires SlotsAccounted(s) && Enabled(s, a)
    ensures SlotsAccounted(Apply(s, a))
  {
    if ByAWorker(a) {
      SlotsFollowTheWorkers(s, a);
    } else if a.Claimed? {
      CountsAfterLaunch(s.workers, Worker(a.job, a.world, Validating, [], Inside));
    }
  }

  lemma SlotsFollowTheWorkers(s: State, a: Action)
    requires SlotsAccounted(s) && Enabled(s, a) && ByAWorker(a)
    ensures SlotsAccounted(Apply(s, a))
  {
    match a
    case Advanced(i) => CountsAfterUpdate(s.workers, i, StepWorker(s.workers[i], s.stopped));
    case ReturnSlot(i) => CountsAfterUpdate(s.workers, i, s.workers[i].(phase := SlotReturned));
    case Leave(i) => CountsAfterUpdate(s.workers, i, s.workers[i].(phase := Gone));
  }

  lemma JobsStayApart(s: State, a: Action)
    requires JobsApart(s) && Enabled(s, a)
    ensures JobsApart(Apply(s, a))
  {
    match a
    case Enqueued(j) => EnqueuedApart(s, j);
    case Claimed(j, w) => ClaimedApart(s, j, w);
    case ClaimLost(j) => LostApart(s, j);
    case _ =>
      SameRows(s, a);
      StillApart(s, Apply(s, a));
  }

  /** The same rows in the same places. */
  ghost predicate SamePlaces(s: State, t: State) {
    && t.queued == s.queued && t.lost == s.lost && |t.workers| == |s.workers|
    && forall i :: 0 <= i < |s.workers| ==> t.workers[i].job == s.workers[i].job
  }

  lemma SameRows(s: State, a: Action)
    requires Enabled(s, a) && !a.Enqueued? && !a.Claimed? && !a.ClaimLost?
    ensures SamePlaces(s, Apply(s, a))
  {
  }

  lemma StillApart(s: State, t: State)
    requires JobsApart(s) && SamePlaces(s, t)
    ensures JobsApart(t)
  {
    forall i, j | 0 <= i < j < |t.workers|
      ensures t.workers[i].job.id != t.workers[j].job.id
    {
      assert s.workers[i].job.id != s.workers[j].job.id;
    }
  }

  lemma EnqueuedApart(s: State, j: Job)
    requires JobsApart(s) && Enabled(s, Enqueued(j))
    ensures JobsApart(Apply(s, Enqueued(j)))
  {
    forall i | 0 <= i < |s.workers|
      ensures s.workers[i].job.id != j.id
    {
      assert s.workers[i] in s.workers;
    }
  }

  lemma ClaimedApart(s: State, j: Job, w: World)
    requires JobsApart(s) && Enabled(s, Claimed(j, w))
    ensures JobsApart(Apply(s, Claimed(j, w)))
  {
    assert Holds(s.queued, j.id);
    var t := Apply(s, Claimed(j, w));
    forall i | 0 <= i < |t.workers|
      ensures !Holds(t.queued, t.workers[i].job.id) && !Holds(t.lost, t.workers[i].job.id)
    {
      if i < |s.workers| {
        assert t.workers[i] == s.workers[i];
      }
    }
  }

  lemma LostApart(s: State, j: Job)
    requires JobsApart(s) && Enabled(s, ClaimLost(j))
    ensures JobsApart(Apply(s, ClaimLost(j)))
  {
    assert Holds(s.queued, j.id);
  }

  lemma WorkersStayOk(s: State, a: Action, i: nat)
    requires Enabled(s, a) && i < |Apply(s, a).workers|
    requires forall k :: 0 <= k < |s.workers| ==> WorkerOk(s.workers[k])
    ensures WorkerOk(Apply(s, a).workers[i])
  {
    if i < |s.workers| {
      var w := s.workers[i];
      assert WorkerOk(w);
      if a == Advanced(i) {
        StepKeepsTally(w.job, w.world, s.stopped, w.pc, w.log);
      }
    }
  }

  lemma InvariantHolds(s: State, a: Action)
    requires Invariant(s) && Enabled(s, a)
    ensures Invariant(Apply(s, a))
  {
    SlotsStayAccounted(s, a);
    JobsStayApart(s, a);
    forall i | 0 <= i < |Apply(s, a).workers|
      ensures WorkerOk(Apply(s, a).workers[i])
    {
      WorkersStayOk(s, a, i);
    }
    if Apply(s, a).loop == Exited && s.loop == Exited && !s.once {
      StaysOut(s, a);
    }
  }

  /** Once main has returned after waiting, nothing is in flight again. */
  lemma StaysOut(s: State, a: Action)
    requires SlotsAccounted(s) && Enabled(s, a) && s.loop == Exited && s.inFlight == 0
    ensures Apply(s, a).inFlight == 0
  {
  }

  /* ---- all runs of the dispatcher ---- */

  /** A behaviour: states, and the actions between them. */
  ghost predicate Behaviour(ss: seq<State>, as_: seq<Action>) {
    && |ss| == |as_| + 1 && Initial(ss[0])
    && forall i :: 0 <= i < |as_| ==> Moves(ss, as_, i)
  }

  ghost predicate Moves(ss: seq<State>, as_: seq<Action>, i: nat)
    requires i < |as_| && |ss| == |as_| + 1
  {
    Enabled(ss[i], as_[i]) && ss[i + 1] == Apply(ss[i], as_[i])
  }

  lemma {:induction false} InvariantAlways(ss: seq<State>, as_: seq<Action>, n: nat)
    requires Behaviour(ss, as_) && n < |ss|
    ensures Invariant(ss[n]) && ss[n].capacity == ss[0].capacity && ss[n].once == ss[0].once
  {
    if n > 0 {
      InvariantAlways(ss, as_, n - 1);
      assert Moves(ss, as_, n - 1);
      InvariantHolds(ss[n - 1], as_[n - 1]);
      FlagsStay(ss[n - 1], as_[n - 1]);
    } else {
      assert ss[0].workers == [];
    }
  }

  lemma FlagsStay(s: State, a: Action)
    requires Enabled(s, a)
    ensures Apply(s, a).capacity == s.capacity && Apply(s, a).once == s.once
  {
  }

  /** At no time do more than -max-concurrent jobs run, nor is one job run by two workers. */
  lemma NeverTooManyNorTwice(ss: seq<State>, as_: seq<Action>, n: nat)
    requires Behaviour(ss, as_) && n < |ss|
    ensures Holding(ss[n].workers) <= ss[0].capacity
    ensures ss[n].tokens == Holding(ss[n].workers) + if ss[n].loop == Claiming then 1 else 0
    ensures forall i, j :: 0 <= i < j < |ss[n].workers| ==> ss[n].workers[i].job.id != ss[n].workers[j].job.id
  {
    InvariantAlways(ss, as_, n);
  }

  /** No slot leaks: with no worker inside and no claim out, every slot is free. */
  lemma NoSlotLeaks(ss: seq<State>, as_: seq<Action>, n: nat)
    requires Behaviour(ss, as_) && n < |ss| && ss[n].loop != Claiming
    requires forall i :: 0 <= i < |ss[n].workers| ==> ss[n].workers[i].phase != Inside
    ensures ss[n].tokens == 0
  {
    InvariantAlways(ss, as_, n);
    NoneInside(ss[n].workers);
  }

  lemma {:induction false} NoneInside(ws: seq<Worker>)
    requires forall i :: 0 <= i < |ws| ==> ws[i].phase != Inside
    ensures Holding(ws) == 0
  {
    if ws != [] {
      NoneInside(ws[..|ws| - 1]);
    }
  }

  /** Every worker that is past runClaimed has made exactly one report, after at most two runs and two checks. */
  lemma EveryWorkerReportsOnce(ss: seq<State>, as_: seq<Action>, n: nat, i: nat)
    requires Behaviour(ss, as_) && n < |ss| && i < |ss[n].workers|
    ensures var w := ss[n].workers[i];
            && Reports(w.log) == (if w.pc == Returned then 1 else 0)
            && (w.phase != Inside ==> w.pc == Returned)
            && Agents(w.log) <= 2 && Checks(w.log) <= 2
  {
    InvariantAlways(ss, as_, n);
    assert WorkerOk(ss[n].workers[i]);
  }

  /** When the daemon has exited, stopped or not, no launched job is without its one report. */
  lemma ExitLeavesNothingUnreported(ss: seq<State>, as_: seq<Action>, n: nat, i: nat)
    requires Behaviour(ss, as_) && n < |ss| && !ss[0].once && ss[n].loop == Exited && i < |ss[n].workers|
    ensures ss[n].workers[i].phase == Gone && Reports(ss[n].workers[i].log) == 1
  {
    InvariantAlways(ss, as_, n);
    ZeroPresentMeansAllGone(ss[n].workers, i);
    assert WorkerOk(ss[n].workers[i]);
  }

  /* ---- what a worker's log is ---- */

  /** The worker has done all of its job but what is left of it, as one would who was, or was not, told to stop. */
  predicate OnItsWay(w: Worker, stopped: bool) {
    w.log + Rest(w.job, w.world, stopped, w.pc) == Rest(w.job, w.world, stopped, Validating)
  }

  /** Whether main has been told to stop enters only into the step before the report. */
  predicate FollowsItsJob(w: Worker) {
    if w.pc.Reporting? || w.pc.Returned? then OnItsWay(w, true) || OnItsWay(w, false)
    else OnItsWay(w, true) && OnItsWay(w, false)
  }

  lemma StoppingShowsLast(j: Job, w: World, pc: Pc)
    requires pc != Returned && !pc.Landing?
    ensures Advance(j, w, true, pc) == Advance(j, w, false, pc)
  {
  }

  lemma StepOnItsWay(w: Worker, stopped: bool, as_: bool)
    requires w.pc != Returned && OnItsWay(w, as_)
    requires Advance(w.job, w.world, stopped, w.pc) == Advance(w.job, w.world, as_, w.pc)
    ensures OnItsWay(StepWorker(w, stopped), as_)
  {
    StepThenRest(w.job, w.world, as_, w.pc, w.log);
  }

  lemma StepFollows(w: Worker, stopped: bool)
    requires w.pc != Returned && FollowsItsJob(w)
    ensures FollowsItsJob(StepWorker(w, stopped))
  {
    if w.pc.Landing? {
      StepOnItsWay(w, stopped, stopped);
    } else {
      StoppingShowsLast(w.job, w.world, w.pc);
      if OnItsWay(w, true) {
        StepOnItsWay(w, stopped, true);
      }
      if OnItsWay(w, false) {
        StepOnItsWay(w, stopped, false);
      }
      NextPc(w.job, w.world, stopped, w.pc);
    }
  }

  lemma NextPc(j: Job, w: World, stopped: bool, pc: Pc)
    requires pc != Returned
    ensures pc.Reporting? ==> Advance(j, w, stopped, pc).0.Returned?
  {
  }

  ghost predicate AllFollow(ws: seq<Worker>) {
    forall i :: 0 <= i < |ws| ==> FollowsItsJob(ws[i])
  }

  lemma ActionKeepsFollowing(s: State, a: Action)
    requires Enabled(s, a) && AllFollow(s.workers)
    ensures AllFollow(Apply(s, a).workers)
  {
    match a
    case Advanced(k) => StepFollows(s.workers[k], s.stopped);
    case Claimed(j, w) => JustLaunched(j, w);
    case ReturnSlot(k) => assert FollowsItsJob(s.workers[k]);
    case Leave(k) => assert FollowsItsJob(s.workers[k]);
    case _ =>
  }

  lemma JustLaunched(j: Job, w: World)
    ensures FollowsItsJob(Worker(j, w, Validating, [], Inside))
  {
    assert [] + Rest(j, w, true, Validating) == Rest(j, w, true, Validating);
    assert [] + Rest(j, w, false, Validating) == Rest(j, w, false, Validating);
  }

  lemma MoveKeepsFollowing(ss: seq<State>, as_: seq<Action>, n: nat)
    requires Behaviour(ss, as_) && 0 < n < |ss| && AllFollow(ss[n - 1].workers)
    ensures AllFollow(ss[n].workers)
  {
    assert Moves(ss, as_, n - 1);
    ActionKeepsFollowing(ss[n - 1], as_[n - 1]);
  }

  lemma NobodyFollows(s: State)
    requires Initial(s)
    ensures AllFollow(s.workers)
  {
  }

  ghost predicate AllFollowAt(ss: seq<State>, n: nat)
    requires n < |ss|
  {
    AllFollow(ss[n].workers)
  }

  lemma StateFollows(ss: seq<State>, as_: seq<Action>, n: nat)
    requires Behaviour(ss, as_) && n < |ss| && (n > 0 ==> AllFollowAt(ss, n - 1))
    ensures AllFollowAt(ss, n)
  {
    if n > 0 {
      MoveKeepsFollowing(ss, as_, n);
    } else {
      NobodyFollows(ss[0]);
    }
  }

  lemma {:induction false} EveryWorkerFollowsItsJob(ss: seq<State>, as_: seq<Action>, n: nat)
    requires Behaviour(ss, as_) && n < |ss|
    ensures AllFollowAt(ss, n)
  {
    if n > 0 {
      EveryWorkerFollowsItsJob(ss, as_, n - 1);
    }
    StateFollows(ss, as_, n);
  }

  /** However workers are interleaved, one that is through has done exactly what its job does by itself. */
  lemma EveryWorkerRunsItsJob(ss: seq<State>, as_: seq<Action>, n: nat, i: nat)
    requires Behaviour(ss, as_) && n < |ss| && i < |ss[n].workers| && ss[n].workers[i].pc == Returned
    ensures var w := ss[n].workers[i];
            w.log == Rest(w.job, w.world, true, Validating) || w.log == Rest(w.job, w.world, false, Validating)
  {
    EveryWorkerFollowsItsJob(ss, as_, n);
    assert AllFollow(ss[n].workers);
    var w := ss[n].workers[i];
    assert FollowsItsJob(w);
    assert w.log + [] == w.log;
  }

  /** The pass ends here: no slot is free, or there was nothing to be had. */
  predicate EndsThePass(a: Action) {
    a in {Full, NothingToClaim, ClaimFailed} || a.ClaimLost?
  }

  /** A single pass returns only once it has filled every slot or come away from a claim with nothing. */
  lemma {:induction false} OnceFinishesItsPass(ss: seq<State>, as_: seq<Action>, n: nat)
    requires Behaviour(ss, as_) && n < |ss| && ss[0].once
    ensures ss[n].loop in {Waiting, Exited} ==> exists i :: 0 <= i < n && EndsThePass(as_[i])
  {
    if n > 0 {
      OnceFinishesItsPass(ss, as_, n - 1);
      InvariantAlways(ss, as_, n - 1);
      OneMoveOfOnce(ss, as_, n - 1);
    }
  }

  lemma OneMoveOfOnce(ss: seq<State>, as_: seq<Action>, i: nat)
    requires Behaviour(ss, as_) && i < |as_| && ss[i].once
    ensures ss[i + 1].loop in {Waiting, Exited} ==> EndsThePass(as_[i]) || ss[i].loop in {Waiting, Exited}
  {
    assert Moves(ss, as_, i);
  }

  lemma StaysKnown(s: State, a: Action, id: nat)
    requires Enabled(s, a) && Known(s, id)
    ensures Known(Apply(s, a), id)
  {
    var t := Apply(s, a);
    if w :| w in s.workers && w.job.id == id {
      var i :| 0 <= i < |s.workers| && s.workers[i] == w;
      assert t.workers[i].job.id == id && t.workers[i] in t.workers;
    } else if Holds(s.lost, id) {
      var j :| j in s.lost && j.id == id;
      assert j in t.lost;
    } else {
      var j :| j in s.queued && j.id == id;
      TakenOrQueued(s, a, j);
    }
  }

  lemma TakenOrQueued(s: State, a: Action, j: Job)
    requires Enabled(s, a) && j in s.queued
    ensures Known(Apply(s, a), j.id)
  {
    var t := Apply(s, a);
    if j in t.queued {
      assert Holds(t.queued, j.id);
    } else if a.Claimed? {
      assert t.workers[|s.workers|] in t.workers && t.workers[|s.workers|].job == j;
    } else {
      assert j in t.lost;
    }
  }

  /** No row vanishes: whatever was queued, taken or lost once still is one of these. */
  lemma {:induction false} RowsAreConserved(ss: seq<State>, as_: seq<Action>, m: nat, n: nat, id: nat)
    requires Behaviour(ss, as_) && m <= n < |ss| && Known(ss[m], id)
    ensures Known(ss[n], id)
    decreases n
  {
    if m < n {
      RowsAreConserved(ss, as_, m, n - 1, id);
      assert Moves(ss, as_, n - 1);
      StaysKnown(ss[n - 1], as_[n - 1], id);
    }
  }

  /** A daemon that waits for its workers, or has returned, has been told to stop; a single pass never waits. */
  lemma {:induction false} DrainsOnlyWhenStopped(ss: seq<State>, as_: seq<Action>, n: nat)
    requires Behaviour(ss, as_) && n < |ss|
    ensures !ss[0].once && ss[n].loop in {Draining, Exited} ==> Cancel in as_[..n]
    ensures ss[0].once ==> ss[n].loop != Draining
    ensures ss[n].stopped <==> Cancel in as_[..n]
  {
    if n > 0 {
      DrainsOnlyWhenStopped(ss, as_, n - 1);
      InvariantAlways(ss, as_, n - 1);
      assert Moves(ss, as_, n - 1);
      assert as_[..n] == as_[..n - 1] + [as_[n - 1]];
    }
  }

  /* ---- -once does not wait ---- */

  /** A single pass may return with a job claimed and never reported: -once skips the wait that the daemon makes. */
  lemma OnceMayLeaveAJobUnreported(j: Job, w: World) returns (ss: seq<State>, as_: seq<Action>)
    ensures Behaviour(ss, as_) && ss[0].once
    ensures var end := ss[|ss| - 1];
            end.loop == Exited && |end.workers| == 1 && end.workers[0].job == j && Reports(end.workers[0].log) == 0
  {
    var s0 := State(1, true, 0, 0, Passing, false, [], {j}, {});
    as_ := [Fill, Claimed(j, w), Full, Exit];
    var s1 := Apply(s0, Fill);
    var s2 := Apply(s1, Claimed(j, w));
    var s3 := Apply(s2, Full);
    ss := [s0, s1, s2, s3, Apply(s3, Exit)];
    assert Moves(ss, as_, 0) && Moves(ss, as_, 1) && Moves(ss, as_, 2) && Moves(ss, as_, 3);
  }

  /* ---- the wait at the end is bounded ---- */

  function WorkLeft(w: Worker): nat {
    match w.phase
    case Inside => StepsLeft(w.pc) + 2
    case SlotReturned => 1
    case Gone => 0
  }

  function AllWorkLeft(ws: seq<Worker>): nat {
    if ws == [] then 0 else AllWorkLeft(ws[..|ws| - 1]) + WorkLeft(ws[|ws| - 1])
  }

  lemma {:induction false} WorkAfterUpdate(ws: seq<Worker>, i: nat, w: Worker)
    requires i < |ws|
    ensures AllWorkLeft(ws[i := w]) + WorkLeft(ws[i]) == AllWorkLeft(ws) + WorkLeft(w)
  {
    var n := |ws| - 1;
    if i < n {
      WorkAfterUpdate(ws[..n], i, w);
      assert ws[i := w][..n] == ws[..n][i := w];
    } else {
      assert ws[i := w][..n] == ws[..n];
    }
  }

  /** While main drains, no work is added, and every step of a worker leaves less of it. */
  lemma DrainingOnlyShrinks(s: State, a: Action)
    requires s.loop == Draining && Enabled(s, a)
    ensures var t := Apply(s, a);
            && t.loop in {Draining, Exited} && |t.workers| == |s.workers|
            && if ByAWorker(a) then AllWorkLeft(t.workers) < AllWorkLeft(s.workers) else t.workers == s.workers
  {
    match a
    case Advanced(i) =>
      var w := s.workers[i];
      EveryStepIsProgress(w.job, w.world, s.stopped, w.pc);
      WorkAfterUpdate(s.workers, i, StepWorker(w, s.stopped));
    case ReturnSlot(i) => WorkAfterUpdate(s.workers, i, s.workers[i].(phase := SlotReturned));
    case Leave(i) => WorkAfterUpdate(s.workers, i, s.workers[i].(phase := Gone));
    case _ =>
  }

  /** And some step can always be taken: either main returns, or a worker goes on. */
  lemma DrainingNeverSticks(s: State) returns (a: Action)
    requires Invariant(s) && s.loop == Draining && !s.once
    ensures Enabled(s, a) && (ByAWorker(a) || a == Exit)
    ensures a == Exit <==> s.inFlight == 0
  {
    if s.inFlight == 0 {
      return Exit;
    }
    var i := SomePresent(s.workers);
    OneInsideHolds(s.workers, i);
    assert WorkerOk(s.workers[i]);
    a := if s.workers[i].phase == SlotReturned then Leave(i)
         else if s.workers[i].pc == Returned then ReturnSlot(i) else Advanced(i);
  }

  lemma {:induction false} SomePresent(ws: seq<Worker>) returns (i: nat)
    requires Present(ws) > 0
    ensures i < |ws| && ws[i].phase != Gone
  {
    if ws[|ws| - 1].phase != Gone {
      i := |ws| - 1;
    } else {
      i := SomePresent(ws[..|ws| - 1]);
    }
  }

  /* ---- pass, undisturbed ---- */

  // What the control plane answers to a claim.
  datatype Answer = Got(job: Job, world: World) | Nothing | Failure | AnswerLost(job: Job)

  /** The state after some actions, if each was possible in its turn. */
  function Follow(s: State, as_: seq<Action>): Option<State> {
    if as_ == [] then Some(s) else
    match Follow(s, as_[..|as_| - 1])
    case None => None
    case Some(t) => if Enabled(t, as_[|as_| - 1]) then Some(Apply(t, as_[|as_| - 1])) else None
  }

  lemma FollowOneMore(s: State, as_: seq<Action>, a: Action)
    requires Follow(s, as_).Some? && Enabled(Follow(s, as_).value, a)
    ensures Follow(s, as_ + [a]) == Some(Apply(Follow(s, as_).value, a))
  {
    assert (as_ + [a])[..|as_|] == as_;
  }

  /** Whatever main does, however it is interleaved, keeps the invariant. */
  lemma {:induction false} FollowKeepsInvariant(s: State, as_: seq<Action>)
    requires Invariant(s) && Follow(s, as_).Some?
    ensures Invariant(Follow(s, as_).value)
  {
    if as_ != [] {
      FollowKeepsInvariant(s, as_[..|as_| - 1]);
      InvariantHolds(Follow(s, as_[..|as_| - 1]).value, as_[|as_| - 1]);
    }
  }

  /** The workers launched since `s0` are those of the first answers, in order, and each has a slot. */
  ghost predicate Launched(s0: State, s: State, launched: seq<Worker>, answers: seq<Answer>) {
    && |launched| <= |answers| && s.workers == s0.workers + launched && s.tokens == s0.tokens + |launched|
    && forall k :: 0 <= k < |launched| ==> answers[k].Got? && launched[k].job == answers[k].job
  }

  lemma LaunchedOneMore(s0: State, s: State, t: State, launched: seq<Worker>, answers: seq<Answer>)
    requires Launched(s0, s, launched, answers) && |launched| < |answers| && answers[|launched|].Got?
    requires |t.workers| == |s.workers| + 1 && t.workers[..|s.workers|] == s.workers && t.tokens == s.tokens + 1
    requires t.workers[|s.workers|].job == answers[|launched|].job
    ensures Launched(s0, t, launched + [t.workers[|s.workers|]], answers)
  {
    assert t.workers == s.workers + [t.workers[|s.workers|]];
  }

  function AnswerTo(answers: seq<Answer>, next: nat): Answer {
    if next < |answers| then answers[next] else Nothing
  }

  /** A slot taken and a job asked for: it goes to a new worker with the slot, or the slot is given back. */
  function AfterClaim(s: State, answer: Answer): State {
    match answer
    case Got(j, w) =>
      if j in s.queued
      then s.(queued := s.queued - {j}, inFlight := s.inFlight + 1, tokens := s.tokens + 1,
              workers := s.workers + [Worker(j, w, Validating, [], Inside)])
      else s.(loop := Waiting)
    case AnswerLost(j) =>
      if j in s.queued then s.(queued := s.queued - {j}, lost := s.lost + {j}, loop := Waiting) else s.(loop := Waiting)
    case _ => s.(loop := Waiting)
  }

  /** A whole pass, from answer `next` on. */
  function PassOf(s: State, answers: seq<Answer>, next: nat): State
    decreases s.capacity - s.tokens, s.loop == Passing
  {
    if s.loop != Passing then s
    else if s.tokens >= s.capacity then s.(loop := Waiting)
    else PassOf(AfterClaim(s, AnswerTo(answers, next)), answers, next + 1)
  }

  class WorkLoop {
    var s: State

    constructor (s: State)
      ensures this.s == s
    {
      this.s := s;
    }

    method Do(a: Action, ghost s0: State, ghost before: seq<Action>) returns (ghost done: seq<Action>)
      requires Follow(s0, before) == Some(s) && Enabled(s, a)
      modifies this
      ensures s == Apply(old(s), a) && done == before + [a] && Follow(s0, done) == Some(s)
    {
      FollowOneMore(s0, before, a);
      s := Apply(s, a);
      done := before + [a];
    }

    /** Takes a slot and claims; the slot goes to the job's worker, or straight back. */
    method ClaimOne(answer: Answer, ghost s0: State, ghost before: seq<Action>)
      returns (launched: bool, ghost done: seq<Action>)
      requires Follow(s0, before) == Some(s) && s.loop == Passing && s.tokens < s.capacity
      modifies this
      ensures Follow(s0, done) == Some(s) && s.capacity == old(s).capacity && s == AfterClaim(old(s), answer)
      ensures launched <==> answer.Got? && answer.job in old(s).queued
      ensures !launched ==> s.queued <= old(s).queued
      ensures if launched then
                && s.loop == Passing && s.tokens == old(s).tokens + 1
                && s.workers == old(s).workers + [Worker(answer.job, answer.world, Validating, [], Inside)]
              else s.loop == Waiting && s.tokens == old(s).tokens && s.workers == old(s).workers
    {
      done := Do(Fill, s0, before);
      launched := answer.Got? && answer.job in s.queued;
      var claim :=
        match answer
        case Got(j, w) => if j in s.queued then Claimed(j, w) else NothingToClaim
        case Nothing => NothingToClaim
        case Failure => ClaimFailed
        case AnswerLost(j) => if j in s.queued then ClaimLost(j) else ClaimFailed;
      done := Do(claim, s0, done);
    }

    method FillOne(answers: seq<Answer>, next: nat, ghost launched: seq<Worker>, ghost s0: State, ghost before: seq<Action>)
      returns (go: bool, ghost more: seq<Worker>, ghost done: seq<Action>)
      requires Follow(s0, before) == Some(s) && s.loop == Passing && s.tokens < s.capacity
      requires Launched(s0, s, launched, answers) && next == |launched|
      modifies this
      ensures Follow(s0, done) == Some(s) && s.capacity == old(s).capacity && Launched(s0, s, more, answers)
      ensures s == AfterClaim(old(s), AnswerTo(answers, next))
      ensures if go then s.loop == Passing && |more| == next + 1 && s.tokens == old(s).tokens + 1
              else s.loop == Waiting && more == launched
                   && (next == |answers| || !answers[next].Got? || answers[next].job !in s.queued)
    {
      ghost var was := s;
      go, done := ClaimOne(AnswerTo(answers, next), s0, before);
      more := launched;
      if go {
        LaunchedOneMore(s0, was, s, launched, answers);
        more := launched + [s.workers[|s.workers| - 1]];
      }
    }

    method FillSlots(answers: seq<Answer>) returns (ghost done: seq<Action>, ghost launched: seq<Worker>)
      requires s.loop == Passing && s.tokens <= s.capacity
      modifies this
      ensures Follow(old(s), done) == Some(s) && s.loop == Waiting && Launched(old(s), s, launched, answers)
      ensures s == PassOf(old(s), answers, 0)
      ensures s.tokens == s.capacity || |launched| == |answers| || !answers[|launched|].Got?
              || answers[|launched|].job !in s.queued
    {
      ghost var s0 := s;
      done, launched := [], [];
      var next := 0;
      while s.tokens < s.capacity
        invariant s.loop == Passing && s.tokens <= s.capacity && Follow(s0, done) == Some(s)
        invariant Launched(s0, s, launched, answers) && next == |launched| && PassOf(s, answers, next) == PassOf(s0, answers, 0)
        decreases s.capacity - s.tokens
      {
        var go;
        go, launched, done := FillOne(answers, next, launched, s0, done);
        if !go {
          return;
        }
        next := next + 1;
      }
      done := Do(Full, s0, done);
    }

    /**
      One pass with nobody else moving: every free slot is filled with ready work, in the order it is claimed,
      until the slots or the answers run out.
    */
    method Pass(answers: seq<Answer>) returns (ghost done: seq<Action>, ghost launched: seq<Worker>)
      requires s.loop == Passing && s.tokens <= s.capacity
      modifies this
      ensures Follow(old(s), done) == Some(s) && s == PassOf(old(s), answers, 0) && s.loop == Waiting
      ensures Invariant(old(s)) ==> Invariant(s)
      ensures s.workers == old(s).workers + launched && s.tokens == old(s).tokens + |launched|
      ensures |launched| <= |answers|
      ensures forall k :: 0 <= k < |launched| ==> answers[k].Got? && launched[k].job == answers[k].job
      ensures s.tokens == s.capacity || |launched| == |answers| || !answers[|launched|].Got?
              || answers[|launched|].job !in s.queued
    {
      ghost var s0 := s;
      done, launched := FillSlots(answers);
      if Invariant(s0) {
        FollowKeepsInvariant(s0, done);
      }
    }
  }
}
