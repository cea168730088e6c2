/** One claimed job, from the claim to its reported outcome (runClaimed in cmd/dispatcher/main.go). */
module JobRun {
  import opened Text

  datatype Kind = Work | File | Other
  datatype Job = Job(id: nat, kind: Kind, bead: string, brief: string, cell: string, project: string, check: string)

  // What the repository's own check said: it was not run or could not be, it passed, or it failed.
  datatype Verdict = NoVerdict | Passed | Failing(feedback: string)
  datatype Run = Run(output: string, failed: bool)

  // All that the world decides about one job.
  datatype World = World(rigReady: bool, filing: Run, first: Run, firstCheck: Verdict, second: Run, secondCheck: Verdict)

  // What a run does to the outside.
  datatype Effect =
    | FiledPlan
    | RanAgent(extra: string)
    | RanCheck
    | LabelledBeads(project: string)
    | Landed(output: string, verdict: Verdict, failed: bool)
    | SavedDependencies
    | ReleasedWorktree
    | Reported(ok: bool, output: string)

  const UNRUNNABLE := "the job cannot be run"
  const NO_RIG := "the repository for this work could not be checked out"
  const SECOND_PASS := "\n\n--- the check failed, so the agent was given the output and ran again ---\n\n"
  const STOPPED := "the dispatcher was stopped (deploy or restart) and this run was interrupted; it did not fail on its own. Re-dispatch it."

  /** work.Job.Validate. */
  predicate Runnable(j: Job) {
    && (match j.kind
        case Work => !Blank(j.bead)
        case File => !Blank(j.brief)
        case Other => false)
    && !Blank(j.cell)
  }

  predicate HasCheck(j: Job) {
    j.kind == Work && !Blank(j.check)
  }

  function ShutdownNote(stopped: bool, out: string): string {
    if !stopped then out else if Blank(out) then STOPPED else out + "\n\n" + STOPPED
  }

  /* ---- step by step, as a goroutine among others runs it ---- */

  datatype Pc =
    | Validating
    | Rigging
    | FilingPlan
    | FirstRun
    | FirstCheck
    | SecondRun(feedback: string)
    | SecondCheck
    | Landing(output: string, verdict: Verdict, failed: bool)
    | Reporting(ok: bool, output: string)
    | Returned

  function Ran(v: Verdict, j: Job): (Verdict, seq<Effect>) {
    if HasCheck(j) then (v, [RanCheck]) else (NoVerdict, [])
  }

  /** The next step of a job; `stopped` is whether the dispatcher has been told to stop by then. */
  function Advance(j: Job, w: World, stopped: bool, pc: Pc): (Pc, seq<Effect>)
    requires pc != Returned
  {
    match pc
    case Validating => (if Runnable(j) then Rigging else Reporting(false, UNRUNNABLE), [])
    case Rigging =>
      (if !w.rigReady then Reporting(false, NO_RIG) else if j.kind == File then FilingPlan else FirstRun, [])
    case FilingPlan => (Reporting(!w.filing.failed, w.filing.output), [FiledPlan])
    case FirstRun => (FirstCheck, [RanAgent("")])
    case FirstCheck =>
      var (v, es) := Ran(w.firstCheck, j);
      (if v.Failing? && !w.first.failed then SecondRun(v.feedback) else Landing(w.first.output, v, w.first.failed), es)
    case SecondRun(feedback) => (SecondCheck, [RanAgent(feedback)])
    case SecondCheck =>
      var (v, es) := Ran(w.secondCheck, j);
      (Landing(w.first.output + SECOND_PASS + w.second.output, v, w.second.failed), es)
    case Landing(out, v, failed) =>
      (Reporting(!failed, ShutdownNote(stopped, out)),
       (if Blank(j.project) then [] else [LabelledBeads(Trim(j.project))])
       + (if j.kind == Work then [Landed(out, v, failed), SavedDependencies, ReleasedWorktree] else []))
    case Reporting(ok, out) => (Returned, [Reported(ok, out)])
  }

  /** Steps still to come, at most. */
  function StepsLeft(pc: Pc): nat {
    match pc
    case Validating => 9
    case Rigging => 8
    case FilingPlan => 2
    case FirstRun => 7
    case FirstCheck => 6
    case SecondRun(_) => 5
    case SecondCheck => 4
    case Landing(_, _, _) => 3
    case Reporting(_, _) => 1
    case Returned => 0
  }

  lemma EveryStepIsProgress(j: Job, w: World, stopped: bool, pc: Pc)
    requires pc != Returned
    ensures StepsLeft(Advance(j, w, stopped, pc).0) < StepsLeft(pc)
  {
  }

  /** Everything a job does from `pc` on, if nothing else changes meanwhile. */
  function Rest(j: Job, w: World, stopped: bool, pc: Pc): seq<Effect>
    decreases StepsLeft(pc)
  {
    if pc == Returned then []
    else
      EveryStepIsProgress(j, w, stopped, pc);
      var (next, es) := Advance(j, w, stopped, pc);
      es + Rest(j, w, stopped, next)
  }

  /** Doing the next step and then the rest is doing all of it. */
  lemma StepThenRest(j: Job, w: World, stopped: bool, pc: Pc, log: seq<Effect>)
    requires pc != Returned
    ensures var (next, es) := Advance(j, w, stopped, pc);
            log + Rest(j, w, stopped, pc) == (log + es) + Rest(j, w, stopped, next)
  {
  }

  lemma LastStep(j: Job, w: World, stopped: bool, ok: bool, output: string)
    ensures Rest(j, w, stopped, Reporting(ok, output)) == [Reported(ok, output)]
  {
    assert Rest(j, w, stopped, Returned) == [];
  }

  /* ---- in one go, as runClaimed reads ---- */

  class Node {
    var log: seq<Effect>

    constructor ()
      ensures log == []
    {
      log := [];
    }

    method Emit(e: Effect)
      modifies this
      ensures log == old(log) + [e]
    {
      log := log + [e];
    }

    /** The repository's own check, or no verdict when nobody has opted the repository in. */
    method Check(j: Job, answer: Verdict) returns (v: Verdict)
      modifies this
      ensures v == Ran(answer, j).0 && log == old(log) + Ran(answer, j).1
      ensures if j.kind == Work && Trim(j.check) != "" then v == answer && log == old(log) + [RanCheck]
              else v == NoVerdict && log == old(log)
    {
      if j.kind != Work || Blank(j.check) {
        return NoVerdict;
      }
      Emit(RanCheck);
      return answer;
    }

    /** The agent, the check, and at most one more of each when the check failed a run that did not. */
    method RunAgent(j: Job, w: World, ghost stopped: bool) returns (out: string, v: Verdict, failed: bool)
      modifies this
      ensures log + Rest(j, w, stopped, Landing(out, v, failed)) == old(log) + Rest(j, w, stopped, FirstRun)
    {
      StepThenRest(j, w, stopped, FirstRun, log);
      Emit(RanAgent(""));
      out, failed := w.first.output, w.first.failed;
      StepThenRest(j, w, stopped, FirstCheck, log);
      v := Check(j, w.firstCheck);
      if v.Failing? && !failed {
        out, v, failed := RunAgain(j, w, out, v.feedback, stopped);
      }
    }

    /** The second run, told what the check said of the first. */
    method RunAgain(j: Job, w: World, before: string, feedback: string, ghost stopped: bool)
      returns (out: string, v: Verdict, failed: bool)
      requires before == w.first.output
      modifies this
      ensures log + Rest(j, w, stopped, Landing(out, v, failed)) == old(log) + Rest(j, w, stopped, SecondRun(feedback))
    {
      StepThenRest(j, w, stopped, SecondRun(feedback), log);
      Emit(RanAgent(feedback));
      out, failed := before + SECOND_PASS + w.second.output, w.second.failed;
      StepThenRest(j, w, stopped, SecondCheck, log);
      v := Check(j, w.secondCheck);
    }

    /** The one call that closes the row. */
    method Report(j: Job, ghost w: World, ghost stopped: bool, ok: bool, output: string)
      modifies this
      ensures log == old(log) + Rest(j, w, stopped, Reporting(ok, output))
    {
      LastStep(j, w, stopped, ok, output);
      Emit(Reported(ok, output));
    }

    /** What follows the agent: labels, the landing, and the one report. */
    method Finish(j: Job, ghost w: World, stopped: bool, out: string, v: Verdict, failed: bool)
      modifies this
      ensures log == old(log) + Rest(j, w, stopped, Landing(out, v, failed))
    {
      StepThenRest(j, w, stopped, Landing(out, v, failed), log);
      Land(j, w, stopped, out, v, failed);
      Report(j, w, stopped, !failed, ShutdownNote(stopped, out));
    }

    method Land(j: Job, ghost w: World, ghost stopped: bool, out: string, v: Verdict, failed: bool)
      modifies this
      ensures log == old(log) + Advance(j, w, stopped, Landing(out, v, failed)).1
    {
      if !Blank(j.project) {
        Emit(LabelledBeads(Trim(j.project)));
      }
      if j.kind == Work {
        Emit(Landed(out, v, failed));
        Emit(SavedDependencies);
        Emit(ReleasedWorktree);
      }
    }

    method FileThePlan(j: Job, w: World, ghost stopped: bool)
      modifies this
      ensures log == old(log) + Rest(j, w, stopped, FilingPlan)
    {
      StepThenRest(j, w, stopped, FilingPlan, log);
      Emit(FiledPlan);
      Report(j, w, stopped, !w.filing.failed, w.filing.output);
    }

    /** What is left once the job is known to be runnable. */
    method RunRunnable(j: Job, w: World, stopped: bool)
      modifies this
      ensures log == old(log) + Rest(j, w, stopped, Rigging)
    {
      StepThenRest(j, w, stopped, Rigging, log);
      assert log + [] == log;
      if !w.rigReady {
        Report(j, w, stopped, false, NO_RIG);
      } else if j.kind == File {
        FileThePlan(j, w, stopped);
      } else {
        var out, v, failed := RunAgent(j, w, stopped);
        Finish(j, w, stopped, out, v, failed);
      }
    }

    /** Runs a job all the way to a reported outcome. */
    method RunClaimed(j: Job, w: World, stopped: bool)
      modifies this
      ensures log == old(log) + Rest(j, w, stopped, Validating)
    {
      StepThenRest(j, w, stopped, Validating, log);
      assert log + [] == log;
      if !Runnable(j) {
        Report(j, w, stopped, false, UNRUNNABLE);
      } else {
        RunRunnable(j, w, stopped);
      }
    }
  }

  /* ---- what every job does ---- */

  function Reports(log: seq<Effect>): nat {
    if log == [] then 0 else Reports(log[..|log| - 1]) + if log[|log| - 1].Reported? then 1 else 0
  }

  function Agents(log: seq<Effect>): nat {
    if log == [] then 0 else Agents(log[..|log| - 1]) + if log[|log| - 1].RanAgent? then 1 else 0
  }

  function Checks(log: seq<Effect>): nat {
    if log == [] then 0 else Checks(log[..|log| - 1]) + if log[|log| - 1].RanCheck? then 1 else 0
  }

  lemma {:induction false} CountsAdd(a: seq<Effect>, b: seq<Effect>)
    ensures Reports(a + b) == Reports(a) + Reports(b)
    ensures Agents(a + b) == Agents(a) + Agents(b)
    ensures Checks(a + b) == Checks(a) + Checks(b)
  {
    if b == [] {
      assert a + b == a;
    } else {
      assert (a + b)[..|a + b| - 1] == a + b[..|b| - 1];
      CountsAdd(a, b[..|b| - 1]);
    }
  }

  /** How many agent runs, and how many checks, a job may still be at most away from. */
  function AgentsLeft(pc: Pc): nat {
    match pc
    case Validating => 2
    case Rigging => 2
    case FirstRun => 2
    case FirstCheck => 1
    case SecondRun(_) => 1
    case _ => 0
  }

  function ChecksLeft(pc: Pc): nat {
    match pc
    case SecondRun(_) => 1
    case SecondCheck => 1
    case _ => if AgentsLeft(pc) > 0 then 2 else 0
  }

  /** A job that has not returned has not reported; one that has, reported once, as the last thing it did. */
  predicate Tallies(pc: Pc, log: seq<Effect>) {
    && Reports(log) == (if pc == Returned then 1 else 0)
    && (pc == Returned ==> log != [] && log[|log| - 1].Reported?)
    && Agents(log) + AgentsLeft(pc) <= 2
    && Checks(log) + ChecksLeft(pc) <= 2
  }

  lemma OneStepCounts(j: Job, w: World, stopped: bool, pc: Pc)
    requires pc != Returned
    ensures var (next, es) := Advance(j, w, stopped, pc);
            && Reports(es) == (if next == Returned then 1 else 0)
            && (next == Returned ==> es != [] && es[|es| - 1].Reported?)
            && Agents(es) + AgentsLeft(next) <= AgentsLeft(pc)
            && Checks(es) + ChecksLeft(next) <= ChecksLeft(pc)
  {
    var es := Advance(j, w, stopped, pc).1;
    if pc.Landing? {
      QuietCounts(es);
    } else if es != [] {
      assert es[..0] == [];
    }
  }

  lemma {:induction false} QuietCounts(es: seq<Effect>)
    requires forall k :: 0 <= k < |es| ==> !es[k].Reported? && !es[k].RanAgent? && !es[k].RanCheck?
    ensures Reports(es) == 0 && Agents(es) == 0 && Checks(es) == 0
  {
    if es != [] {
      QuietCounts(es[..|es| - 1]);
    }
  }

  lemma StepKeepsTally(j: Job, w: World, stopped: bool, pc: Pc, log: seq<Effect>)
    requires pc != Returned && Tallies(pc, log)
    ensures var (next, es) := Advance(j, w, stopped, pc); Tallies(next, log + es)
  {
    OneStepCounts(j, w, stopped, pc);
    CountsAdd(log, Advance(j, w, stopped, pc).1);
  }

  /** Run in one go, a job reports exactly once, last, after at most two agent runs and two checks. */
  lemma {:induction false} EveryJobReportsOnce(j: Job, w: World, stopped: bool, pc: Pc, log: seq<Effect>)
    requires Tallies(pc, log)
    ensures Tallies(Returned, log + Rest(j, w, stopped, pc))
    decreases StepsLeft(pc)
  {
    if pc == Returned {
      assert log + [] == log;
    } else {
      var (next, es) := Advance(j, w, stopped, pc);
      EveryStepIsProgress(j, w, stopped, pc);
      StepKeepsTally(j, w, stopped, pc, log);
      StepThenRest(j, w, stopped, pc, log);
      EveryJobReportsOnce(j, w, stopped, next, log + es);
    }
  }

  /** Whether the agent runs again: only on a failed check of a run that did not itself fail. */
  predicate RunsAgain(j: Job, w: World) {
    HasCheck(j) && w.firstCheck.Failing? && !w.first.failed
  }

  /** What a job at `pc` is going to report. */
  predicate WillSucceed(j: Job, w: World, pc: Pc)
    decreases StepsLeft(pc)
  {
    match pc
    case Validating => Runnable(j) && WillSucceed(j, w, Rigging)
    case Rigging => w.rigReady && if j.kind == File then !w.filing.failed else WillSucceed(j, w, FirstRun)
    case FilingPlan => !w.filing.failed
    case FirstRun => if RunsAgain(j, w) then !w.second.failed else !w.first.failed
    case FirstCheck => if RunsAgain(j, w) then !w.second.failed else !w.first.failed
    case SecondRun(_) => !w.second.failed
    case SecondCheck => !w.second.failed
    case Landing(_, _, failed) => !failed
    case Reporting(ok, _) => ok
    case Returned => true
  }

  /**
    A job is reported as done exactly when it could be run, its rig was there, and its last agent run did not
    fail; that the last check failed does not enter into it.
  */
  lemma {:induction false} ReportedAsDoneIff(j: Job, w: World, stopped: bool, pc: Pc)
    requires pc != Returned
    ensures var es := Rest(j, w, stopped, pc);
            es != [] && es[|es| - 1].Reported? && (es[|es| - 1].ok <==> WillSucceed(j, w, pc))
    decreases StepsLeft(pc)
  {
    var (next, es) := Advance(j, w, stopped, pc);
    EveryStepIsProgress(j, w, stopped, pc);
    StepThenRest(j, w, stopped, pc, []);
    SuccessIsSettled(j, w, stopped, pc);
    if next != Returned {
      ReportedAsDoneIff(j, w, stopped, next);
    }
  }

  lemma SuccessIsSettled(j: Job, w: World, stopped: bool, pc: Pc)
    requires pc != Returned
    ensures var (next, es) := Advance(j, w, stopped, pc);
            if next == Returned then pc.Reporting? && es == [Reported(pc.ok, pc.output)] && WillSucceed(j, w, pc) == pc.ok
            else WillSucceed(j, w, pc) == WillSucceed(j, w, next)
  {
  }

  /** Landed, then cached, then released, and last of all reported as what the landing was told. */
  predicate EndsWithLanding(es: seq<Effect>) {
    && |es| >= 4 && es[|es| - 4].Landed? && es[|es| - 3].SavedDependencies? && es[|es| - 2].ReleasedWorktree?
    && es[|es| - 1].Reported? && es[|es| - 1].ok == !es[|es| - 4].failed
  }

  lemma EndsTheSame(before: seq<Effect>, es: seq<Effect>)
    requires EndsWithLanding(es)
    ensures EndsWithLanding(before + es)
  {
  }

  lemma LandingEnds(j: Job, w: World, stopped: bool, pc: Pc)
    requires j.kind == Work && pc.Landing?
    ensures EndsWithLanding(Rest(j, w, stopped, pc))
  {
    LastStep(j, w, stopped, !pc.failed, ShutdownNote(stopped, pc.output));
  }

  /** Every change a run leaves in its worktree is landed before the job is reported, whether or not the run failed. */
  lemma {:induction false} LandsBeforeReporting(j: Job, w: World, stopped: bool, pc: Pc)
    requires j.kind == Work && (pc.FirstRun? || pc.FirstCheck? || pc.SecondRun? || pc.SecondCheck? || pc.Landing?)
    ensures EndsWithLanding(Rest(j, w, stopped, pc))
    decreases StepsLeft(pc)
  {
    if pc.Landing? {
      LandingEnds(j, w, stopped, pc);
    } else {
      var (next, es) := Advance(j, w, stopped, pc);
      EveryStepIsProgress(j, w, stopped, pc);
      LandsBeforeReporting(j, w, stopped, next);
      EndsTheSame(es, Rest(j, w, stopped, next));
    }
  }
}
