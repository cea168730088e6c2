/** Everything a job does, from its claim to its report, written out (runClaimed in cmd/dispatcher/main.go). */
module JobScript {
  import opened Text
  import opened JobRun

  /** A work job with a bead, or a file job with a plan, of some cell. */
  predicate CanRun(j: Job) {
    && ((j.kind == Work && !Blank(j.bead)) || (j.kind == File && !Blank(j.brief)))
    && !Blank(j.cell)
  }

  const INTERRUPTED := "the dispatcher was stopped (deploy or restart) and this run was interrupted; it did not fail on its own. Re-dispatch it."

  /** The repository's own check was run, where there is one. */
  function Checked(j: Job): seq<Effect> {
    if Blank(j.check) then [] else [RanCheck]
  }

  function Labelled(j: Job): seq<Effect> {
    if Blank(j.project) then [] else [LabelledBeads(Trim(j.project))]
  }

  /** The end of every work job: labels, the landing, the cache, the worktree, and the report. */
  function Ending(j: Job, stopped: bool, out: string, v: Verdict, failed: bool): seq<Effect> {
    Labelled(j) + [Landed(out, v, failed), SavedDependencies, ReleasedWorktree]
    + [Reported(!failed, if !stopped then out else if Blank(out) then INTERRUPTED else out + "\n\n" + INTERRUPTED)]
  }

  /* ---- jobs without the agent ---- */

  lemma OneMore(j: Job, w: World, stopped: bool, pc: Pc)
    requires pc != Returned
    ensures var (next, es) := Advance(j, w, stopped, pc); Rest(j, w, stopped, pc) == es + Rest(j, w, stopped, next)
  {
    StepThenRest(j, w, stopped, pc, []);
  }

  /** A job that cannot run does nothing but say so. */
  lemma UnrunnableInFull(j: Job, w: World, stopped: bool)
    requires !CanRun(j)
    ensures Rest(j, w, stopped, Validating) == [Reported(false, "the job cannot be run")]
  {
    OneMore(j, w, stopped, Validating);
    LastStep(j, w, stopped, false, UNRUNNABLE);
  }

  lemma RunnableGoesOn(j: Job, w: World, stopped: bool)
    requires CanRun(j)
    ensures Rest(j, w, stopped, Validating) == Rest(j, w, stopped, Rigging)
  {
    OneMore(j, w, stopped, Validating);
  }

  /** Nor does one whose repository could not be checked out. */
  lemma NoRigInFull(j: Job, w: World, stopped: bool)
    requires CanRun(j) && !w.rigReady
    ensures Rest(j, w, stopped, Validating) == [Reported(false, "the repository for this work could not be checked out")]
  {
    RunnableGoesOn(j, w, stopped);
    OneMore(j, w, stopped, Rigging);
    LastStep(j, w, stopped, false, NO_RIG);
  }

  /** A file job files its plan and reports what came of that. */
  lemma FileJobInFull(j: Job, w: World, stopped: bool)
    requires CanRun(j) && j.kind == File && w.rigReady
    ensures Rest(j, w, stopped, Validating) == [FiledPlan, Reported(!w.filing.failed, w.filing.output)]
  {
    RunnableGoesOn(j, w, stopped);
    OneMore(j, w, stopped, Rigging);
    OneMore(j, w, stopped, FilingPlan);
    LastStep(j, w, stopped, !w.filing.failed, w.filing.output);
  }

  /* ---- jobs with the agent ---- */

  lemma SameNote()
    ensures STOPPED == INTERRUPTED
  {
  }

  lemma EndingInFull(j: Job, w: World, stopped: bool, out: string, v: Verdict, failed: bool)
    requires j.kind == Work
    ensures Rest(j, w, stopped, Landing(out, v, failed)) == Ending(j, stopped, out, v, failed)
  {
    SameNote();
    OneMore(j, w, stopped, Landing(out, v, failed));
    LastStep(j, w, stopped, !failed, ShutdownNote(stopped, out));
  }

  /** A work job whose check passes, or is none, or comes after a run that failed: one run of the agent. */
  lemma OneRunInFull(j: Job, w: World, stopped: bool)
    requires CanRun(j) && j.kind == Work && w.rigReady
    requires Blank(j.check) || !w.firstCheck.Failing? || w.first.failed
    ensures Rest(j, w, stopped, Validating) ==
            [RanAgent("")] + Checked(j)
            + Ending(j, stopped, w.first.output, if Blank(j.check) then NoVerdict else w.firstCheck, w.first.failed)
  {
    RunnableGoesOn(j, w, stopped);
    OneMore(j, w, stopped, Rigging);
    OneMore(j, w, stopped, FirstRun);
    OnlyCheckInFull(j, w, stopped);
    OneAndMore(RanAgent(""), Checked(j), Rest(j, w, stopped, Rigging), Rest(j, w, stopped, FirstRun), Rest(j, w, stopped, FirstCheck),
               Ending(j, stopped, w.first.output, if Blank(j.check) then NoVerdict else w.firstCheck, w.first.failed));
  }

  lemma OneAndMore(
    a: Effect, check: seq<Effect>, rigging: seq<Effect>, run: seq<Effect>, rest: seq<Effect>, end: seq<Effect>)
    requires rigging == [] + run && run == [a] + rest && rest == check + end
    ensures rigging == [a] + check + end
  {
    assert [a] + (check + end) == [a] + check + end;
  }

  lemma OnlyCheckInFull(j: Job, w: World, stopped: bool)
    requires j.kind == Work && (Blank(j.check) || !w.firstCheck.Failing? || w.first.failed)
    ensures Rest(j, w, stopped, FirstCheck) ==
            Checked(j) + Ending(j, stopped, w.first.output, if Blank(j.check) then NoVerdict else w.firstCheck, w.first.failed)
  {
    OneMore(j, w, stopped, FirstCheck);
    EndingInFull(j, w, stopped, w.first.output, if Blank(j.check) then NoVerdict else w.firstCheck, w.first.failed);
  }

  /** And one whose check fails a run that did not: the agent is given the check's feedback and runs once more. */
  lemma TwoRunsInFull(j: Job, w: World, stopped: bool)
    requires CanRun(j) && j.kind == Work && w.rigReady
    requires !Blank(j.check) && w.firstCheck.Failing? && !w.first.failed
    ensures Rest(j, w, stopped, Validating) ==
            [RanAgent(""), RanCheck, RanAgent(w.firstCheck.feedback), RanCheck]
            + Ending(j, stopped,
                     w.first.output
                     + "\n\n--- the check failed, so the agent was given the output and ran again ---\n\n" + w.second.output,
                     w.secondCheck, w.second.failed)
  {
    RunnableGoesOn(j, w, stopped);
    OneMore(j, w, stopped, Rigging);
    OneMore(j, w, stopped, FirstRun);
    OneMore(j, w, stopped, FirstCheck);
    SecondRunInFull(j, w, stopped);
    FourAndMore(RanAgent(""), RanCheck, RanAgent(w.firstCheck.feedback), RanCheck, Rest(j, w, stopped, Rigging),
                Rest(j, w, stopped, FirstRun), Rest(j, w, stopped, FirstCheck), Rest(j, w, stopped, SecondRun(w.firstCheck.feedback)),
                Ending(j, stopped, w.first.output + SECOND_PASS + w.second.output, w.secondCheck, w.second.failed));
  }

  lemma FourAndMore(
    a: Effect, b: Effect, c: Effect, d: Effect,
    rigging: seq<Effect>, run: seq<Effect>, check: seq<Effect>, second: seq<Effect>, end: seq<Effect>)
    requires rigging == [] + run && run == [a] + check && check == [b] + second && second == [c, d] + end
    ensures rigging == [a, b, c, d] + end
  {
    assert [a] + ([b] + ([c, d] + end)) == [a, b, c, d] + end;
  }

  lemma SecondRunInFull(j: Job, w: World, stopped: bool)
    requires j.kind == Work && !Blank(j.check) && w.firstCheck.Failing?
    ensures Rest(j, w, stopped, SecondRun(w.firstCheck.feedback)) ==
            [RanAgent(w.firstCheck.feedback), RanCheck]
            + Ending(j, stopped, w.first.output + SECOND_PASS + w.second.output, w.secondCheck, w.second.failed)
  {
    OneMore(j, w, stopped, SecondRun(w.firstCheck.feedback));
    OneMore(j, w, stopped, SecondCheck);
    EndingInFull(j, w, stopped, w.first.output + SECOND_PASS + w.second.output, w.secondCheck, w.second.failed);
  }

  /* ---- what the log tells ---- */

  /** So a work job's log has one run of the agent, or two where the check failed a good run, and a check for each if any. */
  lemma RunsAndChecks(j: Job, w: World, stopped: bool)
    requires CanRun(j) && j.kind == Work && w.rigReady
    ensures var log, again := Rest(j, w, stopped, Validating), !Blank(j.check) && w.firstCheck.Failing? && !w.first.failed;
            && Agents(log) == (if again then 2 else 1) && Checks(log) == (if Blank(j.check) then 0 else Agents(log))
            && RunsFirst(log)
  {
    if !Blank(j.check) && w.firstCheck.Failing? && !w.first.failed {
      TwoRunsInFull(j, w, stopped);
      TwoThenEnding(w.firstCheck.feedback, j, stopped, w.first.output + SECOND_PASS + w.second.output, w.secondCheck, w.second.failed);
    } else {
      OneRunInFull(j, w, stopped);
      OneThenEnding(j, stopped, w.first.output, if Blank(j.check) then NoVerdict else w.firstCheck, w.first.failed);
    }
  }

  /** The agent has run before anything was landed. */
  predicate RunsFirst(log: seq<Effect>) {
    forall i, k :: 0 <= i < |log| && 0 <= k < |log| && log[i].RanAgent? && log[k].Landed? ==> i < k
  }

  lemma OneThenEnding(j: Job, stopped: bool, out: string, v: Verdict, failed: bool)
    ensures var log := [RanAgent("")] + Checked(j) + Ending(j, stopped, out, v, failed);
            Agents(log) == 1 && Checks(log) == (if Blank(j.check) then 0 else 1) && RunsFirst(log)
  {
    OneOfEach("");
    RunsThenEnding([RanAgent("")] + Checked(j), j, stopped, out, v, failed);
  }

  lemma TwoThenEnding(extra: string, j: Job, stopped: bool, out: string, v: Verdict, failed: bool)
    ensures var log := [RanAgent(""), RanCheck, RanAgent(extra), RanCheck] + Ending(j, stopped, out, v, failed);
            Agents(log) == Checks(log) == 2 && RunsFirst(log)
  {
    TwoOfEach(extra);
    RunsThenEnding([RanAgent(""), RanCheck, RanAgent(extra), RanCheck], j, stopped, out, v, failed);
  }

  lemma OneOfEach(extra: string)
    ensures Agents([RanAgent(extra)] + [RanCheck]) == Checks([RanAgent(extra)] + [RanCheck]) == 1
    ensures Agents([RanAgent(extra)] + []) == 1 && Checks([RanAgent(extra)] + []) == 0
  {
    assert [RanAgent(extra)][..0] == [] && [RanCheck][..0] == [];
    CountsAdd([RanAgent(extra)], [RanCheck]);
    assert [RanAgent(extra)] + [] == [RanAgent(extra)];
  }

  lemma TwoOfEach(extra: string)
    ensures var runs := [RanAgent(""), RanCheck, RanAgent(extra), RanCheck]; Agents(runs) == Checks(runs) == 2
  {
    var a, b := [RanAgent("")] + [RanCheck], [RanAgent(extra)] + [RanCheck];
    assert [RanAgent(""), RanCheck, RanAgent(extra), RanCheck] == a + b;
    CountsAdd(a, b);
    OneOfEach("");
    OneOfEach(extra);
  }

  /** No run and no check is in the ending, and no landing before it. */
  lemma RunsThenEnding(runs: seq<Effect>, j: Job, stopped: bool, out: string, v: Verdict, failed: bool)
    requires forall k :: 0 <= k < |runs| ==> !runs[k].Landed?
    ensures var log := runs + Ending(j, stopped, out, v, failed);
            Agents(log) == Agents(runs) && Checks(log) == Checks(runs) && RunsFirst(log)
  {
    EndingIsQuiet(j, stopped, out, v, failed);
    QuietThen(runs, Ending(j, stopped, out, v, failed));
  }

  lemma QuietThen(runs: seq<Effect>, end: seq<Effect>)
    requires forall k :: 0 <= k < |runs| ==> !runs[k].Landed?
    requires Agents(end) == 0 && Checks(end) == 0 && forall k :: 0 <= k < |end| ==> !end[k].RanAgent?
    ensures Agents(runs + end) == Agents(runs) && Checks(runs + end) == Checks(runs) && RunsFirst(runs + end)
  {
    CountsAdd(runs, end);
  }

  lemma EndingIsQuiet(j: Job, stopped: bool, out: string, v: Verdict, failed: bool)
    ensures var end := Ending(j, stopped, out, v, failed);
            Agents(end) == 0 && Checks(end) == 0 && forall k :: 0 <= k < |end| ==> !end[k].RanAgent?
  {
    var end := Ending(j, stopped, out, v, failed);
    NoRunsNoChecks(end);
  }

  lemma {:induction false} NoRunsNoChecks(es: seq<Effect>)
    requires forall k :: 0 <= k < |es| ==> !es[k].RanAgent? && !es[k].RanCheck?
    ensures Agents(es) == 0 && Checks(es) == 0
  {
    if es != [] {
      NoRunsNoChecks(es[..|es| - 1]);
    }
  }
}
