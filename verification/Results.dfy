/** What is left of a run's account once the job row has stored it (runClaimed, and system_finish_work). */
module Results {
  import opened Text
  import opened JobRun
  import T = Transcript

  /** left(result, 4000). */
  function Stored(output: string): string {
    if |output| <= T.COLUMN then output else output[..T.COLUMN]
  }

  /** The account of all agent runs of a job. */
  function Account(j: Job, w: World): string {
    if RunsAgain(j, w) then w.first.output + SECOND_PASS + w.second.output else w.first.output
  }

  predicate WithTheAgent(pc: Pc) {
    pc.FirstRun? || pc.FirstCheck? || pc.SecondRun? || pc.SecondCheck? || pc.Landing? || pc.Reporting?
  }

  /** What a job past its rig is going to report. */
  function WillReport(j: Job, w: World, stopped: bool, pc: Pc): string
    requires WithTheAgent(pc)
  {
    match pc
    case FirstRun => ShutdownNote(stopped, Account(j, w))
    case FirstCheck => ShutdownNote(stopped, Account(j, w))
    case SecondRun(_) => ShutdownNote(stopped, w.first.output + SECOND_PASS + w.second.output)
    case SecondCheck => ShutdownNote(stopped, w.first.output + SECOND_PASS + w.second.output)
    case Landing(out, _, _) => ShutdownNote(stopped, out)
    case Reporting(_, out) => out
  }

  lemma ReportIsSettled(j: Job, w: World, stopped: bool, pc: Pc)
    requires WithTheAgent(pc) && !pc.Reporting?
    ensures var next := Advance(j, w, stopped, pc).0;
            WithTheAgent(next) && WillReport(j, w, stopped, next) == WillReport(j, w, stopped, pc)
  {
  }

  lemma {:induction false} ReportsTheAccount(j: Job, w: World, stopped: bool, pc: Pc)
    requires WithTheAgent(pc)
    ensures var es := Rest(j, w, stopped, pc);
            es != [] && es[|es| - 1].Reported? && es[|es| - 1].output == WillReport(j, w, stopped, pc)
    decreases StepsLeft(pc)
  {
    if pc.Reporting? {
      LastStep(j, w, stopped, pc.ok, pc.output);
    } else {
      var (next, es) := Advance(j, w, stopped, pc);
      EveryStepIsProgress(j, w, stopped, pc);
      ReportIsSettled(j, w, stopped, pc);
      ReportsTheAccount(j, w, stopped, next);
      LastOfBoth(es, Rest(j, w, stopped, next));
    }
  }

  lemma LastOfBoth(before: seq<Effect>, es: seq<Effect>)
    requires es != []
    ensures (before + es)[|before + es| - 1] == es[|es| - 1]
  {
  }

  /** How long an account may be and still be stored whole. */
  function Allowance(stopped: bool): nat {
    if stopped then T.COLUMN - |"\n\n"| - |STOPPED| else T.COLUMN
  }

  /**
    A work job's account is stored whole exactly when both runs' outputs together fit, with the heading between them
    if there were two, and the note about a shutdown if there was one.
  */
  lemma StoredWholeIff(j: Job, w: World, stopped: bool)
    ensures var es := Rest(j, w, stopped, FirstRun);
            && es != [] && es[|es| - 1].Reported?
            && (Stored(es[|es| - 1].output) == es[|es| - 1].output <==>
                (stopped && Blank(Account(j, w)))
                || |w.first.output| + (if RunsAgain(j, w) then |SECOND_PASS| + |w.second.output| else 0) <= Allowance(stopped))
  {
    ReportsTheAccount(j, w, stopped, FirstRun);
    assert |STOPPED| < T.COLUMN;
  }

  /** One run that ended by itself, of a dispatcher that was not stopped: its account fits, whatever it wrote. */
  lemma OneRunIsStoredWhole(j: Job, w: World, trim: string -> string, output: string, tail: string)
    requires !RunsAgain(j, w) && w.first.output == T.WithTranscript(trim, output, tail)
    requires |trim(output)| < 0x8000_0000_0000_0000 && |trim(tail)| < 0x8000_0000_0000_0000
    ensures var es := Rest(j, w, false, FirstRun);
            es != [] && es[|es| - 1] == Reported(WillSucceed(j, w, FirstRun), w.first.output)
            && Stored(w.first.output) == w.first.output
  {
    ReportsTheAccount(j, w, false, FirstRun);
    ReportedAsDoneIff(j, w, false, FirstRun);
    T.ResultIsNeverCut(trim, output, tail);
  }

  /** Two runs that each fit need not fit together: the end of the second, which says how it all ended, is cut off. */
  lemma TwoRunsMayBeCut(j: Job, w: World)
    requires RunsAgain(j, w) && |w.first.output| == 2000 && |w.second.output| == 2000
    ensures var es := Rest(j, w, false, FirstRun);
            && es != [] && es[|es| - 1].Reported?
            && Stored(es[|es| - 1].output) == w.first.output + SECOND_PASS + w.second.output[..2000 - |SECOND_PASS|]
  {
    ReportsTheAccount(j, w, false, FirstRun);
    assert |SECOND_PASS| <= 2000;
    TakeOfThree(w.first.output, SECOND_PASS, w.second.output, T.COLUMN);
  }

  lemma TakeOfThree(a: string, b: string, c: string, n: nat)
    requires |a| + |b| <= n <= |a| + |b| + |c|
    ensures (a + b + c)[..n] == a + b + c[..n - |a| - |b|]
  {
  }
}
