# Verification of the node's job machinery and the durable protocols around it

A node of this system claims jobs from the control plane, files plans into a bead graph, runs agents, lands what they
changed and reports. Around that stand a handful of durable protocols: approvals bound to a digest, cost import from a
log that keeps moving, a cache of dependency trees, migrations, idempotent writes, and an event stream that can be
resumed. The files here model that code branch by branch and prove what it keeps, over every input and every run.

| File | What it is about |
|---|---|
| `Text` | trimming, comma-joined labels |
| `Beads`, `Plans` | the bead graph behind `bd` and its adapter; when a plan may be filed at all |
| `Holders`, `Filing`, `FilingLaws`, `Theft`, `Recovery`, `Reordering` | the upsert: filing again, after a crash, in another order, and when an entry takes another's bead |
| `Cycles`, `FilePlan`, `FilePlanLaws`, `Contents`, `Refiling`, `PlanOrder` | the edges, the cycle verdict, and the whole of `fileplan`: once and what every bead then says, again, after a crash, and of the same plan in another order |
| `JobRun`, `JobScript`, `Dispatch`, `Results`, `Stall` | one claimed job, step by step and written out; all of them interleaved under a slot semaphore; what the job row keeps; the stall watcher |
| `Approvals` | votes, digests, expiry, and when an action is unlocked |
| `LogWalk`, `CostImport` | newest-first paging of a moving log, and what repeated imports add up to |
| `DepsCache` | the staged swap of the dependency cache |
| `Migrate`, `MigrateHistory` | one migration run, and any history of them |
| `Json`, `Idempotency`, `Stream` | two ways of printing JSON; retried writes; resumed event streams |
| `Transcript`, `TextArray` | fitting a result into 4000 characters; `text[]` literals |

Code that changes things step by step is modelled by classes and methods with loops, each proved against a function or
a relation; what is promised over whole runs is then proved about those. Whatever the outside decides (whether a command
runs, when a process dies, what a log does between two pages) is a parameter with no restriction on it.

## Where the code does not do what is said of it

Each of these is proved, with the exact condition under which the promise holds.

- Re-filing "should be a no-op" (`cmd/dispatcher/filing.go:119-122`): a bead created with a status changes once more on
  the second filing, because `Create` passes no status; so does one with a comma in a label, which `Create` sends
  joined and `UpdateIn` one by one, if bd takes the one apart at commas and not the other (`Beads.Tool` leaves that open).
  It is final after one filing exactly when no such bead was created (`FilingLaws.SettledAtOnceIff`), and after two
  always (`FilingLaws.SettledAfterTwo`).
- An entry that names a bead by id overwrites its external reference. If an earlier entry of the plan finds that bead by
  key, the next filing creates it anew (`Theft.StolenBeadIsFiledTwice`). Whether that happens can be told beforehand
  (`Theft.FiledAgainAsTheSameIff`).
- "Two projects may both call something scaffold" (`internal/work/filing.go:71-73`): keys of two projects can coincide
  when one name is the other's plus a slash and more (`Plans.ProjectsShareKeysIff`).
- `Validate` looks a dependency up among trimmed refs, `fileplan` among refs as they stand: a dependency on a ref with
  blanks around it passes validation and misses its bead (`FilePlan.DependencyReachesItsBeadIff`).
- The order of a plan's entries matters if a dependency names, by id, a bead that this very filing is going to mint:
  another entry may get that id in another order (`PlanOrder.OrderMayMatter`). The graphs, read by refs, agree exactly
  when no dependency does (`PlanOrder.SameEdgesIff`).
- The stored result is not always whole: `withTranscript` keeps one run within 3998 bytes, but a second run's account and
  the note about a shutdown are appended afterwards (`Results.StoredWholeIff`, `Results.TwoRunsMayBeCut`).
- A capped import loses nothing, says `cmd/costimport/main.go:125-129`. The next pass does not start from the same
  watermark: the watermark is the newest time recorded, so an unread row older than it by the overlap or more is never
  read again (`CostImport.LeftBehindForGood`, `CostImport.CappedImportCatchesUpIff`).
- "A run that dies mid-copy must not leave the next one warming from half a tree" (`cmd/dispatcher/deps.go:115-116`): so
  it is, unless removing the staging directory failed and the copy then went into it; and a worktree that was itself
  warmed only half, or holds half an install, is cached as it is (`DepsCache.Rig.Save`, `DepsCache.Rig.OneRun`).
- `-fresh` that stops amid the seeds has recorded some: it cannot be tried again, and a plain run executes the others
  (`MigrateHistory.InstallCanBeRetriedIff`, `MigrateHistory.StoppedInstallThenPlainRun`). Its dry run announces the
  seeds as migrations to apply (`MigrateHistory.DryRunTellsTheTruthIff`).
- A replay is never, byte for byte, what `writeJSON` sent the first time: that ends in a line break, which the `jsonb`
  column does not keep (`Idempotency.WriteJSONIsNeverReplayedAsSent`, and `Idempotency.ResolvedForOne` for the answer
  `{"status":"resolved"}`). When a handler's answer is replayed as it was sent: `Idempotency.ReplayIsTheFirstAnswerIff`.
- A client of the event stream without a cursor, cut off before its first event, starts anew from the newest one and
  never has what was appended meanwhile (`Stream.OneEventIsLost`). When exactly it misses nothing: `Stream.MissedIff`.
- A single pass (`-once`) may return with a job claimed and not reported (`Dispatch.OnceMayLeaveAJobUnreported`).
- `StateFor` with no current digest unlocks whatever was approved (`Approvals.UnlockedIff`).

One thing the stream does not survive, although nothing shown here puts it into the table: an event whose time lies
outside the years 0 to 9999 cannot be encoded and is skipped, and a whole page of them stops the stream for good
(`Stream.StuckForGood`, `Stream.APageMayStick`).

## Model

| member | source | states |
|---|---|---|
| Text.LabelsSurviveJoiningIffCommaFree | internal/beads/beads.go:293-295 | labels sent comma-joined arrive as the same set exactly when none holds a comma |
| Text.PiecesOfJoined | internal/beads/beads.go:293-295 | joined and then split, or each split by itself, labels come to the same pieces |
| Text.TrimTakesSpaceOff | cmd/dispatcher/filing.go:58 | trimming takes space off both ends, and all of it |
| Beads.CreateFlags | internal/beads/beads.go:277-304 | obeyed flag by flag, the create command line makes exactly the bead asked for: no status, labels split at commas |
| Beads.UpdateFlags | internal/beads/beads.go:345-392 | obeyed flag by flag, the update command line changes exactly what is set and adds labels; it is empty exactly when nothing is set |
| Beads.Client.ByExternalRef | internal/beads/beads.go:223-244 | the first bead in list order that holds the key, closed ones included, or none; a blank key is refused |
| Beads.Client.Create | internal/beads/beads.go:272-321 | one new bead and its id, or an error after which the graph is unchanged or has just that bead |
| Beads.Client.UpdateIn | internal/beads/beads.go:340-396 | exactly one bead revised; an unknown id, a blank id or an empty revision is an error |
| Beads.Client.DependOn | internal/beads/beads.go:449-462 | adds the edge blocked-to-blocker and no other; self edges and unnamed ends are refused |
| Plans.KeyTellsRefsApart | internal/work/filing.go:74-76 | within a project two refs never share a key |
| Plans.ProjectsShareKeysIff | internal/work/filing.go:70-76 | when exactly two projects can claim one bead by refs that may be filed |
| Plans.Check | internal/work/filing.go:100-142 | which problems are reported of an entry, and that none is exactly when it is in order |
| Plans.Validate | internal/work/filing.go:84-149 | a plan has no problems exactly when it names a project, has entries, repeats no trimmed ref, and every entry is in order |
| Plans.FileableIff | internal/work/filing.go:84-149 | such a plan in full: a project, entries, refs that differ when trimmed, every entry in order |
| Plans.EntryOkIff | internal/work/filing.go:100-142 | such an entry in full: a ref, an id of bd's shape or a title, a priority from 0 to 4, and dependencies on refs or ids, none on itself |
| Plans.LooksLikeBeadIdIff | internal/work/filing.go:152-155 | bd's shape: something without a dash, a dash, something without blanks |
| Holders.KeepsItsKey | cmd/dispatcher/filing.go:88-105 | a bead filed by key is found by that key ever after, unless an entry by id takes it |
| Holders.SecondPassFindsTheSame | cmd/dispatcher/filing.go:88-105 | a second pass lands every entry where the first did, and adds no bead |
| Holders.SecondPassMissesTheStolen | cmd/dispatcher/filing.go:74-85 | a second pass lands elsewhere with the key of a bead that was taken by id |
| Holders.Undisturbed | cmd/dispatcher/filing.go:55-106 | entries that do not touch each other's beads land where each would alone |
| Holders.FilingByKeyAddsNoDuplicate | internal/beads/beads.go:223-244 | filing gives a key its first holder and never a second |
| Filing.TrailTraces | cmd/dispatcher/filing.go:55-106 | pass one is a sequence of legal moves on the table of external references |
| Filing.OldBead | cmd/dispatcher/filing.go:74-97 | a bead that was there ends as itself revised once by all that was asked of it |
| Filing.NewBead | cmd/dispatcher/filing.go:98-105 | a created bead ends as it was created, unless a later entry takes it |
| Filing.TakenByOne | cmd/dispatcher/filing.go:55-106 | no two entries land on one bead when the earlier was filed by key and none is taken |
| FilingLaws.SecondFiling | cmd/dispatcher/filing.go:55-106 | filing a plan again succeeds, entry by entry, on the same beads, creating none |
| FilingLaws.SecondFilingIsThatOne | cmd/dispatcher/filing.go:55-106 | however the second filing comes about, it lands every entry where the first did |
| FilingLaws.SameBeadsIffNoTheft | cmd/dispatcher/filing.go:74-85 | the second filing finds the beads of the first exactly when no entry by id took one filed by key |
| FilingLaws.FreshIsFinalIff | internal/beads/beads.go:272-304 | revising a bead by what it was created from changes nothing exactly when that has no status of its own and, unless bd splits added labels too, no comma in a label |
| FilingLaws.SettledAtOnceIff | cmd/dispatcher/filing.go:55-106 | the graph is final after one filing exactly when every created bead's entry was plain in that sense |
| FilingLaws.SettledAfterTwo | internal/beads/beads.go:340-396 | three filings leave what two left, whatever statuses and labels the plan carries |
| Theft.HolderIff | cmd/dispatcher/filing.go:74-105 | when its turn comes, a bead holds an entry's key exactly when it did at the start and no entry by id wrote on it |
| Theft.FindsIff | cmd/dispatcher/filing.go:88-97 | which bead an entry will find can be told from the graph before the filing |
| Theft.NoTheftIff | cmd/dispatcher/filing.go:74-97 | no bead is taken exactly when no entry names by id the bead an earlier one finds |
| Theft.FiledAgainAsTheSameIff | cmd/dispatcher/filing.go:74-105 | so whether a plan files to the same beads a second time can be told beforehand |
| Theft.StolenBeadIsFiledTwice | cmd/dispatcher/filing.go:66-85 | a plan that may be filed, and the graph its first entry has left, where the first filing takes that bead and the second creates another |
| Recovery.CaughtUpIff | cmd/dispatcher/filing.go:55-106 | filing again after a death at entry k has caught up after k entries exactly when those that had created were plain |
| Recovery.GetsThroughAfterACrash | cmd/dispatcher/filing.go:55-106 | filed again after dying at any entry, a plan gets through to its end, and lands every entry where the undisturbed filing does |
| Recovery.RefilingRecovers | cmd/dispatcher/filing.go:88-106 | filing again after dying anywhere, an unanswered create included, gets through and ends in the graph of the filing that never died |
| Recovery.RefilingRecoversIff | cmd/dispatcher/filing.go:88-106 | it gets through in any case, and ends in that graph exactly when every entry that had created its bead was plain |
| Reordering.EachEntryHasItsEffect | cmd/dispatcher/filing.go:55-106 | in a plan whose entries keep off each other's beads, each has the effect it would have alone |
| Reordering.OtherBeadsUntouched | cmd/dispatcher/filing.go:55-106 | beads no entry is for are left as they were |
| Reordering.OrderDoesNotMatter | cmd/dispatcher/filing.go:55-106 | in every order each ref's bead says the same, and is the same bead if it was there before |
| Cycles.ScheduledMeansAcyclic | internal/beads/beads.go:464-470 | a graph with an order of work has no cycle |
| Cycles.FindCycle | internal/beads/beads.go:477-497 | what bd's answer is taken to say: empty exactly when there is no cycle, and then there is an order of work; otherwise a cycle of the graph |
| FilePlan.FileEntry | cmd/dispatcher/filing.go:74-105 | one entry: the bead by id, else the one found by key, else a new one; the id and whether it is new |
| FilePlan.PassOne | cmd/dispatcher/filing.go:55-106 | the beads of all entries in order, the map from refs to ids, and the report; or an error after a prefix of them |
| FilePlan.DependencyDeclared | cmd/dispatcher/filing.go:109-119 | every dependency of the plan is wired from the blocked bead to its blocker |
| FilePlan.DeclaredByDependency | cmd/dispatcher/filing.go:109-119 | nothing but dependencies of the plan is wired |
| FilePlan.EdgesIgnoreOrder | cmd/dispatcher/filing.go:109-126 | for one map from refs to ids, permuting the entries declares the same edges |
| PlanOrder.EdgeBetweenRefsIff | cmd/dispatcher/filing.go:109-119 | between the beads of two refs an edge is declared exactly by a dependency on the ref, or on the bead's id where that is no ref; never from a bead to itself |
| PlanOrder.IdsAreAsPlanned | cmd/dispatcher/filing.go:88-105 | which id each ref's bead gets can be told from the graph before the filing |
| PlanOrder.AgreeIff | cmd/dispatcher/filing.go:55-127 | filed in two orders, a plan has the same edge between two refs exactly unless one names the other's bead by an id it gets in only one of them |
| PlanOrder.SameEdgesIff | cmd/dispatcher/filing.go:55-127 | so both orders wire the same graph, read by refs, exactly when no dependency does that |
| PlanOrder.SameEdgesBetweenRefs | cmd/dispatcher/filing.go:111-118 | in particular when no dependency that is not a ref names an id yet to be minted |
| PlanOrder.SameEdgesOutside | cmd/dispatcher/filing.go:111-118 | edges to beads the plan is not about are the same in every order |
| PlanOrder.OrderMayMatter | cmd/dispatcher/filing.go:111-118 | two filings of one plan that may be filed, in two orders, into an empty graph, that wire different edges |
| FilePlan.PassTwo | cmd/dispatcher/filing.go:109-127 | old edges stay, and exactly the declared ones are added, each that bd refuses being passed over |
| FilePlan.Wire | cmd/dispatcher/filing.go:109-140 | an answer without a cycle means the whole graph has an order of work; an answer with one shows a cycle |
| FilePlan.Fileplan | cmd/dispatcher/filing.go:23-146 | refused before anything is written exactly when the plan has problems; otherwise pass one taken as far as it goes, its report, the edges and the verdict |
| Contents.EveryEntryIsFiledWell | cmd/dispatcher/filing.go:55-106 | where entries keep off each other's beads, every entry is answered with its ref and its bead: a new one says what the entry does, with bd's kind and priority where it says none, and carries the project's label; an old one says what the entry sets and keeps the rest, and one named by id gets the entry's labels only |
| Contents.EveryOtherBeadStays | cmd/dispatcher/filing.go:55-106 | and every other bead stays as it was |
| Contents.FileAndTell | cmd/dispatcher/filing.go:23-146 | the same of a call of `fileplan` |
| Contents.OnItsProjectsPage | cmd/dispatcher/filing.go:49-51 | a new bead has the label of its project, if the project's name has no comma |
| FilePlan.DependencyReachesItsBeadIff | cmd/dispatcher/filing.go:111-118 | a dependency on an entry reaches its bead exactly when that entry's ref has no blanks around it |
| FilePlanLaws.RefilingAPlan | cmd/dispatcher/filing.go:119-123 | filing a plan again creates no bead, gives the same ids, adds no edge; the graph is unchanged exactly when what was created was plain |
| FilePlanLaws.RefilingAfterACrash | cmd/dispatcher/filing.go:88-126 | filing again after a crash anywhere, in either pass, is answered, with the beads, ids and edges of the filing that never crashed; the graphs are one exactly when what had been created was plain |
| Refiling.GetsThroughAgain | cmd/dispatcher/filing.go:74-105 | an entry that was filed once is filed again: no step of a second filing can fail |
| Refiling.CalmMeansAnswered | cmd/dispatcher/filing.go:55-106 | when bd answers, a plan that may be filed and names no unknown id is answered |
| Refiling.AnsweredMeansKnown | cmd/dispatcher/filing.go:74-85 | and whatever is answered named no id but of a bead that was there or that the filing minted |
| Refiling.CanBeFiledWhole | cmd/dispatcher/filing.go:55-106 | there is a whole filing of any such plan, with its map and its report |
| Refiling.FileTwice | cmd/dispatcher/filing.go:23-146 | called twice when bd answers, `fileplan` answers twice if every id of the plan is known; if no entry takes a bead from another, the second report names the same beads and none created, no bead or edge is added, and nothing is touched exactly when what the first report calls created was plain |
| Refiling.FileAfterACrash | cmd/dispatcher/filing.go:23-146 | `fileplan` called in any weather, its node's death included, and then again when bd answers: the second call answers, with the beads and edges of an undisturbed filing, and in its very graph exactly when what the first had created was plain |
| JobRun.Node.Check | cmd/dispatcher/main.go:2217-2243 | the repository's check runs only for a work job that has one |
| JobRun.Node.RunAgent | cmd/dispatcher/main.go:419-443 | one run and check, and one more of each exactly when the check failed a run that did not |
| JobRun.Node.Finish | cmd/dispatcher/main.go:445-498 | labels, landing, cache, worktree, and last the one report |
| JobRun.Node.RunClaimed | cmd/dispatcher/main.go:321-504 | all four ways out of a job, each the rest of the step machine |
| JobRun.EveryJobReportsOnce | cmd/dispatcher/main.go:321-504 | every job makes exactly one report, last, after at most two agent runs and two checks |
| JobRun.ReportedAsDoneIff | cmd/dispatcher/main.go:420-498 | a job is reported as done exactly when it could run, its rig was there and its last agent run did not fail |
| JobRun.LandsBeforeReporting | cmd/dispatcher/main.go:464-498 | a work job's changes are landed and cached before it is reported, whether or not its run failed |
| JobScript.OneRunInFull | cmd/dispatcher/main.go:321-504 | all a work job does, in order, when its check passes, is none or follows a failed run: the agent, the check, labels, landing with that verdict, cache, worktree, report |
| JobScript.TwoRunsInFull | cmd/dispatcher/main.go:419-443 | and when the check fails a good run: the agent once more, given the feedback, and the check once more |
| JobScript.RunsAndChecks | cmd/dispatcher/main.go:419-443 | the agent runs once, or twice in that case, is checked as often if there is a check, and always before anything is landed |
| JobScript.FileJobInFull | cmd/dispatcher/main.go:388-401 | a file job files its plan, reports what came of it, and does nothing else |
| JobScript.NoRigInFull | cmd/dispatcher/main.go:336-344 | a job without its repository does nothing but say so |
| JobScript.UnrunnableInFull | internal/work/work.go:74-91 | nor does one of another kind, or without its bead, plan or cell |
| Dispatch.SlotsStayAccounted | cmd/dispatcher/main.go:285-311 | tokens in the semaphore are the workers inside and the one a claim holds, never more than there are |
| Dispatch.JobsStayApart | cmd/dispatcher/main.go:279-284 | no job, told by its id, is ever with two workers, or with a worker and in the queue |
| Dispatch.InvariantAlways | cmd/dispatcher/main.go:99-145 | both hold in every interleaving of passes, claims, workers and shutdown |
| Dispatch.NeverTooManyNorTwice | cmd/dispatcher/main.go:279-311 | at no time do more than the maximum run, nor is one id run twice |
| Dispatch.NoSlotLeaks | cmd/dispatcher/main.go:286-310 | with no worker inside and no claim out, every slot is free |
| Dispatch.EveryWorkerReportsOnce | cmd/dispatcher/main.go:305-310 | in every interleaving a worker that is through has made exactly one report, after at most two runs and two checks |
| Dispatch.EveryWorkerRunsItsJob | cmd/dispatcher/main.go:305-310 | however workers are interleaved, one that is through has done exactly what its job does by itself |
| Dispatch.ExitLeavesNothingUnreported | cmd/dispatcher/main.go:130-140 | when the daemon returns, stopped or not, no launched job is without its report |
| Dispatch.DrainsOnlyWhenStopped | cmd/dispatcher/main.go:128-140 | a daemon that waits for its workers or has returned was told to stop; a single pass never waits |
| Dispatch.RowsAreConserved | cmd/dispatcher/main.go:279-311 | a row that was ever queued is queued, with a worker, or lost to a claim whose answer never came |
| Dispatch.OnceMayLeaveAJobUnreported | cmd/dispatcher/main.go:110-113 | with -once it may be: a run of four steps |
| Dispatch.OnceFinishesItsPass | cmd/dispatcher/main.go:110-113 | with -once nothing returns before its pass has filled every slot or come away from a claim with nothing |
| Dispatch.DrainingOnlyShrinks | cmd/dispatcher/main.go:133-140 | while main waits no work is added, and every worker's step leaves less |
| Dispatch.DrainingNeverSticks | cmd/dispatcher/main.go:138-140 | and some step is always possible, so the wait ends |
| Dispatch.WorkLoop.Pass | cmd/dispatcher/main.go:285-312 | a pass launches the answered jobs in order until slots or answers run out, gives back the slot it did not use, and changes nothing else |
| Results.ReportsTheAccount | cmd/dispatcher/main.go:420-498 | the report carries the first run's output, the second's under its heading if there was one, and the note about a shutdown |
| Results.StoredWholeIff | db/migrations/0035_work_queue.sql:86-102 | the job row stores that whole exactly when together it fits |
| Results.OneRunIsStoredWhole | cmd/dispatcher/transcript.go:119-152 | the account of one run that ended by itself is always stored whole |
| Results.TwoRunsMayBeCut | cmd/dispatcher/main.go:436-443 | two accounts of 2000 bytes lose the end of the second |
| Stall.Watch | cmd/dispatcher/main.go:796-862 | a run is stopped at the first tick that finds it stalled, and not at all if none does |
| Stall.StoppedOnlyWhenStill | cmd/dispatcher/main.go:829-859 | then every sample over a span of at least the limit found the same mark |
| Stall.FrozenIsStopped | cmd/dispatcher/main.go:796-859 | a run whose mark freezes is stopped within the limit and two gaps, unless it ends first |
| Approvals.Store.DecideOn | internal/approvals/approvals.go:82-182 | a decision is recorded exactly when its request is there, pending and in time, its user was shown that digest or none, is not the requester and has not voted, and a rejection has a reason; what is then recorded; and otherwise that nothing changes |
| Approvals.RefusalsInOrder | internal/approvals/approvals.go:82-150 | which refusal is given, each exactly for its own reason once those before it do not apply |
| Approvals.Store.StateFor | internal/approvals/approvals.go:190-230 | the gate, from status, expiry, count and digest |
| Approvals.ReasonsInOrder | internal/approvals/approvals.go:208-226 | why an action is not unlocked, in the order of the switch |
| Approvals.Store.InvalidateFor | internal/approvals/approvals.go:237-258 | only open requests whose action changed are voided |
| Approvals.ValidAlways | internal/approvals/approvals.go:95-182 | in every run, status and votes agree, no requester votes, and every vote is for the request's digest inside its window |
| Approvals.VotesAreOfTheDigestSeen | internal/approvals/approvals.go:133-144 | over any run every vote was cast by a decision of it, whose user was shown the digest the vote is for, or none |
| Approvals.ApprovalsAreUsers | db/migrations/0004_attention.sql:44-58 | the count of approvals is a count of different users |
| Approvals.UnlockedMeansApproved | internal/approvals/approvals.go:190-230 | whatever is unlocked was approved by enough different users, none the requester, for that digest, in time, with nobody against |
| Approvals.UnlockedIff | internal/approvals/approvals.go:208-226 | when exactly an action is unlocked |
| Approvals.ApprovedIff | internal/approvals/approvals.go:166-180 | a request nobody rejected or voided is approved exactly when it has max(1, required) approvals |
| Approvals.OnlyForward | internal/approvals/approvals.go:117-179 | over any continuation a status only moves pending to any, approved to invalidated, and what was asked for never changes |
| Approvals.ClosedForGood | internal/approvals/approvals.go:208-213 | once rejected or invalidated, never unlocked again |
| Approvals.ChangedActionNeverUnlocks | internal/approvals/approvals.go:218-220 | asked about another action, never unlocked, in any continuation |
| LogWalk.LogsSince | cmd/costimport/gateway.go:47-109 | a walk holds the rows of the pages as they stood when asked for, and uses up of what happens to the log just what surrounds its requests; a completed one holds every row newer than the limit that was there from start to end; it fails exactly at a request not answered, and stays within the cap and a page |
| LogWalk.AnsweredWalksDoNotFail | cmd/costimport/gateway.go:47-109 | a walk all of whose requests are answered does not fail |
| LogWalk.PageRead | cmd/costimport/gateway.go:52-107 | inserts only push rows to later pages, so reading a page leaves none behind |
| LogWalk.OldRowIsTheEnd | cmd/costimport/gateway.go:97-104 | a row as old as the limit means all newer ones have been read |
| LogWalk.RowRemovedInFrontIsASkip | cmd/costimport/gateway.go:52-107 | were a row removed in front of the reader, one would be on no page |
| CostImport.RecordedMeans | db/migrations/0029_per_bead_budgets.sql:112-120 | recording rows touches no old record and adds exactly the mappable ids |
| CostImport.RecordedInFull | cmd/costimport/main.go:165-194 | just the rows with an id and a time are there, each under its id, and each record says its row's time and the rest |
| CostImport.Importer.Write | cmd/costimport/main.go:165-194 | every row is counted once as imported, duplicate or skipped, and imported is by how many the store has grown |
| CostImport.Importer.ImportOne | cmd/costimport/main.go:146-219 | one pass: its window, from the watermark less the overlap or from now less the backfill; its walk of the log, its counters, its store, and the run it records |
| CostImport.ImportingAgainImportsNothing | cmd/costimport/main.go:176-193 | rows recorded once are imported by no later pass |
| CostImport.RecordedInParts | cmd/costimport/main.go:159-162 | a partial import and the rest of it come to the same store as one |
| CostImport.OrderMakesNoDifference | cmd/costimport/main.go:165-194 | in which order rows are recorded, and how often each, makes no difference to the store |
| CostImport.CompletePassCatchesUpIff | cmd/costimport/main.go:153-159 | a complete pass adds, of the rows there throughout, exactly those newer than its window's start |
| CostImport.WatermarkOnlyRises | db/migrations/0025_usage_import_system_path.sql:82-89 | the watermark never falls |
| CostImport.LeftBehindForGood | cmd/costimport/main.go:125-129 | a row left unread behind the overlap is read by no number of later passes |
| CostImport.WatermarkAfterAPass | db/migrations/0025_usage_import_system_path.sql:82-89 | after a pass that read the newest row first, the watermark is that row's time or a later one it had before |
| CostImport.CappedImportCatchesUpIff | cmd/costimport/main.go:125-159 | after a capped pass and a complete one from the watermark it left, a row is recorded exactly when it was within the cap or within the overlap behind the newest time recorded |
| DepsCache.Rig.Save | cmd/dispatcher/deps.go:95-134 | every state the disk goes through, whatever fails or dies: the cache is absent, the old tree or the run's; the old one is kept until the new one is in place; a save that works leaves its tree and nothing else |
| DepsCache.Rig.Swap | cmd/dispatcher/deps.go:114-131 | the same of the two renames |
| DepsCache.SwappingKeeps | cmd/dispatcher/deps.go:114-131 | the two renames show the cache as it was, not at all, or as staged, and never lose the old tree before the new one is in place |
| DepsCache.SavingKeeps | cmd/dispatcher/deps.go:95-134 | so does a whole save, unless its copy went into what an earlier one left |
| DepsCache.FailedSaveCleansUp | cmd/dispatcher/deps.go:103-129 | a save that fails, without dying, leaves nothing staged if its clean-up works |
| DepsCache.UnseenCacheStays | cmd/dispatcher/deps.go:117-129 | a save that cannot see the cache leaves it in place |
| DepsCache.Rig.Warm | cmd/dispatcher/deps.go:63-88 | a worktree gets the cached tree only if it has none; a copy that fails stays where it stopped |
| DepsCache.Rig.OneRun | cmd/dispatcher/main.go:468-477 | what a run leaves in the cache is what its worktree held, a half warmed tree included |
| DepsCache.Rig.Lifetime | cmd/dispatcher/deps.go:95-134 | over any number of saves, dying or failing anywhere, every state of the disk; whoever looks finds no cache or one whole worktree's tree, as long as no copy went into what an earlier save had left; a save that works mends whatever it meets |
| DepsCache.SavesKeep | cmd/dispatcher/deps.go:95-134 | what one save keeps to, so does any number of them |
| Migrate.Database.Migrate | cmd/migrate/main.go:74-149 | one recorded migration with another checksum stops a run before it does anything, whatever the flags; -verify and a dry run write nothing, and when they succeed; what else a run comes to, cut short or not |
| Migrate.Database.SkipTenantSeeds | cmd/migrate/main.go:166-210 | the seeds recorded without running are those up to the first that cannot be, or to where it died |
| MigrateHistory.NothingRunsTwice | cmd/migrate/main.go:273-289 | over any runs, whatever lists, flags and deaths, no migration runs twice and each that ran is recorded |
| MigrateHistory.RecordsAreFromLists | cmd/migrate/main.go:194-205 | over any runs each record has the checksum its migration had in the list of some run |
| MigrateHistory.EditedListIsRefused | cmd/migrate/main.go:103-110 | after any runs a list with a recorded migration under another checksum is refused and changes nothing |
| MigrateHistory.UneditedListIsNotRefused | cmd/migrate/main.go:103-110 | and a list is not refused for its checksums if no migration was ever edited |
| MigrateHistory.SkippedForGood | cmd/migrate/main.go:119-130 | what was recorded without running never runs |
| MigrateHistory.ExecutedIsABeginning | cmd/migrate/main.go:125-149 | with a list that only grows at its end, what ran is a beginning of it, in order, and exactly that is recorded |
| MigrateHistory.CutShortAndRunAgain | cmd/migrate/main.go:125-149 | a run cut short changes nothing about where the next, run to its end, arrives |
| MigrateHistory.SkippableIff | cmd/migrate/main.go:186-207 | all seeds can be skipped exactly when the manifest names migrations, each once |
| MigrateHistory.InstallRunsAllButTheSeeds | cmd/migrate/main.go:119-149 | an install run to its end executes exactly the other migrations, in order, and records all |
| MigrateHistory.SeedsNeverRun | cmd/migrate/main.go:151-163 | and no later run of any kind executes a seed |
| MigrateHistory.InstalledThenGrown | cmd/migrate/main.go:119-149 | after an install and any plain runs of a list that grows at its end, what ran is a beginning of the list without the seeds, and the record is that and the seeds |
| MigrateHistory.AnyHistory | cmd/migrate/main.go:119-149 | over any runs of a list that grows at its end, installs anywhere among them, cut short anywhere: what ran is a beginning of the list without what was skipped, the record is that and what was skipped, and at most one of them skips anything |
| MigrateHistory.StoppedInstallThenPlainRun | cmd/migrate/main.go:186-207 | after an install that stopped anywhere, a plain run executes exactly what the install had not skipped |
| MigrateHistory.InstallCanBeRetriedIff | cmd/migrate/main.go:169-174 | an install that stopped amid the seeds can be tried again exactly when it had recorded none |
| MigrateHistory.DryRunTellsTheTruthIff | cmd/migrate/main.go:137-141 | a dry run names what a real run executes, unless it is an install |
| Idempotency.Recorder.Serve | cmd/control-api/writes.go:117-132 | the recorder holds the body that was sent, and the last status set rather than the first |
| Idempotency.Server.Lookup | internal/idempotency/idempotency.go:60-92 | a record for the same route and digest, or a conflict, or nothing |
| Idempotency.Server.Handle | cmd/control-api/writes.go:47-115 | when the handler runs, when a replay, a conflict or another error is answered instead; a status outside 200 to 299 records nothing, one inside records it with the body as the column has it |
| Idempotency.Server.Live | cmd/control-api/writes.go:47-115 | a server's life of requests and sweeps: its keys are those of the run, and its successes under a key are those counted of the run |
| Idempotency.SuccessesAccounted | cmd/control-api/writes.go:103-113 | over any run of requests and sweeps, successes under a key are those forgotten and the one on record |
| Idempotency.AtMostOnce | internal/idempotency/idempotency.go:8-19 | if nothing is forgotten, the handler succeeds at most once |
| Idempotency.RetryGetsTheFirstAnswer | cmd/control-api/writes.go:93-99 | the same request later does not run and is answered with the recorded status and body |
| Idempotency.OneStatusIff | cmd/control-api/writes.go:117-127 | the recorder remembers the status that went out exactly when the last one set is the first |
| Json.PrintedAlikeIff | db/migrations/0042_idempotency.sql:34-37 | Go's encoder and the column print a value alike exactly when it has nothing to separate |
| Idempotency.WriteJSONIsNeverReplayedAsSent | cmd/control-api/main.go:2491-2496 | no answer given through writeJSON is ever replayed as it was sent, whatever it said |
| Idempotency.WriteJSONIsReplayedSpaced | cmd/control-api/main.go:2491-2496 | it is replayed with its status, and its value as the column prints it |
| Idempotency.ResolvedForOne | cmd/control-api/writes.go:204 | the answer to resolving an item is such a value, and is printed otherwise by the column |
| Idempotency.ReplayIsTheFirstAnswerIff | cmd/control-api/writes.go:91-113 | a JSON answer is replayed as it was sent exactly when the handler set one status, wrote no line break after the value, and the value has nothing to separate |
| Idempotency.FailuresNeverBlock | cmd/control-api/writes.go:44-46 | a request that did not run, or whose handler last set a status below 200 or above 299, might as well not have been made, and runs again |
| Stream.Client.Follow | cmd/control-api/stream.go:77-165 | a connection comes to exactly what its turns bring; over any number of them the events received are, in order, all that can be sent between the start and the last id; uneventful ticks bring the client as far as that many ticks can |
| Stream.Client.WritePage | cmd/control-api/stream.go:138-161 | of a page exactly what can be sent arrives, in order, up to where the line breaks, and the cursor is the last of it |
| Stream.Reaches | internal/events/events.go:78-84 | reading on from a cursor lengthens what was read by exactly the page's beginning |
| Stream.StuckForGood | cmd/control-api/stream.go:151-160 | before a whole page of events that cannot be encoded the stream stands still, whatever is appended |
| Stream.APageMayStick | db/migrations/0001_core.sql:246-261 | events of one year begin with such a page exactly if there are at least a hundred and the year lies outside 0 to 9999 |
| Stream.TicksCatchUpOrStick | cmd/control-api/stream.go:138-161 | enough ticks send everything that can be sent, or end there |
| Stream.Client.FollowTwice | cmd/control-api/stream.go:101-108 | two connections and what is appended between them: what is missed lies between their starts, is never received, is nothing if an event arrived on the first, and otherwise when exactly it is nothing |
| Stream.MissedIff | cmd/control-api/stream.go:101-108 | nothing is missed exactly if the client asks for its place, or is not told the newest event the second time, or nothing that can be sent was appended since it was told the first time |
| Stream.OneEventIsLost | cmd/control-api/stream.go:101-108 | a client of an empty log that asks for no place connects, an event is appended, it connects again: it never receives that event, whatever the second connection brings |
| Transcript.ClippedSaysWhatIsGone | cmd/dispatcher/transcript.go:156-168 | a clipped text says how much is gone, and the rest of it is exactly the rest of the text |
| Transcript.CutIsOnALineIff | cmd/dispatcher/transcript.go:163-166 | it begins on the first line within its room, if a line begins there |
| Transcript.CutSplitsACharacterIff | cmd/dispatcher/transcript.go:163-166 | when exactly it begins inside a character |
| Transcript.ResultIsNeverCut | cmd/dispatcher/transcript.go:119-152 | output and log together never exceed 3998 bytes |
| Transcript.OutputAlone | cmd/dispatcher/transcript.go:135-138 | without a log the output stands whole if it has at most 3900 bytes, and otherwise its end |
| Transcript.InTwoParts | cmd/dispatcher/transcript.go:141-151 | with one, the output is clipped to 1933 bytes, and the log to what that leaves of 3866, or 1933 |
| Transcript.WorstCase | cmd/dispatcher/transcript.go:135-168 | and reach it |
| Transcript.BothWhole | cmd/dispatcher/transcript.go:142-151 | output, heading and log stand there whole, in that order, when the output fits its half and the log what is left |
| Transcript.LogTakesWhatIsLeft | cmd/dispatcher/transcript.go:145-151 | an output that fits its half stands whole, before as much of the end of the log as is left room for |
| Transcript.OutputBeyondItsHalfIsDropped | cmd/dispatcher/transcript.go:143-151 | output beyond its half is dropped, and said to be, however short the log |
| TextArray.BeadLabels | cmd/control-api/projects.go:303-319 | NULL for an empty list, otherwise a literal that reads back as the list |
| TextArray.WorkTextArray | cmd/work/main.go:453-468 | the second copy, the same |
| TextArray.ReadUndoesLiteral | cmd/control-api/projects.go:303-319 | whatever quotes, backslashes, commas, braces or empty strings a list holds, PostgreSQL reads it back (section 8.15.6 of the PostgreSQL documentation) |
| TextArray.LiteralIsInjective | cmd/work/main.go:453-468 | two lists have one literal only if they are one list |

## Left out

- The inside of `bd`: how it mints ids (any function without repeats), that `bd list` keeps its order and appends new beads, that a new bead starts `open`, which edges it refuses beyond those `DependOn` refuses (any, by choice of the outside).
- How bd reads `--labels` (apart at commas, and nothing else done to the pieces); how it reads `--add-label` is left open.
- Cycles.FindCycle: takes `bd`'s own search for cycles to be right: it stands for what `bd dep cycles` answers, whose parsing the cited lines are.
- Other writers of the bead graph during a filing, and beads of more than one database.
- Contents.EveryEntryIsFiledWell: plans whose entries are for one bead between them; what becomes of that is in `Filing.OldBead` and `Theft`.
- JobScript.UnrunnableInFull: the text of the error that is reported, and that of `NoRigInFull`.
- Reordering.OrderDoesNotMatter: plans whose entries name by id a bead that another entry is for; there the order does matter.
- Recovery.RefilingRecovers: plans that take a bead by id from an entry that had filed it by key; `Theft` says which they are.
- `fileLoop`, which is outside the wait group, and claims of file jobs; a file job's own steps are in `JobRun`.
- A report whose call fails leaves its row running: reports are counted as attempts.
- Rows claimed by a call whose answer is lost stay claimed (`lost` in `Dispatch`); no run reports them.
- Worktrees, landing, labels and heartbeats appear as single effects; what git does in them is not modelled.
- Results.OneRunIsStoredWhole: takes each byte of a clipped text for a character of the column; a text has at most as many characters as bytes.
- A run stopped as stalled reports its output unclipped; `Results.StoredWholeIff` covers it by its length, and the limit of the endpoint's request body is not modelled.
- The absolute deadline of a run, process groups and signals.
- Approvals.Store.DecideOn: takes each transaction as atomic; two decisions inside one another are not modelled.
- Role requirements of an approval, and row-level security beyond visible or not.
- LogWalk.LogsSince: rows leave the log only at its old end, and the log stays newest-first where its times can be read.
- CostImport.Importer.ImportOne: takes the watermark as the answer of its query; a query that fails ends the pass before it begins.
- Attribution, cents and the other columns of a usage record.
- DepsCache.Rig.Lifetime: one saver at a time; files edited in place through a hard link, and which directories hold a `package.json`, are not modelled.
- Migrate.Database.Apply: a migration and its record are one step, as its comment means them to be.
- Sorting the migration files and hashing them; the list is given, and its names do not repeat.
- Idempotency.ReplayIsTheFirstAnswerIff: of values whose texts neither printer escapes and whose keys stand in the order the column keeps; of any other, `WriteJSONIsNeverReplayedAsSent` still says what writeJSON comes to.
- Informational (1xx) statuses, which would not be the one that goes out.
- Concurrent requests with one idempotency key, which the code does not serialise, and SHA-256 collisions.
- Stream.Client.Follow: ids grow in the order events become visible; an event committed late under a smaller id is missed by a stream already past it.
- Reconnect delays, keep-alives and the event format on the wire.
- Finding and reading the agent's log; `strings.TrimSpace` on bytes is any function in `Transcript`.
- Multi-dimensional and unquoted array literals beyond what reading a one-dimensional one needs.
- HTTP handlers, authentication, budgets, routing, the interface and the scripts: short case analyses and plumbing.
