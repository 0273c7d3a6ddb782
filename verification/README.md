# Verified model of the job pipeline

This project models, in Dafny, the parts of the job-notification service that are hard to get right:
two concurrent protocols and six sequential cores. `dafny verify dfyconfig.toml` checks all of it.

## What is modelled

**The Telegram channel protocol** (`ChannelProtocol`, `ChannelSafety`, `ChannelDurability`, `ChannelRuntime`,
`ChannelControl`, `ChannelWitnesses`). One channel has a durable watermark, a lock, a recovery barrier (`recovery_blocked`), a failure generation, a wake event
and a retry watcher. Startup recovery, live handlers, capped passes, failures, retries, process death and
reconnects interleave freely. The model is a step machine whose events are the code between two awaits;
everything from releasing the lock to the next await is one step, as asyncio makes it. A run is any list
of events. The recovery pass itself is written as the loop it is, in class `Channel`, and is shown to be
a run of the machine.

**Poll mode** (`PollSource`). Polling, the in-flight queues and `mark_seen`, with the worker's cycle.

**The durable job** (`JobLifecycle` and the other `Job` modules). One row of the jobs table, its guard log
and its stream of events, with any number of callers in any number of processes: source workers running
`process_job`, the classification sweep re-entering it, and the notification sweep. Every repository call
and every call to the outside is one atomic step; a caller may die between any two. A sweep starts on a
row its query returns, and may then be as slow as it likes. An event carries the category of a fresh read.
`selection` is the column "Category Selection Method". The conditional updates and the uninterrupted
resumption are methods of class `JobRecord`, and the resumption is shown to compute what the machine computes, with whatever
verdicts other callers log while it waits. `JobClassification` says what one uninterrupted `process_job`
makes of a new job, of one delivered again and of one swept up, to the event it sends.

**The deterministic classifier** (`Normalizer`, `KeywordMatcher`, `CategoryFilter`, `Selection`). Text
normalisation, longest-first masked matching, the decision table, and scored selection. What `\w`, `\s`
and `lower()` say of a character is the parameter `Alphabet`; the character ranges, the letter map and the
separators that the code spells out are concrete. Scores are five times the code's, so that they are whole
numbers.

**FreeHub discovery** (`FreeHub`, `FreeHubBacklog`), **LLM candidate rotation** (`Rotation`),
**cross-source ownership** (`Ownership`) and **the crash-safe state file** (`DurableState`).

## Premises

- Telegram: the first watermark is not 0; live handlers get the lock in arrival order (the `get_chat`
  await at `app/adapters/sources/telegram.py:953` comes before the lock and could reorder them); the error
  log does not raise while a live failure is being handled. `WellBehaved` and `Initial` state them; the
  lemmas `CommitSafeIff`, `LostFailureHarmlessIff` and `SafeIffWatermarkNonZero` say exactly what each is
  worth, and `ReorderedHandlersSkip`, `LostFailureSkips` and
  `ZeroWatermarkSkips` show a failing run for each. Disconnecting the client ends its handlers.
  The barrier and watcher results of `ChannelControl` need none of these, except where they say so.
- `ChannelDurability` assumes that no write of the watermark is lost (`WriteLost`) and, for
  `CommittedIsNotFetched`, the arrival order.
- Job: the outcomes of `JobClassification` are one caller's, nobody else writing, except `UnwonIsNeverTaken`,
  which is about every run. `NoStrandedJob` assumes one source caller at a time and no death in the window
  described below. `OneVerdictPerJob` and `SendsVerdictIff` assume time bounds, and `ReturnedJobCanFinish` all of these and
  that no classification outlasts its claim. `PublishedAtMostOnce` is about resumptions alone, none of them
  dying, under one process's lock. The other results assume nothing about callers.
- Classifier: keywords do not normalise to nothing; `Alphabet.Valid` lists what is taken from the Unicode
  tables (whitespace is neither word nor Latin nor Arabic, `lower()` and the letter map together are
  idempotent).
- FreeHub: every project has an id, which may be empty; stored ids fit the window.
- Rotation: time passes only while a provider is called. Ownership: the clock does not go back.
- State file: `os.replace` is atomic.

## Findings

Where the code does not do what its documentation says, the model follows the code.

1. **Handlers that reorder.** A live message may write its id while an older handler still waits for the
   lock with unfinished work; a restart then loses the older message. `CommitSafeIff` gives the exact
   condition, `ReorderedHandlersSkip` a run in which nothing else goes wrong.
2. **A swallowed failure.** If `logger.log_error` raises inside the live handler's `except`, the barrier is
   never raised (`app/adapters/sources/telegram.py:627-639`). `LostFailureHarmlessIff`, `LostFailureSkips`.
3. **Watermark 0.** A channel tracked while empty has watermark 0; when its first message fails, the retry
   pass seeds the watermark past it. `SafeIffWatermarkNonZero`; from the seed on, `SafeFromTheSeed`.
4. **A dead watcher.** The documentation says a retry pass that raises never kills its watcher
   (`app/adapters/sources/telegram.py:689-691`). It does when logging it raises too: `WatcherDiesIff`, and from
   any start a run to it, `WatcherCanDie`. With the barrier up, the channel can come back within its
   connection if and only if the watcher is alive: `RecoversIffWatcherLives`.
5. **The window.** A caller that dies between the final decision and setting the notification status
   (`app/services/job_processor.py:884-892`) on a sweep re-entry strands the row: no sweep ever touches it again.
   `SweepDeathStrands`; `FinishesIff` says exactly which jobs the sweeps can still bring to an end,
   `LoneWindowDeathIff` when such a death strands the job.
6. **The guard lease.** The 90 seconds count from before the claim, so one verdict per job needs the time
   from computing the lease to logging the verdict, plus the time from reading no verdict to the claim, to
   stay below 90. `OneVerdictIff`. The configured 60-second call timeout leaves 30 seconds for the rest;
   nothing rejects a configured timeout that leaves none.
7. **The losing waiter.** A caller that finds the verdict while waiting for another's claim returns without
   the durable reclassification (`app/notification_guard/integration.py:175-177`), and the event is built from a
   fresh read of the row. It carries the verdict's category if and only if the caller's own view already had
   it or somebody wrote it down in between: `SendsVerdictIff`. `WaiterKeepsItsCategory` is the case in which
   nobody did.
8. **A cut title.** The 2000-character cap can cut a title in the middle of a word, so that the title reads
   as a core negative that the text does not hold, and the posting is still notified directly.
   `CutTitleReadsNegative`; `TitleSafeIff` says for exactly which postings no profile can be caught by this.
9. **The forgotten continuation.** After a capped FreeHub backfill, the next poll goes on from the stored page
   only while page 1 still shows something unprocessed; otherwise the continuation is dropped.
   `BackfillGoesOnIff`. A crash between the cursor write and the pending write of a poll that meets the cap
   skips its pages. `CutRepeatsIffUncapped`, `CappedCutSkips`.
10. **Migrated claims.** Project ids carried over from the old list format are refused to every named job
    until a whole window after the first claim of any project. `MigratedGrantedIff`.
11. **A deleted state file.** A missing main file is taken for a first start: the backup is not read, and is
    overwritten. `FaithfulIffNotDeleted`, `BackupSurvivesIff`.
12. **A late error.** A caller whose arbitration outlasts its claim records its failure unconditionally
    (`app/services/job_processor.py:766-779`). That write strands the job if and only if the notification has
    been started meanwhile and the guard has left no verdict: the row keeps its started notification, both
    sweeps match it and neither can do anything. `LateErrorIff`; `LateErrorStrands` is a run in which nobody
    dies. When claims outlast the work they cover this cannot happen: `ReturnedJobCanFinish`.

## Model

| member | source | states |
|---|---|---|
| ChannelSafety.SafetyOverAllRuns | app/adapters/sources/telegram.py:482-795 | in every well-behaved run that starts in the invariant, of startup recovery, live handlers, retries, crashes and reconnects in any interleaving, no message between the first watermark and the present or stored one is unprocessed |
| ChannelSafety.NoMessageSkipped | app/adapters/sources/telegram.py:482-558 | the same for every well-behaved run from a fresh process with a non-zero watermark: no such run ends with a skipped message |
| ChannelSafety.StepKeepsInv | app/adapters/sources/telegram.py:591-639 | each of the machine's events keeps the inductive invariant, given only the local guard that its own premise supplies |
| ChannelSafety.StepKeepsOrder | app/adapters/sources/telegram.py:591-615 | handlers that take the lock in arrival order keep every younger message behind the one that runs, which supplies that guard |
| ChannelSafety.CommitSafeIff | app/adapters/sources/telegram.py:595-615 | writing a live message's id leaves nothing skipped if and only if no older waiting handler has unprocessed work |
| ChannelDurability.SavedOverAllRuns | app/services/state.py:216-221 | on every run without a lost write, the stored watermark is the present one in every state, so neither a death nor a disconnect moves it |
| ChannelDurability.CommittedIsNotFetched | app/adapters/sources/telegram.py:595-615 | on every run with handlers in arrival order and no lost write, a message that a live handler committed is in no batch fetched later, in that process or after any restarts |
| ChannelSafety.LostFailureHarmlessIff | app/adapters/sources/telegram.py:627-639 | a live failure whose error log raises keeps all later runs safe if and only if the barrier was already up or the message had been processed |
| ChannelSafety.SafeIffWatermarkNonZero | app/adapters/sources/telegram.py:469-480 | for a channel tracked from its beginning, all runs are safe if and only if the first watermark is not 0 |
| ChannelSafety.ZeroWatermarkSkips | app/adapters/sources/telegram.py:469-480 | the run that shows it: empty startup, first message fails, the retry pass seeds past it |
| ChannelControl.ControlOverAllRuns | app/adapters/sources/telegram.py:716-795 | on every run, with no premise, the watcher is never parked with the barrier up and the wake event unset |
| ChannelControl.BarrierRelease | app/adapters/sources/telegram.py:762-777 | on every run, with no premise, the barrier comes down if and only if it was up and a COMPLETE pass ends that, if it is a retry, started after the last live failure |
| ChannelControl.FailureHoldsBarrier | app/adapters/sources/telegram.py:591-639 | on every run, after a live failure the barrier stays up until a pass that began after that failure ends COMPLETE |
| ChannelControl.ReleaseMeansCaughtUp | app/adapters/sources/telegram.py:762-777 | on well-behaved runs, whenever the barrier comes down every unprocessed message has its live handler |
| ChannelControl.WatcherDiesIff | app/adapters/sources/telegram.py:755-758 | on every run the watcher is dead if and only if logging a failed retry pass raised since the connection was made |
| ChannelControl.DeadWatcherStallsChannel | app/adapters/sources/telegram.py:755-758 | a dead watcher leaves the barrier up and the watermark still until a restart or reconnect |
| ChannelControl.RecoversIffWatcherLives | app/adapters/sources/telegram.py:716-795 | with the barrier up, some well-behaved run within the connection lowers it with everything processed or in a handler's hands if and only if the watcher is alive |
| ChannelControl.WatcherCanDie | app/adapters/sources/telegram.py:750-760 | from any start, a run within one connection through startup, a failed live message and a watcher's pass that cannot fetch nor log it, to a dead watcher behind a raised barrier |
| ChannelWitnesses.ReorderedHandlersSkip | app/adapters/sources/telegram.py:940-985 | a run with no failure in which two handlers reach the lock in the wrong order and a message is skipped |
| ChannelWitnesses.LostFailureSkips | app/adapters/sources/telegram.py:627-639 | an ordered run in which a failure's error log raises and the message is skipped |
| ChannelWitnesses.SafeFromTheSeed | app/adapters/sources/telegram.py:469-480 | wherever in a run a channel is seeded from a message it holds, nothing posted after the seed is skipped by any well-behaved continuation |
| ChannelSafety.BatchCovers | app/adapters/sources/telegram.py:484-495 | a fetched batch is the oldest messages after the watermark, and all of them when shorter than the limit |
| ChannelRuntime.Channel.RecoverChannel | app/adapters/sources/telegram.py:463-558 | the recovery loop moves watermark and processed set as the pass specification says, with its three verdicts and the seeding branch |
| ChannelRuntime.PassStopsAtFirstFailure | app/adapters/sources/telegram.py:499-541 | a pass processes exactly the batch up to its first failure and leaves the watermark on the last message it accepted |
| ChannelRuntime.PassIsARun | app/adapters/sources/telegram.py:499-558 | whatever the calls answer, a pass of this loop is a well-behaved run of the channel machine with the same end |
| ChannelRuntime.Channel.RaiseLiveBarrier | app/adapters/sources/telegram.py:934-937 | the three assignments are the machine's barrier step |
| ChannelRuntime.Channel.AfterPass | app/adapters/sources/telegram.py:762-790 | what the watcher does after a pass is the machine's end-of-pass step, with the next delay |
| ChannelRuntime.BackoffClosedForm | app/adapters/sources/telegram.py:714-790 | after any passes the delay is base doubled once for each failure in a row at the end, capped, and lies between base and cap |
| ChannelRuntime.Channel.Drain | app/adapters/sources/telegram.py:716-790 | with no failures and no arrivals a backlog of B takes exactly B / max (rounded down) capped passes, then one complete pass; all of it is processed |
| PollSource.TelegramSource.Poll | app/adapters/sources/telegram.py:1339-1379 | the polling loop hands out, channel by channel, what the specification says, refills the in-flight queues, and passes over a channel that cannot be resolved |
| PollSource.TelegramSource.MarkSeen | app/adapters/sources/telegram.py:1387-1415 | only the head of a channel's in-flight queue, if newer than the watermark, moves it |
| PollSource.TelegramSource.RunCycle | app/wiring/source_worker.py:62-94 | a worker cycle processes in order and marks only what succeeded |
| PollSource.CycleIsContiguous | app/adapters/sources/telegram.py:1339-1415 | after a cycle over any channels and any failures, a channel's watermark is the end of the longest processed prefix of its batch |
| PollSource.ConfirmedPrefixIsLongest | app/adapters/sources/telegram.py:1387-1415 | that prefix is all successes and is followed by a failure or the end |
| PollSource.ChannelsAreIndependent | app/adapters/sources/telegram.py:1387-1415 | a channel's watermark after a cycle depends only on its own jobs in it |
| PollSource.CyclesSkipNothing | app/wiring/source_worker.py:62-94 | over any number of cycles of the source a channel's watermark never decreases, and every message it passed had been handed out and processed in one of them |
| JobApproval.ApprovedBeforePublished | app/services/job_processor.py:171-306 | in every run with any callers, crashes and delays: published implies, with the guard on, an evaluated notify or an accepting arbitration; complete implies published |
| JobApproval.StepKeepsInv | app/services/job_processor.py:423-946 | every step keeps that a row selected by the LLM was approved one of those two ways |
| JobProgress.NoStrandedJob | app/services/job_processor.py:423-946 | once a source's process_job has returned, the row is terminal or matched by a sweep query now or from some time on, or a caller is in the window |
| JobProgress.GoodMeansTerminalOrSwept | app/adapters/repositories/postgres.py:593-624 | the invariant's row condition is the two sweep queries' own conditions, at the present or a later time |
| JobStranding.FinishesIff | app/services/job_processor.py:330-405 | a job nobody works on can be brought to an end (complete, suppressed or rejected) by some run of the sweeps if and only if its row is neither outside both queries without being terminal, nor started without category, LLM selection or verdict |
| JobStranding.NeverTouched | app/services/job_processor.py:330-405 | no run of the sweeps changes row, log or stream of a terminal job or of one beyond them |
| JobCompletion.ReturnedJobCanFinish | app/services/job_processor.py:423-946 | on orderly runs whose callers finish before their claims run out, a job a source has handed over and nobody works on can be brought to an end |
| JobStranding.LoneWindowDeathIff | app/services/job_processor.py:884-892 | when the last caller dies in the window, no run of the sweeps brings the job to an end if and only if the row is outside both queries without being terminal, or started without anything to go by |
| JobStranding.AcceptedWindowDeathIff | app/services/job_processor.py:884-892 | on a row as the caller's own decision left it: if and only if the notification status was still unset |
| JobWitnesses.SweepDeathStrands | app/services/job_processor.py:884-892 | a reachable run of 26 steps that strands a job this way |
| JobStranding.LateErrorIff | app/services/job_processor.py:766-779 | the failure record of the last caller strands the job if and only if the notification has been started, the guard is on and there is no verdict |
| JobLateError.LateErrorStrands | app/services/job_processor.py:766-779 | a reachable run without any death after which an accepted job matches the notification query and cannot be brought to an end |
| JobVerdicts.OneVerdictPerJob | app/notification_guard/integration.py:137-204 | if span and gap together stay below the lease, evaluations of a job never overlap and leave at most one verdict |
| JobVerdicts.RejectionStands | app/notification_guard/integration.py:118-204 | then a job the guard rejected is published only if an arbitration accepted it |
| JobVerdicts.OneVerdictIff | app/notification_guard/integration.py:157-204 | one verdict on every punctual run if and only if span + gap < 90 |
| JobVerdicts.ConflictingVerdicts | app/notification_guard/integration.py:157-204 | otherwise a reachable punctual run publishes a job the guard rejected and nobody arbitrated |
| JobOnce.PublishedAtMostOnce | app/services/job_processor.py:309-327 | any number of concurrent resumptions alone publish the job at most once, and never once it is complete or suppressed |
| JobClaims.OneCreator | app/adapters/repositories/postgres.py:466-567 | on every run, whoever races, at most one caller ever creates the row |
| JobClaims.RowIffCreated | app/adapters/repositories/postgres.py:466-567 | on every run the row is there if and only if some caller's creation won |
| JobClassification.UnwonIsNeverTaken | app/services/job_processor.py:673-684 | on every run, with any number of callers, on which the cross-source claim is never won, the job is never accepted, judged or published |
| JobClassification.NewJobOutcome | app/services/job_processor.py:563-892 | every column of a new job's row after one uninterrupted caller: accepted if and only if the project is won and the classifier picks or the LLM selects, pending if and only if that LLM fails, otherwise rejected |
| JobClassification.UndecidedJobOutcome | app/services/job_processor.py:472-892 | the same for a job due again or cut short; after a rejection by the guard the LLM decides over any candidate and its selection is logged as the verdict |
| JobClassification.DecidedJobOutcome | app/services/job_processor.py:472-546 | a decided or waiting job delivered again is not classified: its notification is resumed, started, or nothing changes |
| JobClassification.NewJobIsSent | app/services/job_processor.py:423-946 | from delivery to notification, an uninterrupted new job sends one event in the accepted category, or in the guard's where the guard judges, or none, and exactly when |
| JobClassification.SecondChance | app/services/job_processor.py:267-300 | a tie-break that the guard turns down is sent after all if and only if, once due, the project is won again, a candidate is left and the LLM selects: in that category |
| JobRepository.JobRecord.ClaimPendingClassification | app/adapters/repositories/postgres.py:568-580 | the claim wins exactly on a due pending row, and then holds it for the lease |
| JobRepository.JobRecord.ClaimGuardEvaluation | app/adapters/repositories/postgres.py:581-591 | the claim wins exactly when no lease is running |
| JobClaims.GuardClaimsApart | app/adapters/repositories/postgres.py:581-591 | on every run, with no premise, two winning claims of a job's evaluation are at least a whole lease apart |
| JobRepository.JobRecord.AwaitVerdict | app/notification_guard/integration.py:166-186 | the losing caller's wait ends at the first look that finds a verdict others have logged, or after twelve |
| JobRepository.JobRecord.ResolveCategory | app/notification_guard/integration.py:99-216 | the method has the specified effect on row and log, whatever verdicts others log while it waits |
| JobRepository.JobRecord.Resume | app/services/job_processor.py:208-327 | the resumption, uninterrupted, has the specified effect on row, log and stream |
| JobRepository.ResumedIsRun | app/services/job_processor.py:208-327 | that effect is exactly what the step machine computes for one caller alone |
| JobRepository.FirstResumption | app/services/job_processor.py:208-306 | for a job awaiting its first verdict, every column of the row, the log and the stream, for each verdict: sent in the verdict's category and complete, suppressed, sent back to arbitration a minute later, or left waiting on an error |
| JobRepository.LaterResumption | app/notification_guard/integration.py:118-136 | a resumption that finds a verdict asks for no other: it sends if and only if the verdict says notify, in the category the verdict names |
| JobRepository.UnguardedResumption | app/services/job_processor.py:215-240 | with the guard off, or once an LLM has chosen the category, the event is sent at once and no verdict is logged |
| JobRepository.WaitingResumption | app/notification_guard/integration.py:166-186 | while another holds the evaluation, a resumption ends as the verdict says that arrives before one of its looks, with the category it had |
| JobRepository.VainResumption | app/notification_guard/integration.py:166-186 | if no verdict arrives before any of the twelve looks, nothing changes |
| JobEvents.SendsVerdictIff | app/notification_guard/integration.py:137-204 | on punctual runs without a rescue, a caller that published with no classification since its view of the row sends the verdict's category if and only if the view had it or a reclassification was written in between |
| JobRepository.WaiterKeepsItsCategory | app/notification_guard/integration.py:166-186 | as long as nobody else writes the row, a caller that lost the claim and meets the verdict at any look sends the old category; one that reads the verdict first sends the verdict's |
| Normalizer.NormalizeAround | app/domain/normalize.py:21-51 | normalising two texts joined by whitespace joins their normal forms with one space |
| Normalizer.NormalizeYieldsNormalForm | app/domain/normalize.py:21-51 | what comes out has single inner spaces, word characters only, no diacritic or kashida, and no Latin letter next to an Arabic one |
| Normalizer.FixedIffNormalForm | app/domain/normalize.py:21-51 | a text is left alone if and only if it is in that form, so normalisation is idempotent |
| Normalizer.NormalizeIsTidy | app/domain/normalize.py:48-51 | collapsing whitespace and stripping leaves the words one space apart |
| Normalizer.NormalizeLetters | app/domain/normalize.py:21-51 | apart from its spaces the result is made character by character: lower-cased, translated, and dropped unless it is a word character and no diacritic, kashida or separator |
| Normalizer.OneWordIsKept | app/domain/normalize.py:21-51 | a word of one script keeps its length, each letter lower-cased and translated in its place |
| KeywordMatcher.FormsArePhrases | app/domain/filters.py:70-79 | every clitic form of a normalised keyword is again words one space apart, no shorter than the keyword |
| KeywordMatcher.FindPicks | app/domain/filters.py:70-91 | a search takes the keyword's own leftmost free occurrence; failing that, and only for a phrase beginning with an Arabic word, the leftmost free one behind the first of the eleven clitics that has any; otherwise nothing |
| KeywordMatcher.ContainsIff | app/domain/filters.py:70-92 | a keyword is contained if and only if it occurs between word boundaries, or for such a phrase one of its eleven clitic forms does |
| KeywordMatcher.Search | app/domain/filters.py:82-87 | the result is an occurrence between word boundaries, and there is none before it |
| KeywordMatcher.FindFormMeans | app/domain/filters.py:82-91 | a keyword is found if and only if some form of it occurs clear of the claimed spans |
| KeywordMatcher.OccursBlanked | app/domain/filters.py:94-98 | a phrase occurs in the blanked text if and only if it occurs there in the original and touches no claimed span: masking creates no match and hides only overlaps |
| KeywordMatcher.MatchTier | app/domain/filters.py:185-201 | the masking loop claims exactly what a search around the earlier claims in the unchanged text would, and leaves the text blanked at those spans, with its length |
| KeywordMatcher.ClaimsAreGenuine | app/domain/filters.py:185-201 | each claim is a word-bounded form of its keyword at that place of the original text, and claims are pairwise disjoint |
| KeywordMatcher.ClaimsAreComplete | app/domain/filters.py:185-201 | an item that misses had every occurrence taken by an earlier item |
| KeywordMatcher.NoHitsIffNoKeyword | app/domain/filters.py:185-209 | a tier has no hits if and only if none of its keywords occurs |
| KeywordMatcher.HasCoreHit | app/domain/filters.py:204-209 | the unmasked check answers as the masked pass would |
| CategoryFilter.LongestFirstSorts | app/domain/filters.py:101-117 | compiling a tier keeps the same keywords, longest first, equally long ones in their order |
| CategoryFilter.TierHits | app/domain/filters.py:101-201 | for a compiled tier: hits are genuine and disjoint, and a keyword that misses lost every occurrence to one at least as long |
| CategoryFilter.RunKeywordFilter | app/domain/filters.py:216-398 | the loops gather the evidence the decision table is specified on |
| CategoryFilter.NotifyMeansClean | app/domain/filters.py:242-361 | a direct notification means no form of any core negative or hard reject occurs in the normalised text |
| CategoryFilter.EvidenceIsSums | app/domain/filters.py:185-290 | the core count and the two weights are the number and the sum over exactly the keywords that hit, each counted once |
| CategoryFilter.DecisionIff | app/domain/filters.py:289-361 | on any evidence, also where the title shows what the text does not, exactly when a posting is rejected and when it is notified |
| CategoryFilter.ReasonMeans | app/domain/filters.py:289-361 | what the evidence had when a reason is given, and which reasons go with which decision |
| CategoryFilter.DecisionIsMonotone | app/domain/filters.py:289-361 | with the title's word unchanged, more evidence against a category or less for it never improves its decision |
| CategoryFilter.TitleHelpsIff | app/domain/filters.py:298-348 | a core keyword in the title never worsens the decision if and only if the policy's title threshold is no lower than its downgrade threshold, or the latter lets nothing through |
| CategoryFilter.TitleWithinText | app/domain/classification.py:25-30 | the classified text begins with the classified title, cut and normalised, unless the cut falls inside a word |
| CategoryFilter.TitleSafeIff | app/services/job_processor.py:563-575 | over all profiles, a direct notification rules out a title read as core negative if and only if every keyword of the judged title is one of the judged text |
| CategoryFilter.CleanCutCarriesOver | app/domain/classification.py:25-30 | that holds for every title that fits the cap or is cut between words |
| CategoryFilter.DecisionInShort | app/domain/filters.py:289-361 | for a posting whose text holds its title, exactly when each decision is taken: the title rules change nothing but the threshold of negative support |
| CategoryFilter.CutTitleReadsNegative | app/domain/classification.py:21-30 | a title cut inside a word is notified directly although the cut title holds a core negative |
| Selection.SelectCategory | app/domain/classification.py:56-105 | the loop with its two running variables computes the specified selection |
| Selection.RankMeans | app/domain/classification.py:80-90 | the two variables end as the highest score and the highest among the others |
| Selection.SelectMeans | app/domain/classification.py:65-105 | a candidate is picked if and only if it is the only one, or clears its threshold and every other by the margin |
| Selection.OrderIsIrrelevant | app/domain/classification.py:46-105 | permuting results with distinct ids changes neither the pick nor the flag |
| Selection.PickedOrArbitrated | app/domain/classification.py:124-168 | with a candidate, exactly one of picked and needs arbitration holds; the multi-candidate flag means two competitors and implies the tie-break flag |
| Selection.TitleClaimsClearIff | app/domain/filters.py:41-63 | evidence that claims a category through the title always scores at least its threshold if and only if the policy's title threshold is at most 13 |
| Selection.TitleClaimClearsThreshold | app/domain/filters.py:298-318 | so it does for postings cut between words, with such a policy and non-negative weights |
| Selection.BodyClaimsFallShortIff | app/domain/filters.py:332-348 | for exactly which policies some evidence from the body alone is notified directly and scores below its threshold |
| Selection.OpenQuestionClearsIff | app/domain/filters.py:41-63 | for each rule that leaves a question open, exactly what evidence clears the ambiguous threshold |
| Selection.LoneCoreFallsShortIff | app/domain/filters.py:332-342 | a lone core keyword with too little support can never clear that threshold if and only if the policy asks for at most 12 points of support |
| Selection.ScoreExchange | app/domain/filters.py:45-63 | a core hit is worth 8 points of support or 10 against, a title 12, a core negative 25 |
| FreeHub.Hub.Poll | app/services/freehub.py:177-295 | one poll returns, stores and requests what the specification says, failures included |
| FreeHub.Hub.Backfill | app/services/freehub.py:248-279 | the pagination loop walks the specified pages and leaves the specified continuation |
| FreeHub.Hub.Discover | app/services/freehub.py:281-290 | the reverse scan collects the specified projects, each once |
| FreeHub.Hub.MarkSeen | app/services/freehub.py:317-344 | marking writes the window, then removes the project from pending |
| FreeHub.PollCappedIff | app/services/freehub.py:248-279 | a poll meets the cap if and only if page 1 and as many pages from the continuation on as it may ask for all come and show something unseen |
| FreeHub.PollIsComplete | app/services/freehub.py:177-295 | over a still newest-first feed that does not meet the cap, a poll returns pending followed by exactly the projects neither processed nor pending, oldest first |
| FreeHubBacklog.PollDelivers | app/services/freehub.py:234-295 | any successful poll, from any page, capped or not, hands out every new project of page 1 and of every page it kept, and nothing but those and what was pending |
| FreeHubBacklog.BacklogIsDelivered | app/services/freehub.py:234-295 | over a still feed, any number of capped polls in a row and the first uncapped one leave pending, each once, exactly what was and every new project up to the page where the last poll stops, which is all of them if nothing new lies past a processed page |
| FreeHub.ExtendedKeepsNewest | app/services/freehub.py:43-56 | the bounded window holds the newest ids, in order |
| FreeHub.FirstPollSeeds | app/services/freehub.py:193-208 | the first poll hands out nothing and takes page 1 as processed, so the same page next time costs one request and finds nothing |
| FreeHub.RequestsBounded | app/services/freehub.py:248-275 | a poll makes between one and maxPages requests |
| FreeHub.CappedPollsWalkOn | app/services/freehub.py:234-279 | k capped polls in a row walk pages 2 to 1 + k (max - 1) in order, each once, whatever is marked in between |
| FreeHub.BackfillGoesOnIff | app/services/freehub.py:212-248 | more than one request is made if and only if page 1 shows an unprocessed project; otherwise the continuation is reset and nothing is found |
| FreeHub.PollReturnsPending | app/services/freehub.py:183-186 | a successful poll returns exactly what is then pending, drops nothing, and a failed one changes nothing |
| FreeHub.StaysUntilMarked | app/services/freehub.py:281-344 | through any polls, marks and crashes between writes a pending project stays pending, once, and every successful poll returns it until its own mark is complete |
| FreeHub.CutRepeatsIffUncapped | app/services/freehub.py:277-295 | after a crash between a poll's two writes the next poll repeats the walk if and only if the feed does not meet the cap |
| FreeHub.CappedCutSkips | app/services/freehub.py:277-295 | a capped poll cut there finds a project that the next poll does not deliver |
| FreeHub.NotRepeatedInWindow | app/services/freehub.py:337-344 | a project marked in full, even again after a mark cut short, is not handed out while its age in the window plus later marks stay below the window's length |
| Rotation.RateLimits.RunWithRotation | app/llm/rotation.py:86-223 | the loop has the specified outcome, attempts, end time and effect on the cooldown table |
| Rotation.RateLimits.MarkRateLimited | app/llm/rate_limit_tracker.py:235-267 | the candidate is out for the escalated, parsed or default delay, which is returned |
| Rotation.RateLimits.FilterAvailable | app/llm/rate_limit_tracker.py:307-328 | the available ids, or all of them when none is |
| Rotation.RotationMeans | app/llm/rotation.py:86-223 | attempts are the first of the eligible candidates in order, up to the first success or the deadline, all of them on a plain failure; none starts at or after the deadline; only attempted ids change |
| Rotation.WinnerIsCleared | app/llm/rate_limit_tracker.py:270-293 | the winner was eligible and is available at once, with no failures counted |
| Rotation.CountIsDailySinceSuccess | app/llm/rate_limit_tracker.py:249-293 | the escalation count is the number of daily-quota failures since the last success, whatever else happened |
| Rotation.EscalationLadder | app/llm/rate_limit_tracker.py:235-267 | the k-th such failure keeps the candidate out for exactly 30, 60, 120, then 240 minutes |
| Rotation.AvailableIff | app/llm/rate_limit_tracker.py:235-304 | after any failures and successes of a candidate with a clean record, it is available if and only if no failure since its last success took it out, or the last that did is over: truncated and transient ones never do, daily quota by the ladder, other quota for the reported or default delay, unknown ones six hours under that policy |
| Rotation.AvailableAfterRotation | app/llm/rotation.py:119-216 | a rotation's calls follow one another without a pause, and afterwards that holds of each candidate's own attempts, each judged when its call came back |
| Rotation.EndsInTime | app/llm/rotation.py:119-216 | a rotation ends where it began or less than one call past the deadline |
| Rotation.RunChain | app/llm/manager.py:327-390 | the provider loop has the specified winner, end time and effect |
| Rotation.ChainMeans | app/llm/manager.py:327-390 | providers are tried in order, each with the clock and table the one before left, up to the first that wins |
| Rotation.ChainEndsInTime | app/llm/manager.py:354-390 | a chain of any number of providers ends by the later of its start and the deadline plus one call |
| Ownership.Claims.Prune | app/services/state.py:274-313 | pruning keeps exactly the live records of the migrated table |
| Ownership.Claims.ClaimProject | app/services/state.py:315-347 | the answer and the new table are as specified |
| Ownership.OneOwnerPerWindow | app/services/state.py:315-347 | after a job creates a claim, every claim of the project within TTL is granted to that job and refused to all others; creations are more than TTL apart |
| Ownership.GrantedIff | app/services/state.py:315-347 | whatever the file held at the start, a claim is granted if and only if no other job created one for the project within the last TTL seconds and no live first record gives it to somebody else |
| Ownership.MigratedGrantedIff | app/services/state.py:277-286 | over any run of claims from the old list, a named job is granted a listed project if and only if a window has passed since the first claim and nobody else took it since |
| DurableState.StateFile.Save | app/services/state.py:134-157 | a save stopped after any of its steps leaves the specified disk |
| DurableState.StateFile.LoadState | app/services/state.py:97-132 | which file is read, what is saved again, and when it refuses |
| DurableState.LoadAfterAnyRun | app/services/state.py:97-157 | after any saves, crashes, restarts, damage to the main file and deletions of it: no file is partial; a load gives the last value renamed, with main damaged exactly the last save completed, and starts empty when main is gone; it refuses only if main is damaged and no save was completed |
| DurableState.FaithfulIffNotDeleted | app/services/state.py:97-132 | after any run a load gives no state older than the last completed save if and only if main was not deleted since its last rename, nothing had been renamed, or the empty state is what was saved |
| DurableState.BackupSurvivesIff | app/services/state.py:97-157 | after a deletion the backup still holds the last save completed before it if and only if no save and no restart has run to its end since; a restart right after makes it the empty state |

## Left out

- Drivers: Telethon, aiohttp, the LLM SDKs, Redis and SQL are calls that succeed, fail or answer anything; what they answer is part of the event or a parameter.
- Several Telegram channels at once: channels share no state but the loop, so one is modelled; poll mode is modelled with all of them.
- The watcher's place in the lock queue: it may take a free lock ahead of waiting handlers, which allows more runs than the FIFO lock does.
- Legacy job identities, Job UUID derivation and the Short URL: a job is one opaque key, and replays need not be byte-identical.
- Timeouts that quarantine the database or state executor: the caller sees an exception, which the model has as a death or a failed call; the quarantine itself is not modelled.
- A commit that succeeded although its caller saw an error: modelled for watermark writes (`reached`), not for row updates.
- JobProgress.NoStrandedJob: allows a caller in the window in every covered state, because a row can be good only once that caller moves on, and counts a row as covered when a query matches it; JobStranding says when that caller's death strands the job and which matched rows no sweep can finish, JobCompletion when there are none.
- JobRepository.JobRecord.ResolveCategory: other callers' verdicts can arrive while it waits, but not their writes to the row; the interleavings with those are runs of the step machine.
- JobOnce.PublishedAtMostOnce: is about callers that do not fail; after a failure between publishing and marking complete the job is published again, by design.
- JobVerdicts.OneVerdictPerJob: counts verdicts, not errors; an evaluation that errs may be repeated.
- ChannelRuntime.Channel.Drain: covers a backlog with no failures and no arrivals, because otherwise the number of passes depends on them.
- The write of a seed that raises: modelled as a fetch that raised, so the seed does not stay in memory.
- Store writes that fail in poll mode, and exceptions from poll itself: the worker logs and repeats the cycle.
- Greek final sigma: lower() is taken character by character.
- The keyword cache: it returns the compiled tiers unchanged.
- Python float rounding of scores and delays: scores are exact fifths, delays whole milliseconds.
- The text markers by which a failure is called a quota, an overload or a truncation: what the tests say is part of the failure.
- CategoryFilter.DecisionInShort: is about titles that fit the cap or are cut between words; for the others the rules are as the table has them.
- FreeHub under concurrent insertion, and projects without an id: app/services/freehub.py:235-247 disclaims the first, and the second never reach the queue.
- FreeHub.PollIsComplete: takes a poll from page 2 that does not meet the cap; FreeHubBacklog has the others, and BackfillGoesOnIff shows what a capped one can forget.
- The answer of the classifier to process_job is a parameter of the job model; CategoryFilter and Selection say what it is.
- The guard's and the arbitration's prompts and answers: an evaluation answers notify, do not notify or error.
- The scraper, health checks, heartbeats, worker registry, configuration and composition: wiring and single-branch checks.
