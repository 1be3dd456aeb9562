# Scribe: a verified model

Scribe records meetings on a phone, uploads them segment by segment, and runs them
through a pipeline of stages (transcode, diarize, transcribe, merge, embed,
summarize, and live transcription beside them) driven by a jobs table that several
workers, a reaper and the HTTP handlers share. This project models the parts of it
where being wrong is easy, and proves what they are for.

| file | what it holds |
|---|---|
| `Arithmetic.dfy` | minimum, maximum, powers of two |
| `Types.dfy` | job kinds, their predecessor and successor lists |
| `JobTable.dfy` | the jobs table: what each queue statement does to a row and to the table, and the mutable `JobQueue` whose methods are those statements |
| `Protocol.dfy` | workers, reaper and handlers as a state machine, one SQL statement a step, in any interleaving |
| `ProtocolSafety.dfy` | leases, unique live rows and the books of every row, kept by every step |
| `ProtocolJoins.dfy` | gates, joins and the ready mark, through both resets |
| `ProtocolLive.dfy` | live transcription neither stalls nor runs away |
| `ProtocolProgress.dfy` | every run keeps the invariant; no deadlock; what bounds claims and what work waits for |
| `ProtocolWork.dfy` | termination by a potential |
| `ProtocolPaths.dfy`, `ProtocolExamples.dfy` | sequences of actions, what they keep of the segments, and concrete runs from the empty database |
| `ProtocolResets.dfy` | exactly when each reset is safe, and what follows when it is not |
| `ProtocolLimits.dfy` | late leases, lost tasks, parked passes: exactly when each does harm, and for how long |
| `ProtocolUploading.dfy` | the live loop while a recording uploads: when it comes round again, and what bounds it |
| `Sums.dfy` | sums over a table |
| `Schedule.dfy`, `ScheduleProofs.dfy` | the processing schedule, its fast form and its plain meaning |
| `StageWindow.dfy` | the grace loop of a running stage, and what becomes of the job it puts down |
| `EditDistance.dfy` | two-row edit distance, edit scripts |
| `Chunking.dfy` | overlapping retrieval windows |
| `Karaoke.dfy`, `KaraokeTiming.dfy` | word timing of the transcript highlight, and where each displayed word's times come from |
| `Wav.dfy`, `WavSamples.dfy` | the RIFF/WAVE reader and its fixture writer; samples in terms of bytes, and refusals |
| `Recorder.dfy` | the phone's segmented recorder |
| `UploadQueue.dfy` | the phone's uploader and what it may delete |

`dafny verify dfyconfig.toml` checks everything.

## How the protocol is modelled

The state is the jobs table, the recordings and the tasks under way; a task's
constructor is its program counter. Each action is one SQL statement, one request's
first statement, or the passage of time, and any enabled action may come next.
`complete`, `fail` and `defer` update by id alone, as the code does, so what they do
to somebody else's row is in the model. Stage bodies succeed, error, are put down, or
die. The row functions are shared with `JobTable.JobQueue`, so the state machine and
the mutable table mean the same by each statement. A reaper statement over many rows
is a run of one-row steps (`JobTable.ReapingOneByOne`). `claims`, `deferrals`,
`backedOff`, `readyMarked` and `liveInserts` are history: no statement reads them.

The theorems about runs hold under premises, stated as `Protocol.Admissible`:

* a live holder's lease is stamped at least every three heartbeats;
* a process dies only while a stage runs or a failure is being recorded, never
  between `complete` and the last statement it owes (the death of a process is the
  death of each of its tasks); statements themselves do not fail;
* a reprocess does not come between an answer and the statement acting on it: a gate
  that answered yes and its enqueue, the ready check and the mark, or a
  re-diarization and its entry row;
* a re-diarization finds transcode done, and does not come between the gate of merge
  or embed and its enqueue, or between the ready check and the mark.

A reset may come at any other time, also while stages run. What each premise excludes
is proved with it. `ProtocolResets`: a reset keeps the invariant exactly when it meets
its premise, and otherwise the next statement of the task it overtook inserts an
ungated row or marks ready what is not. If no reprocess comes during a transcribe
stage of its recording, a re-diarization always finds transcode done, so there that
premise need not be asked: from the empty database such runs meet it by themselves. `ProtocolLimits`: exactly when a
late lease lets two workers share a job, for a task at any statement exactly when
losing it does harm, and exactly when nothing ever happens to the recording again.

## What the model found

* A window from 1440 to 0 is a valid setting and has length zero, although the
  comment at `crates/scribe-core/src/schedule.rs:64` gives the length as 1..=1440. It
  is the only one. The countdown from outside every window names an opening that does
  not come exactly when that instant is the midnight after a day so set and the day
  beginning there is not on from its first minute.
* A transcribe stage that outlives a reprocess stores a transcript although transcode
  is no longer done; a re-diarization before it is done again inserts an ungated row.
* A live pass that uses its last attempt marks the recording failed while it is still
  recording; it can then never be completed, the server answers 409, and the phone
  takes 409 for done and deletes its audio.
* While a recording uploads, a segment that live transcription cannot transcribe (its
  file is gone) makes the worker insert live jobs without bound and without delay; if
  no successful pass leaves text behind without having transcribed any, they are bounded.
* A worker lost between `complete` and its enqueue, with nobody else at work on the
  recording, leaves it stuck until a new request for it.
* A long turn gives no chunk exactly when none of its words sounds within it; a word
  of no length at the very start of a long turn is in none.
* When a rotation finds no segment file it can open, the recorder never tries again:
  nothing is ever kept from then on, and only then, although the comment at
  `ios/Scribe/Recording/SegmentedRecorder.swift:202-203` says otherwise. One full
  buffer before such a rotation is enough.
* The fixture writer, compiled only with the tests, writes a file that cannot be read
  back once the size of its data passes 32 bits; a debug build stops at some of them.

## Model

| member | source | states |
|---|---|---|
| Types.EdgesAreConverse | crates/scribe-core/src/types.rs:164-187 | the predecessor and successor lists describe one graph |
| Types.BypassingIsAlone | crates/scribe-core/src/types.rs:151-187 | the one kind exempt from the schedule is the one with neither predecessors nor successors |
| JobTable.JobQueue.Enqueue | crates/scribe-db/src/queue.rs:84-128 | inserts only when no live row of that recording and kind exists; then the new row has that priority, no attempts, and can be claimed from now on |
| JobTable.JobQueue.ClaimOne | crates/scribe-db/src/queue.rs:134-160 | takes a queued, due row of an allowed kind that none of higher priority, nor of the same and created earlier, precedes; it then runs in this worker's name with a full lease, and nothing else changes; returns nothing exactly when none is claimable |
| JobTable.SomeRowIsNext | crates/scribe-db/src/queue.rs:140-149 | whenever something is claimable, some claimable row precedes all others |
| JobTable.JobQueue.Heartbeat | crates/scribe-db/src/queue.rs:166-178 | lands exactly when this worker still owns the row running; then the lease lasts a full term from now, and nothing else changes |
| JobTable.JobQueue.Complete | crates/scribe-db/src/queue.rs:181-190 | by id alone, whoever holds it: afterwards that kind counts as done, no other kind newly does, and the row can be neither claimed nor taken back |
| JobTable.JobQueue.Fail | crates/scribe-db/src/queue.rs:199-248 | one attempt more; below the cap claimable again exactly from base times 2^(attempts before) on, at the cap never; only that row changes; an error on a missing one |
| JobTable.JobQueue.Defer | crates/scribe-db/src/queue.rs:258-271 | charges no attempt; the row is claimable again exactly from the end of the delay, for workers of its kind |
| JobTable.JobQueue.ReapStuck | crates/scribe-db/src/queue.rs:338-367 | takes back exactly the expired rows, each at the cost of an attempt and due as before, parks those out of attempts, and reports both |
| JobTable.ReapingOneByOne | crates/scribe-db/src/queue.rs:338-357 | the one statement equals taking the expired rows one after another |
| JobTable.JobQueue.AllPredecessorsDone | crates/scribe-db/src/queue.rs:373-391 | counting distinct done kinds decides that every predecessor kind is done |
| JobTable.SameSizeIffSame | crates/scribe-db/src/queue.rs:380-390 | a subset is everything exactly when the counts agree |
| JobTable.GateIs | crates/scribe-core/src/types.rs:164-174 | which stages each stage waits for |
| ProtocolSafety.QueueStatementsAreSteps | crates/scribe-db/src/queue.rs:93-160 | the insert, claim and reap of the table are steps of the state machine with the same result |
| ProtocolSafety.WorkerStatementsAreSteps | crates/scribe-db/src/queue.rs:166-271 | so are heartbeat, complete, defer, and the two statements of fail |
| ProtocolSafety.CoreStep | crates/scribe-db/src/queue.rs:166-190 | every step keeps: one live row per recording and kind, leases unexpired in one pair of hands, and every row's books |
| ProtocolSafety.HeartbeatLands | crates/scribe-db/src/queue.rs:166-178 | a worker whose row is still there holds it in its own name: its heartbeat lands, and the lease lasts a full term |
| ProtocolSafety.ReportIsGood | crates/scribe-pipeline/src/worker.rs:268-318 | complete, fail, defer and heartbeat write only the row whose lease the writer still holds, though none of the first three checks the owner |
| ProtocolSafety.AdvanceIsGood | crates/scribe-pipeline/src/worker.rs:282-318 | so does every later statement of a worker |
| ProtocolSafety.OutcomeIsGood | crates/scribe-api/src/handlers/recordings.rs:286-322 | and every request, claim and reap keeps the unique index and the books |
| ProtocolSafety.GoodKeepsCore | migrations/0001_init.sql:58-60 | an effect with these properties keeps the whole invariant |
| ProtocolSafety.FailKeepsAccounts | crates/scribe-db/src/queue.rs:199-248 | a failure ends its claim in exactly one attempt and charges exactly its delay |
| ProtocolSafety.ReapKeepsAccounts | crates/scribe-db/src/queue.rs:338-357 | a claim whose worker died ends in exactly one attempt |
| ProtocolSafety.BackoffStep | crates/scribe-db/src/queue.rs:216-219 | each delay is the difference of the geometric bound |
| ProtocolJoins.JoinedStep | crates/scribe-pipeline/src/worker.rs:282-288 | every step keeps: rows only behind open gates, an open gate's row exists or is owed, both terminal stages done means marked ready or owed |
| ProtocolJoins.EffectKeepsSuccessors | crates/scribe-pipeline/src/worker.rs:394-402 | no join is lost: a gate that opens has its row, or somebody still to consider it |
| ProtocolJoins.EffectKeepsReady | crates/scribe-pipeline/src/worker.rs:102-127 | embed and summarize both done: marked ready, or somebody still owes the check or the mark |
| ProtocolJoins.EffectKeepsGated | crates/scribe-pipeline/src/worker.rs:394-402 | no row is inserted behind a shut gate |
| ProtocolJoins.NewlyDone | crates/scribe-db/src/queue.rs:181-190 | a kind becomes done only by the row written |
| ProtocolJoins.DebtsSurvive | crates/scribe-pipeline/src/worker.rs:282-288 | what somebody owes stays owed, is paid, or is owed no longer because the gate is shut |
| ProtocolJoins.GatedBackToEntry | crates/scribe-core/src/types.rs:164-174 | a later row implies a done transcode |
| ProtocolJoins.ReprocessKeepsJoined | crates/scribe-db/src/recordings.rs:258-293 | a full reset keeps gates and joins |
| ProtocolJoins.RediarizeKeepsRowsGated | crates/scribe-db/src/recordings.rs:315-376 | with transcode done, no row left behind loses its gate |
| ProtocolJoins.RediarizeKeepsJoined | crates/scribe-api/src/handlers/recordings.rs:366-393 | re-diarization keeps gates and joins |
| ProtocolJoins.DroppedLabels | crates/scribe-db/src/recordings.rs:357-366 | exactly the kinds to run again lose their rows |
| ProtocolJoins.RunAgainIsDownstream | crates/scribe-db/src/recordings.rs:357-366 | those are diarize and every stage that waits for one of them |
| ProtocolJoins.ResetOfAnother | crates/scribe-db/src/recordings.rs:258-376 | a reset touches no other recording |
| ProtocolLive.NotStalledStep | crates/scribe-api/src/handlers/segments.rs:101-128 | while a recording uploads with a segment awaiting text, a live job exists or an enqueue or failed mark is owed |
| ProtocolLive.AdvanceKeepsLive | crates/scribe-pipeline/src/worker.rs:289-304 | the worker's status read, count and enqueue hand that debt on |
| ProtocolLive.UploadingIsLeftForGood | crates/scribe-api/src/handlers/recordings.rs:293-316 | no step returns a recording to uploading |
| ProtocolPaths.PathKeepsSegments | crates/scribe-db/src/segments.rs:33-44 | over any sequence of steps, resets included: no uploaded segment is forgotten, and one that has its text never awaits it again, even when sent again |
| ProtocolLive.InsertersAreSpent | crates/scribe-pipeline/src/worker.rs:293-304 | after that, each live job inserted uses up an upload or worker already past its status read |
| ProtocolLive.LiveNeverRunsAway | crates/scribe-pipeline/src/worker.rs:293-304 | over any run from there, at most that many live jobs are ever inserted |
| ProtocolLive.LiveInsertsAreCounted | crates/scribe-db/src/queue.rs:93-109 | the count is of the rows really inserted |
| ProtocolProgress.RunsKeepInvariant | crates/scribe-pipeline/src/worker.rs:226-322 | every state of every admissible run satisfies the whole invariant |
| ProtocolProgress.EveryRun | crates/scribe-pipeline/src/worker.rs:226-402 | from an empty database: books, leases, gates, joins, live transcription, and no deadlock |
| ProtocolProgress.InvariantStep | crates/scribe-pipeline/src/worker.rs:226-322 | one step keeps it, for all recordings at once |
| ProtocolProgress.InvariantAtStart | migrations/0001_init.sql:1-60 | an empty database satisfies it |
| ProtocolProgress.ReaperTakesOnlyTheDead | crates/scribe-pipeline/src/worker.rs:412-420 | the reaper can take only a row that no living holder has |
| ProtocolProgress.EveryHeartbeatLands | crates/scribe-pipeline/src/worker.rs:247-261 | the same over every run from the empty database |
| ProtocolProgress.DoneStaysDone | crates/scribe-db/src/queue.rs:181-190 | a done row never changes again until a reset deletes it, and its id never returns |
| ProtocolProgress.ClaimsAreBounded | crates/scribe-db/src/queue.rs:199-248 | claims are at most the attempts allowed plus deferrals; delays sum to at most base times (2^(max_attempts-1) - 1) |
| ProtocolProgress.BackoffMonotone | crates/scribe-db/src/queue.rs:216-219 | the geometric bound grows with the attempts |
| ProtocolProgress.NoDeadlock | crates/scribe-pipeline/src/worker.rs:394-402 | a recording in the pipeline with no parked stage is ready, has a live job, or has an owed statement |
| ProtocolProgress.WorkCanMove | crates/scribe-pipeline/src/worker.rs:148-175 | that work can be carried on now, or waits only for a due time, for the schedule or a worker's configuration to allow its kind, or for a dead lease to expire |
| ProtocolProgress.ReadyIsLeftIff | crates/scribe-pipeline/src/worker.rs:305-318 | a recording stops showing ready exactly by a reset, a failed mark, or a completion read before |
| ProtocolWork.WorkUsesPotential | crates/scribe-pipeline/src/worker.rs:226-322 | each action working for a recording uses at least one unit of a natural-number potential, a deferral gives back at most one |
| ProtocolWork.WorkIsBounded | crates/scribe-pipeline/src/worker.rs:226-322 | without new requests, all work ever done for it is at most its potential plus two per deferral |
| ProtocolWork.SpentMeansSettled | crates/scribe-pipeline/src/worker.rs:102-110 | with the potential spent, it is ready or a stage is parked |
| ProtocolWork.PotentialNonNegative | crates/scribe-pipeline/src/worker.rs:394-402 | the potential never falls below zero |
| ProtocolResets.ReprocessKeepsJoinedIff | crates/scribe-db/src/recordings.rs:258-293 | a full reset keeps gates and joins exactly when it overtakes no answer |
| ProtocolResets.RediarizeKeepsJoinedIff | crates/scribe-db/src/recordings.rs:315-376 | a re-diarization does exactly when transcode is done and it overtakes no later answer |
| ProtocolResets.OvertakenByReprocessIff | crates/scribe-pipeline/src/worker.rs:394-402 | after a full reset, a task's next statement inserts an ungated row or marks ready what is not exactly when its answer was overtaken |
| ProtocolResets.OvertakenByRediarizeIff | crates/scribe-pipeline/src/worker.rs:394-402 | the same after a re-diarization |
| ProtocolResets.RediarizeIsGatedIff | crates/scribe-api/src/handlers/recordings.rs:366-393 | the entry row of a re-diarization is gated exactly when transcode is done |
| ProtocolResets.UnaskedRunsFromStart | crates/scribe-db/src/recordings.rs:315-376 | from the empty database, with no reprocess during a transcribe stage, every re-diarization finds transcode done, so the run meets the premises, keeps the whole invariant, and a stored transcript always means transcode is done |
| ProtocolResets.UnaskedRunsAreRuns | crates/scribe-db/src/recordings.rs:258-376 | the same from any state satisfying the invariant in which each transcript has a row behind it |
| ProtocolResets.BackedStep | crates/scribe-db/src/recordings.rs:315-376 | every step but such a reprocess keeps a row behind each transcript, stored or being made |
| ProtocolResets.StaleTranscriptBreaksGate | crates/scribe-db/src/recordings.rs:315-330 | such a reprocess, the transcript then stored and a re-diarization insert an ungated row |
| ProtocolResets.StaleTranscriptIsReached | crates/scribe-db/src/recordings.rs:315-330 | a run from the empty database gets there |
| ProtocolLimits.LateHeartbeatSharesJobIff | crates/scribe-db/src/queue.rs:338-357 | a second worker gets a living worker's job exactly when its lease has run out, an attempt is left and the job is due; punctual stamps exclude it |
| ProtocolLimits.SharedJobIsUndone | crates/scribe-db/src/queue.rs:181-190 | when one of two holders completes and the other fails, the done row goes back to the queue, or to failed |
| ProtocolLimits.DeathIsHarmlessIff | crates/scribe-pipeline/src/worker.rs:282-318 | for a task at any statement, exactly when losing it keeps every gate, join, ready mark, entry row and live debt |
| ProtocolLimits.DispensableIs | crates/scribe-pipeline/src/worker.rs:282-318 | what each kind of task owes, and that it owes nothing else |
| ProtocolLimits.QuietForGood | crates/scribe-pipeline/src/worker.rs:226-322 | a recording with no stage work left gets none, and is never marked ready, over every run without a new request |
| ProtocolLimits.LostForGoodIff | crates/scribe-pipeline/src/worker.rs:284-285 | exactly when losing a task leaves its recording so for good |
| ProtocolLimits.CrashAfterCompleteIsReached | crates/scribe-pipeline/src/worker.rs:284-285 | a run from the empty database, and a crash right after `complete`, gets there |
| ProtocolLimits.FailParksIff | crates/scribe-pipeline/src/worker.rs:305-318 | a failing stage comes to owe the failed mark exactly on its last attempt |
| ProtocolLimits.ReapParksIff | crates/scribe-pipeline/src/worker.rs:434-452 | so does a reaped one |
| ProtocolLimits.ParkedPassEndsUploadIff | crates/scribe-pipeline/src/worker.rs:305-318 | a failing live pass makes completion impossible exactly on its last attempt |
| ProtocolLimits.NeverCompletable | crates/scribe-api/src/handlers/recordings.rs:293-299 | a recording no longer uploading is never completable again, over any sequence of steps |
| ProtocolLimits.ParkedPassIsReached | crates/scribe-pipeline/src/worker.rs:305-318 | whatever the settings, a run from the empty database parks the pass of a recording never completed |
| ProtocolUploading.PassReinsertsIff | crates/scribe-pipeline/src/worker.rs:297-304 | after a pass, a live job is inserted exactly when the recording uploads, a segment awaits text, and no live job exists |
| ProtocolUploading.ProgressBoundsLiveJobs | crates/scribe-pipeline/src/worker.rs:289-304 | if no upload request arrives and every pass that succeeds while a segment still awaits text has transcribed one, the live jobs ever inserted are bounded: by the tasks past a pass or in an upload and the live job, each counted once for every upload still to insert, the segments awaiting text, and the passes under way |
| ProtocolUploading.OutlookLightens | crates/scribe-pipeline/src/worker.rs:297-304 | an upload used up, a segment transcribed, or uploading ended makes no task dearer |
| ProtocolUploading.RunsKeepPassRows | crates/scribe-db/src/recordings.rs:258-293 | while a recording uploads, the row of every running stage is there, over every run |
| ProtocolUploading.LiveJobsUnboundedWhileUploading | crates/scribe-pipeline/src/worker.rs:289-304 | if passes transcribe nothing, any number is inserted within one instant |
| ProtocolUploading.RunawayIsReached | crates/scribe-pipeline/src/worker.rs:289-304 | from the empty database, with a single upload |
| Schedule.ProcessingSchedule.Normalize | crates/scribe-core/src/schedule.rs:169-184 | seven clamped days, padded with off days, a capped grace, no lapsed override |
| ScheduleProofs.NormalizeNormalizes | crates/scribe-core/src/schedule.rs:164-184 | the result is evaluable, normalizing again changes nothing, and a good policy is left alone |
| ScheduleProofs.CoversIff | crates/scribe-core/src/schedule.rs:246-263 | a day's window, in seconds: from its start to its end, on the next day when the end is no later than the start |
| Schedule.ProcessingSchedule.Merged | crates/scribe-core/src/schedule.rs:246-275 | the loops compute the table the claims below are about |
| ScheduleProofs.SortSorts | crates/scribe-core/src/schedule.rs:265 | sorting orders by start and keeps the windows |
| ScheduleProofs.MergeSeparates | crates/scribe-core/src/schedule.rs:266-273 | merged windows are ordered and strictly apart |
| ScheduleProofs.MergeKeepsUnion | crates/scribe-core/src/schedule.rs:266-273 | merging loses no instant and adds none |
| ScheduleProofs.MergedIsFaithful | crates/scribe-core/src/schedule.rs:246-275 | the whole table: ordered, strictly apart, the same instants as the days visited, each day's window whole in one of its windows |
| ScheduleProofs.CoveredByRecentDay | crates/scribe-core/src/schedule.rs:248-249 | of the whole calendar, only yesterday's and today's windows can contain an instant |
| ScheduleProofs.AllowedIff | crates/scribe-core/src/schedule.rs:246-263 | the whole calendar allows an instant exactly when the clock reads within today's window or what is left of yesterday's |
| ScheduleProofs.DecideMeansCovered | crates/scribe-core/src/schedule.rs:197-236 | with the schedule on and no live override, allowed exactly when some calendar day's window contains the instant |
| Schedule.ProcessingSchedule.DecideAt | crates/scribe-core/src/schedule.rs:197-236 | decides as the function the claims are about; a live override decides alone, allowing exactly when its mode is to run, until it ends; without one, a schedule that is off allows everything |
| ScheduleProofs.DecisionIs | crates/scribe-core/src/schedule.rs:197-236 | every decision: live override, schedule off, inside or outside a window, each with its verdict and reason, and its countdown where no window is consulted |
| ScheduleProofs.OverrideLapses | crates/scribe-core/src/schedule.rs:197-213 | from the end of an override on, the policy decides as if it had never been set |
| ScheduleProofs.OpenCountdown | crates/scribe-core/src/schedule.rs:222-229 | open: open until the reported change and shut at it, unless the merged window reaches the eighth midnight after today's |
| ScheduleProofs.ClosedCountdown | crates/scribe-core/src/schedule.rs:230-236 | closed: closed until the reported change, and open at it exactly unless that is the midnight after a day on from 1440 to 0 and the day beginning there is not on from 0 |
| ScheduleProofs.ClosedForGoodIff | crates/scribe-core/src/schedule.rs:230-236 | the countdown is missing exactly when no day is on, and then no instant is ever allowed |
| ScheduleProofs.VerdictHoldsUntilChange | crates/scribe-core/src/schedule.rs:152-160 | any policy's verdict holds until the change it reports |
| ScheduleProofs.ZeroLengthIff | crates/scribe-core/src/schedule.rs:64-71 | a window has length zero exactly when it runs from 1440 to 0 |
| ScheduleProofs.ZeroLengthBreaksCountdown | crates/scribe-core/src/schedule.rs:64-71 | a policy and instant for which the named opening does not come, nor any other |
| Schedule.ClaimableKinds | crates/scribe-core/src/schedule.rs:284-293 | a kind is claimable exactly when configured and either allowed or exempt from the schedule |
| StageWindow.RunWithinWindow | crates/scribe-pipeline/src/worker.rs:340-382 | a stage is abandoned exactly at the first check ending an unbroken closed run of at least the grace period, never if it bypasses the schedule |
| StageWindow.NoOverrunYet | crates/scribe-pipeline/src/worker.rs:356-378 | the longest closed run ending at a check decides |
| StageWindow.RetryDelay | crates/scribe-pipeline/src/worker.rs:384-392 | the reported change, but no less than a minute; an hour when no change is reported |
| StageWindow.PutDownUntilReopening | crates/scribe-db/src/queue.rs:258-271 | the job put down keeps its attempts, is closed throughout to the reported change, and can be claimed exactly under an open verdict from the end of the delay on |
| EditDistance.ComputeDistance | crates/scribe-pipeline/examples/transcript_check.rs:392-404 | the two overwritten rows compute the recurrence |
| EditDistance.NoScriptIsCheaper | crates/scribe-pipeline/examples/transcript_check.rs:390-404 | no edit script turning one list into the other costs less |
| EditDistance.SomeScriptCostsIt | crates/scribe-pipeline/examples/transcript_check.rs:390-404 | and one costs exactly this much |
| EditDistance.Symmetric | crates/scribe-pipeline/examples/transcript_check.rs:392-404 | the same in both directions |
| EditDistance.ZeroIffEqual | crates/scribe-pipeline/examples/transcript_check.rs:392-404 | zero exactly for equal lists |
| EditDistance.Compose | crates/scribe-pipeline/examples/transcript_check.rs:390-404 | scripts compose at no more than their joint cost |
| EditDistance.Triangle | crates/scribe-pipeline/examples/transcript_check.rs:392-404 | the triangle inequality |
| Chunking.BuildChunks | crates/scribe-pipeline/src/stages/embed.rs:86-106 | turn by turn and in order: nothing for a blank one, one chunk for a short or untimed one, its windows for a long one |
| Chunking.TurnGives | crates/scribe-pipeline/src/stages/embed.rs:88-104 | a blank turn gives nothing; one of at most 45 s, or without timed words, its text without surrounding white space; any other its windows |
| Chunking.TrimIs | crates/scribe-pipeline/src/stages/embed.rs:89 | only white space is taken off, and none is left at either end |
| Chunking.WindowUtterance | crates/scribe-pipeline/src/stages/embed.rs:109-148 | one chunk for each window that captured a word |
| Chunking.CapturedIff | crates/scribe-pipeline/src/stages/embed.rs:113-119 | which words a window captures |
| Chunking.JoinTwo | crates/scribe-pipeline/src/stages/embed.rs:139 | one word's text is that word, two stretches' are theirs with one blank between |
| Chunking.JoinSpaces | crates/scribe-pipeline/src/stages/embed.rs:139 | each word stands in the text, in order, one blank behind the word before, and nothing else does |
| Chunking.ChunkReads | crates/scribe-pipeline/src/stages/embed.rs:120-141 | a chunk reads as its captured words in order, from the first one's start to the latest end |
| Chunking.WindowsAreStrided | crates/scribe-pipeline/src/stages/embed.rs:110-147 | windows start 40 s apart and number exactly ceil((S - 45000) / 40000) + 1 for a span over 45 s |
| Chunking.LastWindowReachesEnd | crates/scribe-pipeline/src/stages/embed.rs:143-145 | the last window reaches the end of the turn and no earlier one does |
| Chunking.WordIsCapturedIff | crates/scribe-pipeline/src/stages/embed.rs:114-119 | a word, of no length too, is in some chunk exactly when it sounds within the turn |
| Chunking.WordIsCaptured | crates/scribe-pipeline/src/stages/embed.rs:114-119 | which window captures it |
| Chunking.CapturedWordsOverlap | crates/scribe-pipeline/src/stages/embed.rs:114-119 | only words sounding within the turn are |
| Chunking.ChunksCoverWords | crates/scribe-pipeline/src/stages/embed.rs:109-148 | no word is lost: it stands in the text of some chunk; and one of at most 35 s is captured for at most two chunks, from consecutive windows |
| Chunking.HeardInOrder | crates/scribe-pipeline/src/stages/embed.rs:114-119 | the words captured keep their order |
| Chunking.NoChunkIff | crates/scribe-pipeline/src/stages/embed.rs:120 | a long turn gives no chunk exactly when none of its words sounds within it |
| Chunking.ChunkSpan | crates/scribe-pipeline/src/stages/embed.rs:121-141 | a chunk is shorter than 45 s plus twice the longest word |
| Karaoke.Tokens | ios/Scribe/Services/Karaoke.swift:34-72 | the loops compute what the claims below are about |
| Karaoke.SplitWord | ios/Scribe/Services/Karaoke.swift:35 | a displayed word is kept whole |
| Karaoke.SplitAtSpace | ios/Scribe/Services/Karaoke.swift:35 | white space separates displayed words, and nothing else is dropped or moved |
| KaraokeTiming.TimedInOrder | ios/Scribe/Services/Karaoke.swift:37 | the words that take time keep their order |
| Karaoke.FindAnchors | ios/Scribe/Services/Karaoke.swift:42-51 | each displayed word takes the first like word within the look-ahead |
| Karaoke.AnchorsMatch | ios/Scribe/Services/Karaoke.swift:42-51 | anchored words read alike, and anchors only move forward |
| KaraokeTiming.AnchoredToFirst | ios/Scribe/Services/Karaoke.swift:42-51 | over the whole line: a displayed word is anchored to the first like one of the four behind the last anchor, and to none exactly when none is like it |
| Karaoke.Interpolate | ios/Scribe/Services/Karaoke.swift:97-106 | a gap is shared by letters |
| Karaoke.InterpolatedIsTimely | ios/Scribe/Services/Karaoke.swift:97-106 | the shares fill the gap in order and end at its end |
| KaraokeTiming.SharedByLetters | ios/Scribe/Services/Karaoke.swift:97-106 | a word of a gap starts when the letters before it have had their share, and ends with its own |
| KaraokeTiming.RoundIs | ios/Scribe/Services/Karaoke.swift:104 | times are rounded to the nearest millisecond, halves away from zero |
| KaraokeTiming.GapIsShared | ios/Scribe/Services/Karaoke.swift:64-69 | the words between two anchors share the time between them |
| KaraokeTiming.TimedLine | ios/Scribe/Services/Karaoke.swift:53-71 | every word of a line: its anchor's times, or its share of its gap, which opens and closes with the line at the ends |
| KaraokeTiming.UntimedLine | ios/Scribe/Services/Karaoke.swift:38-40 | a line without timed words shares the whole utterance, if it takes time |
| Karaoke.ShownInOrder | ios/Scribe/Services/Karaoke.swift:34-72 | exactly the displayed words, starts in order, each ending by the next start, all within the utterance and its words, for ordered words that do not overlap |
| Karaoke.LayoutTexts | ios/Scribe/Services/Karaoke.swift:53-71 | each token carries its displayed word, an anchored one its word's times |
| Karaoke.UneditedKeepsTimes | ios/Scribe/Services/Karaoke.swift:6-9 | a line nobody edited keeps every recognised time |
| Karaoke.LastStarted | ios/Scribe/Services/Karaoke.swift:75-82 | on a list sorted by start, the items started are exactly those up to the index found |
| Karaoke.ActiveToken | ios/Scribe/Services/Karaoke.swift:85-89 | the last token lit at that moment, as a linear scan would find it; none exactly when none is lit |
| Wav.ParseWav | crates/scribe-asr/src/wav.rs:59-123 | the walk reads as the function the claims are about, errors included |
| Wav.ParsedGathers | crates/scribe-asr/src/wav.rs:64-97 | any list of well-formed chunks is read back in order |
| WavSamples.CutShort | crates/scribe-asr/src/wav.rs:69-74 | a last chunk announcing more than there is gets what there is |
| Wav.LastOnesWin | crates/scribe-asr/src/wav.rs:76-92 | the last format and the last data win; a short format chunk is refused wherever it stands |
| Wav.UnknownChunkIsSkipped | crates/scribe-asr/src/wav.rs:90-97 | an unknown chunk, padded when odd, changes nothing anywhere |
| WavSamples.NotRiffIff | crates/scribe-asr/src/wav.rs:60-62 | refused as no RIFF file exactly when the header does not spell it |
| WavSamples.TakenIff | crates/scribe-asr/src/wav.rs:76-116 | a chunk list is taken exactly when every format can be read, format and data are there, and the last format is one of tags 1, 3 and 0xFFFE at a depth it allows |
| WavSamples.RefusedBecause | crates/scribe-asr/src/wav.rs:76-116 | otherwise the first fault, in order, is the error |
| WavSamples.FieldsReadBack | crates/scribe-asr/src/wav.rs:81-85 | the four fields are read from where a format chunk puts them |
| WavSamples.Pcm8At | crates/scribe-asr/src/wav.rs:132-136 | 8-bit samples, from their byte |
| WavSamples.Pcm16At | crates/scribe-asr/src/wav.rs:137-140 | 16-bit samples, from their two bytes |
| WavSamples.Pcm24At | crates/scribe-asr/src/wav.rs:141-149 | 24-bit samples, from their three bytes |
| WavSamples.Pcm32At | crates/scribe-asr/src/wav.rs:150-153 | 32-bit samples, from their four bytes |
| WavSamples.FloatAt | crates/scribe-asr/src/wav.rs:128-131 | float samples, from their four bytes |
| WavSamples.ParsedFrames | crates/scribe-asr/src/wav.rs:100-123 | of any parsed file: rate and channels are the format's, and the samples are one mean for each whole frame of the decoded samples |
| WavSamples.TotalIs | crates/scribe-asr/src/wav.rs:159-169 | what a mean adds up |
| WavSamples.Stereo16 | crates/scribe-asr/src/wav.rs:159-169 | a 16-bit stereo file: each sample is the mean of left and right |
| Wav.PcmStaysInRange | crates/scribe-asr/src/wav.rs:125-169 | integer samples of every depth stay in [-1, 1], also when channels are averaged |
| Wav.AveragesAt | crates/scribe-asr/src/wav.rs:159-169 | each whole frame gives the mean of its channels, a frame cut short none |
| Wav.ReadPrinted | crates/scribe-asr/src/wav.rs:40-50 | little-endian words read back, cut to their width |
| Wav.WritePcm16Mono | crates/scribe-asr/src/wav.rs:173-198 | the writer's bytes, or its stop at a 32-bit sum that overflows where the build checks that |
| WavSamples.WrittenSizes | crates/scribe-asr/src/wav.rs:173-191 | the header announces the size of what follows it and the bytes of a second of sound |
| Wav.RoundTripIff | crates/scribe-asr/src/wav.rs:173-198 | parsing what is written gives back rate, one channel and every sample over 32768, exactly when fewer than 2^31 samples were written and, in a build that checks overflow, the rate is below 2^31 and 36 plus the data size below 2^32 |
| Recorder.SegmentedRecorder.constructor | ios/Scribe/Recording/SegmentedRecorder.swift:51-55 | a fresh recorder tiles nothing |
| Recorder.SegmentedRecorder.Start | ios/Scribe/Recording/SegmentedRecorder.swift:61-76 | starts exactly when some allowed bit rate opens a file |
| Recorder.SegmentedRecorder.Write | ios/Scribe/Recording/SegmentedRecorder.swift:188-201 | counts a buffer only when kept, and rotates at the limit |
| Recorder.SegmentedRecorder.OpenNextFile | ios/Scribe/Recording/SegmentedRecorder.swift:205-223 | open exactly when the asked-for rate, or 32 or 24 kbit/s not above it, is accepted, at the first of these that is; starts at the frame reached |
| Recorder.RatesAre | ios/Scribe/Recording/SegmentedRecorder.swift:208 | the asked-for rate first, then the lower ones, none above it |
| Recorder.SegmentedRecorder.CloseFile | ios/Scribe/Recording/SegmentedRecorder.swift:225-240 | hands on a segment exactly when the file holds audio |
| Recorder.SegmentedRecorder.Stop | ios/Scribe/Recording/SegmentedRecorder.swift:89-107 | closes the last segment; the segments then end where the audio does |
| Recorder.DidTiles | ios/Scribe/Recording/SegmentedRecorder.swift:188-240 | every operation keeps the tiling |
| Recorder.RecordingTiles | ios/Scribe/Recording/SegmentedRecorder.swift:188-240 | over any recording: numbers 0, 1, 2, …, each segment starting where the last ended, frames summing to the audio kept, all but the last full |
| Recorder.RotationIsPrompt | ios/Scribe/Recording/SegmentedRecorder.swift:193-196 | over any recording with buffers up to a size, every segment is shorter than the limit plus that size |
| Recorder.GapsAreTiny | ios/Scribe/Recording/SegmentedRecorder.swift:234-237 | rounding leaves a gap of 0 or 1 ms at each boundary |
| Recorder.DurationsAddUp | ios/Scribe/Recording/SegmentedRecorder.swift:234-237 | durations sum to the total, short by less than 1 ms each |
| Recorder.PausedIff | ios/Scribe/Recording/SegmentedRecorder.swift:188-189 | buffers are dropped exactly from a pause to the next resumption |
| Recorder.OpenIff | ios/Scribe/Recording/SegmentedRecorder.swift:188-223 | a file is open exactly when every rotation so far could open one |
| Recorder.NothingMoreIsKeptIff | ios/Scribe/Recording/SegmentedRecorder.swift:188-223 | nothing is ever kept again, whatever arrives, exactly when no file is open |
| Recorder.ClosedStaysClosed | ios/Scribe/Recording/SegmentedRecorder.swift:219-222 | then no segment is handed on either, and no file opens again |
| Recorder.RotationMayLoseTheRest | ios/Scribe/Recording/SegmentedRecorder.swift:193-196 | one buffer that fills a segment, and no file for the next, gets there |
| UploadQueue.HappensOk | ios/Scribe/Recording/RecordingSession.swift:140-161 | recorder, main thread and disk keep: every segment handed on is listed or waiting to be, `finished` comes after all of them, and audio the server lacks is on disk unless the phone lost it |
| UploadQueue.MarksAndLengthArrive | ios/Scribe/Recording/RecordingSession.swift:131-161 | whatever the order of events, the marks made and the length reach the list, and it is finished once the main thread has caught up |
| UploadQueue.PassedAllOk | ios/Scribe/Recording/UploadQueue.swift:97-145 | whatever goes on during a wait keeps that for every recording and leaves the uploader's own progress alone |
| UploadQueue.UploadedOk | ios/Scribe/Recording/UploadQueue.swift:118-133 | flagging and deleting a segment is safe once acknowledged or found missing |
| UploadQueue.RemovedOk | ios/Scribe/Recording/UploadQueue.swift:135-144 | removing a finished recording with nothing pending is safe: every segment ever handed on is acknowledged or was lost, and completion was answered |
| UploadQueue.UploadQueue.Send | ios/Scribe/Recording/UploadQueue.swift:118-133 | a segment counts as acknowledged exactly when its upload was answered with success; its file then goes, and a refusal is thrown as it came |
| UploadQueue.UploadQueue.Create | ios/Scribe/Recording/UploadQueue.swift:109-116 | the server's id is recorded from its answer, once |
| UploadQueue.UploadQueue.SendAll | ios/Scribe/Recording/UploadQueue.swift:118-133 | sends what was pending, lowest number first, with no more requests than that; stops at the first refusal |
| UploadQueue.UploadQueue.Complete | ios/Scribe/Recording/UploadQueue.swift:135-144 | removed with its files exactly when finished with all up and completion was accepted or answered 409 |
| UploadQueue.UploadQueue.Discard | ios/Scribe/Recording/UploadQueue.swift:101-107 | a stopped recording without audio is forgotten, and had none |
| UploadQueue.UploadQueue.Process | ios/Scribe/Recording/UploadQueue.swift:97-145 | in every interleaving keeps all of the above; throws exactly the first answer that is no success (409 to completion aside); and without error strictly lowers the work left, new segments apart |
| UploadQueue.LessLeft | ios/Scribe/Recording/UploadQueue.swift:97-145 | created and sent, less is left than before, or only completion |
| UploadQueue.UploadQueue.NextWork | ios/Scribe/Recording/UploadQueue.swift:87-94 | the oldest recording with something left; none exactly when nothing is left |
| UploadQueue.UploadQueue.Drain | ios/Scribe/Recording/UploadQueue.swift:57-85 | terminates, round by round: after success at once, after any failure but a rejection or cancellation with the failure noted and after the back-off; ends unauthorized only when the last answer was 401 or 403, cancelled only when it was a cancellation or none was left; when drained, only recordings still being recorded remain, with all they have so far sent |
| UploadQueue.OutcomesDecide | ios/Scribe/Recording/UploadQueue.swift:61-84 | over any drain: it gives up exactly when the last round was rejected or cancelled, and every other failure was followed by a back-off of its length |
| UploadQueue.RejectionEnds | ios/Scribe/Recording/UploadQueue.swift:71-75 | 401 or 403 in answer to creating, sending or completing ends it there and then |
| UploadQueue.UploadQueue.Attempt | ios/Scribe/Recording/UploadQueue.swift:67-83 | one round: what came of a recording decides whether to go on, back off or stop |
| UploadQueue.UploadQueue.BackOff | ios/Scribe/Recording/UploadQueue.swift:78-83 | one more failure doubles the wait, a kick starts it over |
| UploadQueue.BackoffDoubles | ios/Scribe/Recording/UploadQueue.swift:10-11 | 2 s doubling to 5 min: 2^(n+1) below eight failures, then 300 |
| UploadQueue.TotalShrinks | ios/Scribe/Recording/UploadQueue.swift:62-70 | a round without error or waiting leaves less to do in all |
| UploadQueue.RushedFinishIsSafeIff | ios/Scribe/Recording/RecordingSession.swift:150-159 | were `finished` set at once, not behind the queued saves, audio would be lost exactly when a save was queued for a segment whose file is there |
| UploadQueue.RushedFinishLosesTail | ios/Scribe/Recording/RecordingSession.swift:150-159 | and that can happen |

## Left out

- Jobs without a recording, deleting a recording, re-indexing, and the inline driver that runs a pipeline without job rows.
- The SELECT with which `enqueue` returns an existing row: enqueue is its INSERT.
- Error and payload columns, and priorities in the state machine, where any claimable row may be claimed; `JobTable.JobQueue.ClaimOne` has the order.
- Failing SQL statements, connection loss and NOTIFY; the poll makes waking irrelevant to safety.
- Stage bodies: what transcode, diarize, transcribe, merge, embed and summarize compute.
- The explicit summarize request is in the model but not gated, as in the code, so gating says nothing of summarize rows.
- A schedule edited while a stage runs, daylight saving, and sub-second times: policy fixed, wall clock in step with UTC, whole seconds.
- Calendar dates beyond the library's range, where the code skips a day.
- ProtocolJoins.JoinedStep: the ready mark is a history flag, because the stored status may leave ready again; `ProtocolProgress.ReadyIsLeftIff` says exactly how.
- ScheduleProofs.OpenCountdown: at a change at or past the eighth midnight after today's the calendar may still be open; the claim says exactly when.
- Unicode white space and letter counts: a displayed word is split at blanks, tabs and line ends, and `normalize` is any function on words.
- Floating point: interpolation, samples and averages are exact reals; an IEEE sample is any function of its four bytes.
- Audio engine, level meter, interruptions and the Live Activity: the recorder is its frame counters and files.
- A recording whose recorder does not start is added and removed in one turn of the main thread, so nothing can come between.
- An app killed while recording: its entry stays unfinished and is not completed.
- Requests the server carried out but whose answer was lost: only answers count.
- UploadQueue.UploadQueue.Process: the coming waits are given as a list of what goes on meanwhile and how each is answered; a wait past its end counts as cancelled.
- UploadQueue.UploadQueue.Drain: the main thread's queue is kept per recording, because its messages about different recordings do not affect each other.
- Starting the uploader (`kick` when no uploader runs), background time, and the user interface.
