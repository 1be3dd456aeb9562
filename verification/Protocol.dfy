/**
 Workers, the reaper and the HTTP handlers sharing one jobs table, as a state
 machine. A task is one handler or one spawned job run; its constructor is its
 program counter, and every action is one SQL statement, one passage of time or
 one request. Any enabled action may come next, so all interleavings are covered.
 */
module Protocol {
  import opened Types
  import opened JobTable

  /** `lease` is three heartbeats; `backoff` the base retry delay. */
  datatype Config = Config(maxAttempts: int, lease: nat, backoff: nat)

  datatype Task =
    /** A stage body is running under the worker's lease. */
    | InStage(worker: nat, job: nat, rec: nat, kind: JobKind)
    /** `fail` has read the attempts and owes its UPDATE. */
    | Failing(job: nat, rec: nat, kind: JobKind, next: nat)
    /** Attempts are used up; the recording is still to be marked failed. */
    | MarkFailed(rec: nat)
    /** Past `complete`: `rest` are the successors not yet considered, `checked`
        that the gate of the first one answered yes. */
    | Succeeding(rec: nat, kind: JobKind, rest: seq<JobKind>, checked: bool)
    | ReadyCheck(rec: nat)
    | ReadyMark(rec: nat)
    /** Live transcription about to re-read the recording's status. */
    | LiveStatus(rec: nat)
    /** … having read `uploading`, about to count untranscribed segments. */
    | LiveCount(rec: nat)
    /** An enqueue is the only thing left to do. */
    | OweEnqueue(rec: nat, kind: JobKind)
    /** `complete_recording`, having read `uploading`. */
    | Completing(rec: nat)
    /** `put_segment`, having read the status and not yet inserted the segment. */
    | Inserting(rec: nat, segment: nat, sawUploading: bool)

  /**
   A recording. `transcript`: a stored transcript artifact exists. `readyMarked`
   (set to ready since the last reset) and `liveInserts` (live jobs ever inserted)
   are history.
   */
  datatype Recording = Recording(
    status: RecordingStatus,
    transcript: bool,
    untranscribed: set<nat>,
    transcribed: set<nat>,
    readyMarked: bool,
    liveInserts: nat)

  datatype State = State(
    now: int,
    jobs: Table,
    nextId: nat,
    recs: map<nat, Recording>,
    tasks: map<nat, Task>,
    nextTask: nat)

  const INIT := State(0, map[], 0, map[], map[], 0)

  // ------------------------------------------------------------- effects

  /** What one statement does to the jobs table … */
  datatype RowChange =
    | SameRows
    | WriteRow(id: nat, row: Job)
    | NewRow(row: Job)
    | DropRows(rec: nat, onlyRunAgain: bool)

  /** … to the tasks … */
  datatype TaskChange =
    | SameTasks
    | NewTask(task: Task)
    | WriteTask(tid: nat, task: Task)
    | EndTask(tid: nat)

  /** … and to the recordings. */
  datatype RecChange =
    | SameRecs
    | WriteRec(rec: nat, value: Recording)

  datatype Effect = Effect(rows: RowChange, tasks: TaskChange, recs: RecChange)

  /** The stages a re-diarization runs again. */
  predicate RunAgain(k: JobKind) {
    k.Diarize? || k.Merge? || k.Embed? || k.Summarize?
  }

  function PerformRows(s: State, e: RowChange): Table {
    match e
    case SameRows => s.jobs
    case WriteRow(id, row) => s.jobs[id := row]
    case NewRow(row) => s.jobs[s.nextId := row]
    case DropRows(r, again) =>
      map id | id in s.jobs && !(s.jobs[id].rec == r && (again ==> RunAgain(s.jobs[id].kind))) :: s.jobs[id]
  }

  function PerformTasks(s: State, e: TaskChange): map<nat, Task> {
    match e
    case SameTasks => s.tasks
    case NewTask(task) => s.tasks[s.nextTask := task]
    case WriteTask(tid, task) => s.tasks[tid := task]
    case EndTask(tid) => s.tasks - {tid}
  }

  function PerformRecs(s: State, e: RecChange): map<nat, Recording> {
    match e
    case SameRecs => s.recs
    case WriteRec(r, value) => s.recs[r := value]
  }

  function Perform(s: State, e: Effect): State {
    State(s.now,
          PerformRows(s, e.rows), if e.rows.NewRow? then s.nextId + 1 else s.nextId,
          PerformRecs(s, e.recs),
          PerformTasks(s, e.tasks), if e.tasks.NewTask? then s.nextTask + 1 else s.nextTask)
  }

  /** `INSERT … ON CONFLICT DO NOTHING` of one job. */
  function InsertRow(s: State, r: nat, k: JobKind): RowChange {
    if HasLive(s.jobs, r, k) then SameRows else NewRow(FreshJob(r, k, 0, s.now))
  }

  /** The history that goes with it: live jobs are counted. */
  function CountInsert(s: State, r: nat, k: JobKind): RecChange
    requires r in s.recs
  {
    if k.TranscribeSegment? && !HasLive(s.jobs, r, k)
    then WriteRec(r, s.recs[r].(liveInserts := s.recs[r].liveInserts + 1)) else SameRecs
  }

  // ------------------------------------------------------------- workers

  /** What a worker owes right after `complete`. */
  function AfterComplete(r: nat, k: JobKind): Task {
    match k
    case Embed => ReadyCheck(r)
    case Summarize => ReadyCheck(r)
    case TranscribeSegment => LiveStatus(r)
    case _ => Succeeding(r, k, Successors(k), false)
  }

  /** Move past the first of `rest`. */
  function NextSuccessor(tid: nat, r: nat, k: JobKind, rest: seq<JobKind>): TaskChange
    requires rest != []
  {
    if |rest| == 1 then EndTask(tid) else WriteTask(tid, Succeeding(r, k, rest[1..], false))
  }

  predicate CanAdvance(s: State, tid: nat) {
    && tid in s.tasks && !s.tasks[tid].InStage?
    && s.tasks[tid].rec in s.recs
    && (s.tasks[tid].Failing? ==> s.tasks[tid].next >= 1)
    && (s.tasks[tid].Succeeding? ==> s.tasks[tid].rest != [])
  }

  /** The next SQL statement of a task that is past its stage. */
  function Advance(c: Config, s: State, tid: nat): Effect
    requires CanAdvance(s, tid)
  {
    var task := s.tasks[tid];
    var rec := s.recs[task.rec];
    match task
    case InStage(_, _, _, _) => Effect(SameRows, SameTasks, SameRecs)
    case Failing(job, r, _, next) =>
      Effect(if job !in s.jobs then SameRows
             else WriteRow(job, FailRow(s.jobs[job], next, c.maxAttempts, c.backoff, s.now)),
             if next < c.maxAttempts then EndTask(tid) else WriteTask(tid, MarkFailed(r)),
             SameRecs)
    case MarkFailed(r) => Effect(SameRows, EndTask(tid), WriteRec(r, rec.(status := RecordingStatus.Failed)))
    case Succeeding(r, k, rest, checked) =>
      if checked then Effect(InsertRow(s, r, rest[0]), NextSuccessor(tid, r, k, rest), CountInsert(s, r, rest[0]))
      else if PredecessorsDone(s.jobs, r, rest[0]) then
        Effect(SameRows, WriteTask(tid, Succeeding(r, k, rest, true)), SameRecs)
      else Effect(SameRows, NextSuccessor(tid, r, k, rest), SameRecs)
    case ReadyCheck(r) =>
      var both := HasDone(s.jobs, r, Embed) && HasDone(s.jobs, r, Summarize);
      Effect(SameRows, if both then WriteTask(tid, ReadyMark(r)) else EndTask(tid), SameRecs)
    case ReadyMark(r) => Effect(SameRows, EndTask(tid), WriteRec(r, rec.(status := Ready, readyMarked := true)))
    case LiveStatus(r) =>
      Effect(SameRows, if rec.status.Uploading? then WriteTask(tid, LiveCount(r)) else EndTask(tid), SameRecs)
    case LiveCount(r) =>
      Effect(SameRows,
             if rec.untranscribed != {} then WriteTask(tid, OweEnqueue(r, TranscribeSegment)) else EndTask(tid),
             SameRecs)
    case OweEnqueue(r, k) => Effect(InsertRow(s, r, k), EndTask(tid), CountInsert(s, r, k))
    case Completing(r) =>
      Effect(SameRows, WriteTask(tid, OweEnqueue(r, Transcode)), WriteRec(r, rec.(status := Processing)))
    case Inserting(r, segment, saw) =>
      Effect(SameRows,
             if saw then WriteTask(tid, OweEnqueue(r, TranscribeSegment)) else EndTask(tid),
             if segment in rec.transcribed then SameRecs
             else WriteRec(r, rec.(untranscribed := rec.untranscribed + {segment})))
  }

  // ------------------------------------------------------------- actions

  datatype Action =
    | Tick(to: int)
    | Claim(job: nat, worker: nat)
    | Heartbeat(tid: nat)
    | StoreTranscript(tid: nat)
    | MarkTranscribed(tid: nat, segment: nat)
    | StageOk(tid: nat)
    | StageError(tid: nat)
    | StageDeferred(tid: nat, delay: nat)
    /** The process running this task is gone. */
    | Die(tid: nat)
    /** The next statement of a task that is past its stage. */
    | Step(tid: nat)
    /** One row of a reaper statement; the statement is a run of these. */
    | Reap(job: nat)
    | CreateRecording(rec: nat)
    | PutSegment(rec: nat, segment: nat)
    | CompleteRecording(rec: nat)
    | Reprocess(rec: nat)
    | Rediarize(rec: nat)
    | SummarizeRecording(rec: nat)

  predicate Enabled(c: Config, s: State, a: Action) {
    match a
    case Tick(to) => s.now <= to
    case Claim(job, _) => job in s.jobs && s.jobs[job].state.Queued? && s.jobs[job].runAfter <= s.now
    case Heartbeat(tid) => tid in s.tasks && s.tasks[tid].InStage?
    case StoreTranscript(tid) =>
      tid in s.tasks && s.tasks[tid].InStage? && s.tasks[tid].kind.Transcribe? && s.tasks[tid].rec in s.recs
    case MarkTranscribed(tid, segment) =>
      && tid in s.tasks && s.tasks[tid].InStage? && s.tasks[tid].kind.TranscribeSegment?
      && s.tasks[tid].rec in s.recs && segment in s.recs[s.tasks[tid].rec].untranscribed
    case StageOk(tid) => tid in s.tasks && s.tasks[tid].InStage?
    case StageError(tid) => tid in s.tasks && s.tasks[tid].InStage?
    case StageDeferred(tid, _) => tid in s.tasks && s.tasks[tid].InStage? && !BypassesSchedule(s.tasks[tid].kind)
    case Die(tid) => tid in s.tasks
    case Step(tid) => tid in s.tasks && CanAdvance(s, tid)
    case Reap(job) => job in s.jobs && Expired(s.jobs[job], c.lease, s.now)
    case CreateRecording(r) => r !in s.recs
    case PutSegment(r, _) => r in s.recs
    case CompleteRecording(r) => r in s.recs && s.recs[r].status.Uploading?
    case Reprocess(r) => r in s.recs
    case Rediarize(r) => r in s.recs && s.recs[r].transcript
    case SummarizeRecording(r) => r in s.recs
  }

  function Outcome(c: Config, s: State, a: Action): Effect
    requires Enabled(c, s, a)
  {
    match a
    case Tick(_) => Effect(SameRows, SameTasks, SameRecs)
    case Claim(job, worker) =>
      var j := s.jobs[job];
      Effect(WriteRow(job, ClaimRow(j, worker, s.now)), NewTask(InStage(worker, job, j.rec, j.kind)), SameRecs)
    case Heartbeat(tid) =>
      var t := s.tasks[tid];
      Effect(if t.job in s.jobs && s.jobs[t.job].state.Running? && s.jobs[t.job].lockedBy == Some(t.worker)
             then WriteRow(t.job, s.jobs[t.job].(lockedAt := Some(s.now))) else SameRows,
             SameTasks, SameRecs)
    case StoreTranscript(tid) =>
      var r := s.tasks[tid].rec;
      Effect(SameRows, SameTasks, WriteRec(r, s.recs[r].(transcript := true)))
    case MarkTranscribed(tid, segment) =>
      var r := s.tasks[tid].rec;
      var rec := s.recs[r];
      Effect(SameRows, SameTasks,
             WriteRec(r, rec.(untranscribed := rec.untranscribed - {segment},
                              transcribed := rec.transcribed + {segment})))
    case StageOk(tid) =>
      var t := s.tasks[tid];
      Effect(if t.job in s.jobs then WriteRow(t.job, CompleteRow(s.jobs[t.job])) else SameRows,
             WriteTask(tid, AfterComplete(t.rec, t.kind)), SameRecs)
    case StageError(tid) =>
      // Reading the attempts of a row that is gone is an error that ends it.
      var t := s.tasks[tid];
      Effect(SameRows,
             if t.job !in s.jobs then EndTask(tid)
             else WriteTask(tid, Failing(t.job, t.rec, t.kind, s.jobs[t.job].attempts + 1)),
             SameRecs)
    case StageDeferred(tid, delay) =>
      var t := s.tasks[tid];
      Effect(if t.job in s.jobs then WriteRow(t.job, DeferRow(s.jobs[t.job], delay, s.now)) else SameRows,
             EndTask(tid), SameRecs)
    case Die(tid) => Effect(SameRows, EndTask(tid), SameRecs)
    case Step(tid) => Advance(c, s, tid)
    case Reap(job) =>
      var j := ReapRow(s.jobs[job], c.maxAttempts);
      Effect(WriteRow(job, j), if j.state.Failed? then NewTask(MarkFailed(j.rec)) else SameTasks, SameRecs)
    case CreateRecording(r) => Effect(SameRows, SameTasks, WriteRec(r, Recording(Uploading, false, {}, {}, false, 0)))
    case PutSegment(r, segment) =>
      Effect(SameRows, NewTask(Inserting(r, segment, s.recs[r].status.Uploading?)), SameRecs)
    case CompleteRecording(r) => Effect(SameRows, NewTask(Completing(r)), SameRecs)
    case Reprocess(r) =>
      Effect(DropRows(r, false), NewTask(OweEnqueue(r, Transcode)),
             WriteRec(r, s.recs[r].(transcript := false, readyMarked := false, status := Processing)))
    case Rediarize(r) =>
      Effect(DropRows(r, true), NewTask(OweEnqueue(r, Diarize)),
             WriteRec(r, s.recs[r].(readyMarked := false, status := Processing)))
    case SummarizeRecording(r) => Effect(InsertRow(s, r, Summarize), SameTasks, CountInsert(s, r, Summarize))
  }

  function Apply(c: Config, s: State, a: Action): State
    requires Enabled(c, s, a)
  {
    if a.Tick? then s.(now := a.to) else Perform(s, Outcome(c, s, a))
  }

  // ------------------------------------------------------------ premises

  /** This task owns the lease of `job`. */
  predicate Holds(t: Task, job: nat) {
    (t.InStage? || t.Failing?) && t.job == job
  }

  /** Every live holder's last stamp is at most a lease old at time `to`. */
  predicate Punctual(c: Config, s: State, to: int) {
    forall tid | tid in s.tasks && (s.tasks[tid].InStage? || s.tasks[tid].Failing?) && s.tasks[tid].job in s.jobs ::
      s.jobs[s.tasks[tid].job].lockedAt.Some? ==> to - c.lease <= s.jobs[s.tasks[tid].job].lockedAt.value
  }

  /** A gate this task found open, and will insert behind; explicit summaries are not gated. */
  predicate ActsOnGate(t: Task) {
    t.Succeeding? && t.checked && t.rest != [] && !t.rest[0].Summarize?
  }

  /** A task whose next statement acts on an answer that deleting all rows of `r` makes untrue. */
  predicate ActsOnStaleAnswer(t: Task, r: nat) {
    t.rec == r && (ActsOnGate(t) || t.ReadyMark? || (t.OweEnqueue? && t.kind.Diarize?))
  }

  /** The same for the rows a re-diarization deletes: diarize and later are gone. */
  predicate ActsOnStaleLabels(t: Task, r: nat) {
    t.rec == r && ((ActsOnGate(t) && (t.rest[0].Merge? || t.rest[0].Embed?)) || t.ReadyMark?)
  }

  /**
   What the guarantees below are conditional on: leases are renewed in time; a
   process dies only inside a stage, never between `complete` and the last
   statement it owes; a reset does not come between an answer and the statement
   that acts on it; and a re-diarization finds transcode done.
   */
  predicate Admissible(c: Config, s: State, a: Action) {
    match a
    case Tick(to) => Punctual(c, s, to)
    case Die(tid) => tid in s.tasks && (s.tasks[tid].InStage? || s.tasks[tid].Failing?)
    case Reprocess(r) => forall tid | tid in s.tasks :: !ActsOnStaleAnswer(s.tasks[tid], r)
    case Rediarize(r) =>
      HasDone(s.jobs, r, Transcode) && forall tid | tid in s.tasks :: !ActsOnStaleLabels(s.tasks[tid], r)
    case _ => true
  }

  /** `run` can be taken from `s`, within the premises. */
  predicate IsRun(c: Config, s: State, run: seq<Action>)
    decreases |run|
  {
    run == [] || (Enabled(c, s, run[0]) && Admissible(c, s, run[0]) && IsRun(c, Apply(c, s, run[0]), run[1..]))
  }

  function After(c: Config, s: State, run: seq<Action>): State
    requires IsRun(c, s, run)
    decreases |run|
  {
    if run == [] then s else After(c, Apply(c, s, run[0]), run[1..])
  }
}
