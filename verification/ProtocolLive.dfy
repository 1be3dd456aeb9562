/** Live transcription: it never stalls while a recording uploads, and never runs away after. */
module ProtocolLive {
  import opened Types
  import opened JobTable
  import opened Protocol
  import opened ProtocolSafety
  import opened Sums

  // ------------------------------------------------------------- no stall

  ghost predicate TaskOwesLive(t: Task, r: nat) {
    t.rec == r && ((t.OweEnqueue? && t.kind.TranscribeSegment?) || t.LiveStatus? || t.LiveCount? || t.MarkFailed?)
  }

  ghost predicate OwesLive(tasks: map<nat, Task>, r: nat) {
    exists tid :: tid in tasks && TaskOwesLive(tasks[tid], r)
  }

  ghost predicate AwaitsText(s: State, r: nat) {
    r in s.recs && s.recs[r].status.Uploading? && s.recs[r].untranscribed != {}
  }

  /** While segments await text, a live job exists, or someone owes one or the failed mark. */
  ghost predicate NotStalled(s: State, r: nat) {
    && (AwaitsText(s, r) ==> HasLive(s.jobs, r, TranscribeSegment) || OwesLive(s.tasks, r))
    && (forall tid | tid in s.tasks && s.tasks[tid].rec == r && s.tasks[tid].Inserting? && !s.tasks[tid].sawUploading ::
          r in s.recs && !s.recs[r].status.Uploading?)
  }

  ghost predicate Uploads(recs: map<nat, Recording>, r: nat) {
    r in recs && recs[r].status.Uploading?
  }

  /** What an effect must bring along: `uploading` is never re-entered, new text owes a job,
      and a live row or a debt ends only into another debt or when nothing is awaited. */
  ghost predicate KeepsLive(s: State, e: Effect, r: nat) {
    var s' := Perform(s, e);
    && (Uploads(s'.recs, r) ==>
          || (r !in s.recs && s'.recs[r].untranscribed == {})
          || (Uploads(s.recs, r)
              && (s'.recs[r].untranscribed <= s.recs[r].untranscribed
                  || (e.tasks.WriteTask? && TaskOwesLive(e.tasks.task, r)))))
    && (e.rows.WriteRow? && e.rows.row.rec == r && e.rows.row.kind.TranscribeSegment? && !Live(e.rows.row) ==>
          (e.tasks.WriteTask? || e.tasks.NewTask?) && TaskOwesLive(e.tasks.task, r))
    && (e.rows.DropRows? && e.rows.rec == r ==> !Uploads(s'.recs, r))
    && ((e.tasks.WriteTask? || e.tasks.EndTask?) && e.tasks.tid in s.tasks && TaskOwesLive(s.tasks[e.tasks.tid], r) ==>
          || (e.tasks.WriteTask? && TaskOwesLive(e.tasks.task, r))
          || HasLive(s'.jobs, r, TranscribeSegment) || !AwaitsText(s', r))
    && (((e.tasks.NewTask? || e.tasks.WriteTask?) && e.tasks.task.Inserting? && e.tasks.task.rec == r
          && !e.tasks.task.sawUploading) ==> (r in s'.recs && !Uploads(s'.recs, r)))
  }

  /** A live row is still live, unless the effect wrote or dropped it. */
  lemma LiveRowsPersist(c: Config, s: State, e: Effect, r: nat)
    requires Core(c, s) && Good(c, s, e) && HasLive(s.jobs, r, TranscribeSegment)
    requires !(e.rows.DropRows? && e.rows.rec == r)
    requires !(e.rows.WriteRow? && e.rows.row.rec == r && e.rows.row.kind.TranscribeSegment? && !Live(e.rows.row))
    ensures HasLive(PerformRows(s, e.rows), r, TranscribeSegment)
  {
    var id :| id in s.jobs && s.jobs[id].rec == r && s.jobs[id].kind.TranscribeSegment? && Live(s.jobs[id]);
    var t' := PerformRows(s, e.rows);
    assert id in t' && t'[id].rec == r && t'[id].kind.TranscribeSegment? && Live(t'[id]);
  }

  lemma LiveDebtsSurvive(c: Config, s: State, e: Effect, r: nat)
    requires Core(c, s) && Good(c, s, e) && KeepsLive(s, e, r) && OwesLive(s.tasks, r)
    ensures var s' := Perform(s, e);
            OwesLive(s'.tasks, r) || HasLive(s'.jobs, r, TranscribeSegment) || !AwaitsText(s', r)
  {
    var s' := Perform(s, e);
    var tid :| tid in s.tasks && TaskOwesLive(s.tasks[tid], r);
    if tid in s'.tasks && TaskOwesLive(s'.tasks[tid], r) {
    } else {
      assert (e.tasks.WriteTask? || e.tasks.EndTask?) && e.tasks.tid == tid;
    }
  }

  lemma EffectKeepsLive(c: Config, s: State, e: Effect, r: nat)
    requires Core(c, s) && Good(c, s, e) && NotStalled(s, r) && KeepsLive(s, e, r)
    ensures NotStalled(Perform(s, e), r)
  {
    var s' := Perform(s, e);
    if e.tasks.WriteTask? { assert s'.tasks[e.tasks.tid] == e.tasks.task; }
    if e.tasks.NewTask? { assert s'.tasks[s.nextTask] == e.tasks.task; }
    if AwaitsText(s', r) && AwaitsText(s, r) {
      if HasLive(s.jobs, r, TranscribeSegment) {
        if !(e.rows.WriteRow? && e.rows.row.rec == r && e.rows.row.kind.TranscribeSegment? && !Live(e.rows.row)) {
          LiveRowsPersist(c, s, e, r);
        }
      } else {
        LiveDebtsSurvive(c, s, e, r);
      }
    }
  }

  lemma LiveInsert(s: State, r: nat, k: JobKind)
    ensures HasLive(PerformRows(s, InsertRow(s, r, k)), r, k)
  {
    var t' := PerformRows(s, InsertRow(s, r, k));
    if !HasLive(s.jobs, r, k) {
      assert t'[s.nextId] == FreshJob(r, k, 0, s.now);
    }
  }

  lemma AdvanceKeepsLive(c: Config, s: State, tid: nat, r: nat)
    requires Core(c, s) && CanAdvance(s, tid) && NotStalled(s, r)
    ensures KeepsLive(s, Advance(c, s, tid), r)
  {
    if s.tasks[tid].Failing? {
      FailingKeepsLive(c, s, tid, r);
    } else if s.tasks[tid].Succeeding? {
      SucceedingKeepsLive(c, s, tid, r);
    } else {
      LiveInsert(s, r, TranscribeSegment);
    }
  }

  lemma FailingKeepsLive(c: Config, s: State, tid: nat, r: nat)
    requires Core(c, s) && CanAdvance(s, tid) && NotStalled(s, r) && s.tasks[tid].Failing?
    ensures KeepsLive(s, Advance(c, s, tid), r)
  {
    var t := s.tasks[tid];
    if t.job in s.jobs { assert RowHeld(c, s.now, t, s.jobs[t.job]); }
  }

  lemma SucceedingKeepsLive(c: Config, s: State, tid: nat, r: nat)
    requires Core(c, s) && CanAdvance(s, tid) && NotStalled(s, r) && s.tasks[tid].Succeeding?
    ensures KeepsLive(s, Advance(c, s, tid), r)
  {
  }

  lemma QueueKeepsLive(c: Config, s: State, a: Action, r: nat)
    requires Core(c, s) && Enabled(c, s, a) && NotStalled(s, r)
    requires a.Claim? || a.Heartbeat? || a.StageOk? || a.StageError? || a.StageDeferred? || a.Reap?
    ensures KeepsLive(s, Outcome(c, s, a), r)
  {
  }

  lemma RequestKeepsLive(c: Config, s: State, a: Action, r: nat)
    requires Core(c, s) && Enabled(c, s, a) && NotStalled(s, r)
    requires a.PutSegment? || a.CompleteRecording? || a.Reprocess? || a.Rediarize? || a.SummarizeRecording?
              || a.CreateRecording?
    ensures KeepsLive(s, Outcome(c, s, a), r)
  {
    if a.Reprocess? || a.Rediarize? { ResetKeepsLive(c, s, a, r); } else { CallKeepsLive(c, s, a, r); }
  }

  lemma ResetKeepsLive(c: Config, s: State, a: Action, r: nat)
    requires Core(c, s) && Enabled(c, s, a) && NotStalled(s, r) && (a.Reprocess? || a.Rediarize?)
    ensures KeepsLive(s, Outcome(c, s, a), r)
  {
  }

  lemma CallKeepsLive(c: Config, s: State, a: Action, r: nat)
    requires Core(c, s) && Enabled(c, s, a) && NotStalled(s, r)
    requires a.PutSegment? || a.CompleteRecording? || a.SummarizeRecording? || a.CreateRecording?
    ensures KeepsLive(s, Outcome(c, s, a), r)
  {
  }

  lemma OutcomeKeepsLive(c: Config, s: State, a: Action, r: nat)
    requires Core(c, s) && Enabled(c, s, a) && Admissible(c, s, a) && !a.Tick? && NotStalled(s, r)
    ensures KeepsLive(s, Outcome(c, s, a), r)
  {
    match a
    case Step(tid) => AdvanceKeepsLive(c, s, tid, r);
    case StoreTranscript(_) =>
    case MarkTranscribed(_, _) =>
    case Die(_) =>
    case Claim(_, _) => QueueKeepsLive(c, s, a, r);
    case Heartbeat(_) => QueueKeepsLive(c, s, a, r);
    case StageOk(_) => QueueKeepsLive(c, s, a, r);
    case StageError(_) => QueueKeepsLive(c, s, a, r);
    case StageDeferred(_, _) => QueueKeepsLive(c, s, a, r);
    case Reap(_) => QueueKeepsLive(c, s, a, r);
    case _ => RequestKeepsLive(c, s, a, r);
  }

  lemma NotStalledStep(c: Config, s: State, a: Action, r: nat)
    requires Core(c, s) && Enabled(c, s, a) && Admissible(c, s, a) && NotStalled(s, r)
    ensures NotStalled(Apply(c, s, a), r)
  {
    if !a.Tick? {
      OutcomeIsGood(c, s, a);
      OutcomeKeepsLive(c, s, a, r);
      EffectKeepsLive(c, s, Outcome(c, s, a), r);
    }
  }

  /** `uploading` is left once and for all. */
  lemma UploadingIsLeftForGood(c: Config, s: State, a: Action, r: nat)
    requires Enabled(c, s, a) && r in s.recs && !s.recs[r].status.Uploading?
    ensures r in Apply(c, s, a).recs && !Apply(c, s, a).recs[r].status.Uploading?
  {
    match a
    case Step(tid) => AdvanceLeavesUploading(c, s, tid, r);
    case _ =>
  }

  lemma AdvanceLeavesUploading(c: Config, s: State, tid: nat, r: nat)
    requires CanAdvance(s, tid) && r in s.recs && !s.recs[r].status.Uploading?
    ensures var recs' := PerformRecs(s, Advance(c, s, tid).recs); r in recs' && !recs'[r].status.Uploading?
  {
  }

  // ----------------------------------------------------------- no runaway

  /** Uploads and workers past their status read that may still insert one live job. */
  function PastStatusRead(r: nat): Task -> int {
    (t: Task) =>
      if t.rec == r && (t.LiveCount? || (t.Inserting? && t.sawUploading)
          || (t.OweEnqueue? && t.kind.TranscribeSegment?))
      then 1 else 0
  }

  ghost function LateInserters(s: State, r: nat): int {
    Sum(s.tasks, s.nextTask, PastStatusRead(r))
  }

  /** How a task change moves a sum over the tasks. */
  ghost function TaskDelta(s: State, e: TaskChange, w: Task -> int): int {
    match e
    case SameTasks => 0
    case NewTask(t) => w(t)
    case WriteTask(tid, t) => w(t) - At(s.tasks, tid, w)
    case EndTask(tid) => -At(s.tasks, tid, w)
  }

  lemma TaskSumMoves(s: State, e: Effect, w: Task -> int)
    requires Numbered(s)
    requires (e.tasks.WriteTask? || e.tasks.EndTask?) ==> e.tasks.tid in s.tasks
    ensures var s' := Perform(s, e);
            Sum(s'.tasks, s'.nextTask, w) == Sum(s.tasks, s.nextTask, w) + TaskDelta(s, e.tasks, w)
  {
    var s' := Perform(s, e);
    match e.tasks
    case SameTasks =>
    case NewTask(t) => SameWeights(s.tasks, s'.tasks, s.nextTask, w);
    case WriteTask(tid, t) => OneChange(s.tasks, s'.tasks, s.nextTask, tid, w);
    case EndTask(tid) => OneChange(s.tasks, s'.tasks, s.nextTask, tid, w);
  }

  ghost function InsertsDelta(s: State, e: RecChange, r: nat): int {
    if e.WriteRec? && e.rec == r && r in s.recs then e.value.liveInserts - s.recs[r].liveInserts else 0
  }

  lemma AdvanceSpendsInserters(c: Config, s: State, tid: nat, r: nat)
    requires CanAdvance(s, tid) && r in s.recs && !s.recs[r].status.Uploading?
    requires s.tasks[tid].Succeeding? ==> forall k | k in s.tasks[tid].rest :: k in Successors(s.tasks[tid].kind)
    ensures var e := Advance(c, s, tid); InsertsDelta(s, e.recs, r) + TaskDelta(s, e.tasks, PastStatusRead(r)) <= 0
  {
    if s.tasks[tid].Succeeding? { assert s.tasks[tid].rest[0] in Successors(s.tasks[tid].kind); }
  }

  lemma RequestSpendsInserters(c: Config, s: State, a: Action, r: nat)
    requires Core(c, s) && Enabled(c, s, a) && r in s.recs && !s.recs[r].status.Uploading?
    requires a.PutSegment? || a.CompleteRecording? || a.Reprocess? || a.Rediarize? || a.SummarizeRecording?
              || a.CreateRecording?
    ensures var e := Outcome(c, s, a); InsertsDelta(s, e.recs, r) + TaskDelta(s, e.tasks, PastStatusRead(r)) <= 0
  {
  }

  lemma OutcomeSpendsInserters(c: Config, s: State, a: Action, r: nat)
    requires Core(c, s) && Enabled(c, s, a) && r in s.recs && !s.recs[r].status.Uploading?
    ensures var e := Outcome(c, s, a); InsertsDelta(s, e.recs, r) + TaskDelta(s, e.tasks, PastStatusRead(r)) <= 0
  {
    match a
    case Step(tid) => AdvanceSpendsInserters(c, s, tid, r);
    case Tick(_) =>
    case Claim(_, _) =>
    case Heartbeat(_) =>
    case StoreTranscript(_) =>
    case MarkTranscribed(_, _) =>
    case StageOk(_) =>
    case StageError(_) =>
    case StageDeferred(_, _) =>
    case Die(_) =>
    case Reap(_) =>
    case _ => RequestSpendsInserters(c, s, a, r);
  }

  /** The history is honest: it counts exactly the live jobs inserted for the recording. */
  lemma LiveInsertsAreCounted(c: Config, s: State, a: Action, r: nat)
    requires Core(c, s) && Enabled(c, s, a) && r in s.recs
    ensures var e := Outcome(c, s, a);
            InsertsDelta(s, e.recs, r)
            == if e.rows.NewRow? && e.rows.row.rec == r && e.rows.row.kind.TranscribeSegment? then 1 else 0
  {
    if a.Step? {
      AdvanceCountsInserts(c, s, a.tid, r);
    } else if a.PutSegment? || a.CompleteRecording? || a.Reprocess? || a.Rediarize? || a.SummarizeRecording? {
      RequestCountsInserts(c, s, a, r);
    } else if !a.Tick? {
      QueueCountsInserts(c, s, a, r);
    }
  }

  lemma RequestCountsInserts(c: Config, s: State, a: Action, r: nat)
    requires Enabled(c, s, a) && r in s.recs
    requires a.PutSegment? || a.CompleteRecording? || a.Reprocess? || a.Rediarize? || a.SummarizeRecording?
    ensures InsertsDelta(s, Outcome(c, s, a).recs, r) == 0
    ensures var rows := Outcome(c, s, a).rows; !(rows.NewRow? && rows.row.rec == r && rows.row.kind.TranscribeSegment?)
  {
  }

  lemma QueueCountsInserts(c: Config, s: State, a: Action, r: nat)
    requires Enabled(c, s, a) && r in s.recs && !a.Tick? && !a.Step?
    requires !a.PutSegment? && !a.CompleteRecording? && !a.Reprocess? && !a.Rediarize? && !a.SummarizeRecording?
    ensures InsertsDelta(s, Outcome(c, s, a).recs, r) == 0 && !Outcome(c, s, a).rows.NewRow?
  {
  }

  lemma AdvanceCountsInserts(c: Config, s: State, tid: nat, r: nat)
    requires CanAdvance(s, tid) && r in s.recs
    ensures var e := Advance(c, s, tid);
            InsertsDelta(s, e.recs, r)
            == if e.rows.NewRow? && e.rows.row.rec == r && e.rows.row.kind.TranscribeSegment? then 1 else 0
  {
  }

  /** Once uploading is over, every live job inserted uses up one of those already under way. */
  lemma InsertersAreSpent(c: Config, s: State, a: Action, r: nat)
    requires Core(c, s) && Enabled(c, s, a) && r in s.recs && !s.recs[r].status.Uploading?
    ensures var s' := Apply(c, s, a);
            r in s'.recs && s'.recs[r].liveInserts + LateInserters(s', r) <= s.recs[r].liveInserts + LateInserters(s, r)
  {
    UploadingIsLeftForGood(c, s, a, r);
    if !a.Tick? {
      OutcomeIsGood(c, s, a);
      OutcomeSpendsInserters(c, s, a, r);
      TaskSumMoves(s, Outcome(c, s, a), PastStatusRead(r));
    }
  }

  /** Over any run from there, at most that many live jobs are ever inserted. */
  lemma {:induction false} LiveNeverRunsAway(c: Config, s: State, run: seq<Action>, r: nat)
    requires Core(c, s) && IsRun(c, s, run) && r in s.recs && !s.recs[r].status.Uploading?
    ensures var s' := After(c, s, run);
            && r in s'.recs && !s'.recs[r].status.Uploading?
            && s'.recs[r].liveInserts - s.recs[r].liveInserts <= LateInserters(s, r)
    decreases |run|
  {
    LateInsertersNonNegative(s, r);
    if run != [] {
      LiveRunSpends(c, s, run, r);
      LateInsertersNonNegative(After(c, s, run), r);
    }
  }

  lemma LateInsertersNonNegative(s: State, r: nat)
    ensures 0 <= LateInserters(s, r)
  {
    SumCovers(s.tasks, s.nextTask, PastStatusRead(r));
  }

  lemma {:induction false} LiveRunSpends(c: Config, s: State, run: seq<Action>, r: nat)
    requires Core(c, s) && IsRun(c, s, run) && r in s.recs && !s.recs[r].status.Uploading?
    ensures var s' := After(c, s, run);
            && r in s'.recs && !s'.recs[r].status.Uploading?
            && s'.recs[r].liveInserts + LateInserters(s', r) <= s.recs[r].liveInserts + LateInserters(s, r)
    decreases |run|
  {
    if run != [] {
      CoreStep(c, s, run[0]);
      UploadingIsLeftForGood(c, s, run[0], r);
      InsertersAreSpent(c, s, run[0], r);
      LiveRunSpends(c, Apply(c, s, run[0]), run[1..], r);
    }
  }
}
