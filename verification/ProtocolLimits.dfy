/** Late leases, lost tasks and parked passes: exactly when each does harm, and for how long. */
module ProtocolLimits {
  import opened Types
  import opened JobTable
  import opened Protocol
  import opened ProtocolSafety
  import opened ProtocolJoins
  import opened ProtocolLive
  import opened ProtocolProgress
  import opened ProtocolWork
  import opened ProtocolPaths
  import opened ProtocolExamples

  // ------------------------------------------------------------ late leases

  /**
   A lease not renewed: a second worker gets the job exactly when the lease has run
   out by then, an attempt is left, and the job is due. Punctual stamps exclude it.
   */
  lemma LateHeartbeatSharesJobIff(c: Config, s: State, tid: nat, till: int, worker: nat)
    requires Core(c, s) && tid in s.tasks && s.tasks[tid].InStage? && s.tasks[tid].job in s.jobs && s.now <= till
    ensures var job := s.tasks[tid].job;
            var j, share := s.jobs[job], [Tick(till), Reap(job), Claim(job, worker)];
            && (IsPath(c, s, share) <==>
                  Expired(j, c.lease, till) && j.attempts + 1 < c.maxAttempts && j.runAfter <= till)
            && (IsPath(c, s, share) ==> Shared(Along(c, s, share), tid, s.nextTask))
    ensures Punctual(c, s, till) ==> !Expired(s.jobs[s.tasks[tid].job], c.lease, till)
  {
    var job := s.tasks[tid].job;
    assert RowHeld(c, s.now, s.tasks[tid], s.jobs[job]) && RowAccounts(c, s.jobs[job]);
    ThreeSteps(c, s, Tick(till), Reap(job), Claim(job, worker));
    var s1 := Apply(c, s, Tick(till));
    if Enabled(c, s1, Reap(job)) {
      var s2 := Apply(c, s1, Reap(job));
      assert s2.jobs[job] == ReapRow(s.jobs[job], c.maxAttempts);
      assert !s2.jobs[job].state.Failed? ==> s2.tasks == s.tasks && s2.nextTask == s.nextTask;
    }
  }

  /** Two stages run the same job. */
  ghost predicate Shared(s: State, first: nat, second: nat) {
    && first != second && first in s.tasks && second in s.tasks
    && s.tasks[first].InStage? && s.tasks[second].InStage? && s.tasks[first].job == s.tasks[second].job
  }

  /** Of two holders one completes; the other's failure undoes it, to the queue or, out of attempts, to failed. */
  lemma SharedJobIsUndone(c: Config, s: State, first: nat, second: nat)
    requires Shared(s, first, second) && s.tasks[first].rec in s.recs && s.tasks[first].job in s.jobs
    ensures var job := s.tasks[first].job;
            var finish, fail := [StageOk(second)], [StageError(first), Step(first)];
            && IsPath(c, s, finish)
            && var done := Along(c, s, finish);
               && RowIs(done, job, Done) && IsPath(c, done, fail)
               && RowIs(Along(c, done, fail), job,
                        if s.jobs[job].attempts + 1 < c.maxAttempts then Queued else JobState.Failed)
  {
    OneStep(c, s, StageOk(second));
    var done := Apply(c, s, StageOk(second));
    TwoSteps(c, done, StageError(first), Step(first));
    assert Apply(c, done, StageError(first)).tasks[first].Failing?;
  }

  predicate RowIs(s: State, id: nat, state: JobState) {
    id in s.jobs && s.jobs[id].state == state
  }

  // -------------------------------------------------------------- lost tasks

  ghost predicate OwedByAnother(s: State, tid: nat, r: nat, k: JobKind) {
    exists o :: o in s.tasks && o != tid && TaskOwes(s.tasks[o], r, k)
  }

  ghost predicate ReadyOwedByAnother(s: State, tid: nat, r: nat) {
    exists o :: o in s.tasks && o != tid && s.tasks[o].rec == r && (s.tasks[o].ReadyCheck? || s.tasks[o].ReadyMark?)
  }

  ghost predicate LiveOwedByAnother(s: State, tid: nat, r: nat) {
    exists o :: o in s.tasks && o != tid && TaskOwesLive(s.tasks[o], r)
  }

  /** Nothing hangs on this task alone: what it was about to do is done, void, or on another's list. */
  ghost predicate Dispensable(s: State, tid: nat)
    requires tid in s.tasks && s.tasks[tid].rec in s.recs
  {
    var r := s.tasks[tid].rec;
    match s.tasks[tid]
    case Succeeding(_, _, rest, _) =>
      forall k | k in rest && PredecessorsDone(s.jobs, r, k) :: HasRow(s.jobs, r, k) || OwedByAnother(s, tid, r, k)
    case OweEnqueue(_, k) =>
      if k.TranscribeSegment? then AwaitsText(s, r) ==> HasLive(s.jobs, r, k) || LiveOwedByAnother(s, tid, r)
      else if k.Transcode? then
        s.recs[r].status.Processing? || s.recs[r].status.Ready? ==> HasRow(s.jobs, r, k) || OwedByAnother(s, tid, r, k)
      else HasRow(s.jobs, r, k) || OwedByAnother(s, tid, r, k)
    case ReadyCheck(_) => BothTerminalDone(s.jobs, r) ==> s.recs[r].readyMarked || ReadyOwedByAnother(s, tid, r)
    case ReadyMark(_) => s.recs[r].readyMarked || ReadyOwedByAnother(s, tid, r)
    case InStage(_, _, _, _) => true
    case Failing(_, _, _, _) => true
    case Completing(_) => true
    case Inserting(_, _, _) => true
    case _ => AwaitsText(s, r) ==> HasLive(s.jobs, r, TranscribeSegment) || LiveOwedByAnother(s, tid, r)
  }

  /** Losing any task, at any statement, does no harm exactly when it was dispensable. */
  lemma DeathIsHarmlessIff(c: Config, s: State, tid: nat)
    requires Invariant(c, s) && tid in s.tasks
    ensures (forall r :: Joined(Apply(c, s, Die(tid)), r) && NotStalled(Apply(c, s, Die(tid)), r)) <==>
              Dispensable(s, tid)
  {
    var s' := Apply(c, s, Die(tid));
    var r0 := s.tasks[tid].rec;
    DeathKeepsOwnIff(c, s, tid);
    forall r | r != r0
      ensures Joined(s', r) && NotStalled(s', r)
    {
      DeathOfAnother(c, s, tid, r);
    }
  }

  lemma DeathOfAnother(c: Config, s: State, tid: nat, r: nat)
    requires Invariant(c, s) && tid in s.tasks && s.tasks[tid].rec != r
    ensures Joined(Apply(c, s, Die(tid)), r) && NotStalled(Apply(c, s, Die(tid)), r)
  {
    var s' := Apply(c, s, Die(tid));
    assert Joined(s, r) && NotStalled(s, r);
    JoinedSeesOnly(c, s, s', r);
    if o :| o in s.tasks && TaskOwesLive(s.tasks[o], r) { assert TaskOwesLive(s'.tasks[o], r); }
  }

  lemma DeathKeepsOwnIff(c: Config, s: State, tid: nat)
    requires Invariant(c, s) && tid in s.tasks
    ensures KeepsOwn(c, s, tid) <==> Dispensable(s, tid)
  {
    var r := s.tasks[tid].rec;
    assert Joined(s, r) && NotStalled(s, r) && TaskGated(s.jobs, s.tasks[tid]);
    DeathKeepsGated(c, s, tid);
    RowsOwedIff(c, s, tid);
    ReadyOwedIff(c, s, tid);
    LiveOwedIff(c, s, tid);
    DispensableIs(s, tid);
  }

  ghost predicate KeepsOwn(c: Config, s: State, tid: nat)
    requires tid in s.tasks
  {
    var s', r := Apply(c, s, Die(tid)), s.tasks[tid].rec;
    Joined(s', r) && NotStalled(s', r)
  }

  lemma DeathKeepsGated(c: Config, s: State, tid: nat)
    requires tid in s.tasks && Gated(s, s.tasks[tid].rec)
    ensures Gated(Apply(c, s, Die(tid)), s.tasks[tid].rec)
  {
  }

  /** Each row the task owed is there, void, or owed by another … */
  ghost predicate RowsSpared(s: State, tid: nat)
    requires tid in s.tasks
  {
    var r := s.tasks[tid].rec;
    && (forall k | TaskOwes(s.tasks[tid], r, k) && Predecessors(k) != [] && PredecessorsDone(s.jobs, r, k) ::
          HasRow(s.jobs, r, k) || OwedByAnother(s, tid, r, k))
    && (TaskOwes(s.tasks[tid], r, Transcode) && r in s.recs
        && (s.recs[r].status.Processing? || s.recs[r].status.Ready?) ==>
          HasRow(s.jobs, r, Transcode) || OwedByAnother(s, tid, r, Transcode))
  }

  lemma RowsOwedIff(c: Config, s: State, tid: nat)
    requires tid in s.tasks && NoSuccessorLost(s, s.tasks[tid].rec) && EntryNotLost(s, s.tasks[tid].rec)
    ensures var s', r := Apply(c, s, Die(tid)), s.tasks[tid].rec;
            NoSuccessorLost(s', r) && EntryNotLost(s', r) <==> RowsSpared(s, tid)
  {
    var s', r := Apply(c, s, Die(tid)), s.tasks[tid].rec;
    DebtsLeft(c, s, tid);
    assert s'.jobs == s.jobs && s'.recs == s.recs;
    forall k
      ensures OwesRow(s.tasks, r, k) <==> TaskOwes(s.tasks[tid], r, k) || OwedByAnother(s, tid, r, k)
    {
      assert TaskOwes(s.tasks[tid], r, k) ==> OwesRow(s.tasks, r, k);
    }
  }

  /** … so is the ready mark … */
  ghost predicate ReadySpared(s: State, tid: nat)
    requires tid in s.tasks && s.tasks[tid].rec in s.recs
  {
    var r, t := s.tasks[tid].rec, s.tasks[tid];
    (t.ReadyCheck? || t.ReadyMark?) && BothTerminalDone(s.jobs, r) ==>
      s.recs[r].readyMarked || ReadyOwedByAnother(s, tid, r)
  }

  lemma ReadyOwedIff(c: Config, s: State, tid: nat)
    requires tid in s.tasks && s.tasks[tid].rec in s.recs && ReadyNotLost(s, s.tasks[tid].rec)
    ensures ReadyNotLost(Apply(c, s, Die(tid)), s.tasks[tid].rec) <==> ReadySpared(s, tid)
  {
    DebtsLeft(c, s, tid);
    var r := s.tasks[tid].rec;
    if o :| o in s.tasks && s.tasks[o].rec == r && (s.tasks[o].ReadyCheck? || s.tasks[o].ReadyMark?) && o != tid {
      assert ReadyOwedByAnother(s, tid, r);
    }
  }

  /** … and the live job. */
  ghost predicate LiveSpared(s: State, tid: nat)
    requires tid in s.tasks
  {
    var r := s.tasks[tid].rec;
    TaskOwesLive(s.tasks[tid], r) && AwaitsText(s, r) ==>
      HasLive(s.jobs, r, TranscribeSegment) || LiveOwedByAnother(s, tid, r)
  }

  lemma LiveOwedIff(c: Config, s: State, tid: nat)
    requires tid in s.tasks && NotStalled(s, s.tasks[tid].rec)
    ensures NotStalled(Apply(c, s, Die(tid)), s.tasks[tid].rec) <==> LiveSpared(s, tid)
  {
    DebtsLeft(c, s, tid);
    var r := s.tasks[tid].rec;
    if o :| o in s.tasks && TaskOwesLive(s.tasks[o], r) && o != tid {
      assert LiveOwedByAnother(s, tid, r);
    }
  }

  /** Each kind of task owes only what its statement is about. */
  lemma DispensableIs(s: State, tid: nat)
    requires Numbered(s) && tid in s.tasks && TaskGated(s.jobs, s.tasks[tid])
    ensures Dispensable(s, tid) <==> RowsSpared(s, tid) && ReadySpared(s, tid) && LiveSpared(s, tid)
  {
    var t := s.tasks[tid];
    if t.Succeeding? {
      forall k | k in t.rest
        ensures Predecessors(k) != []
      {
        EdgesAreConverse(t.kind, k);
      }
    } else if t.OweEnqueue? {
      assert TaskOwes(t, t.rec, t.kind);
    }
  }

  /** Who still owes what, the task being gone. */
  lemma DebtsLeft(c: Config, s: State, tid: nat)
    requires tid in s.tasks
    ensures var s', r := Apply(c, s, Die(tid)), s.tasks[tid].rec;
            && (forall k :: OwesRow(s'.tasks, r, k) <==> OwedByAnother(s, tid, r, k))
            && (OwesReady(s'.tasks, r) <==> ReadyOwedByAnother(s, tid, r))
            && (OwesLive(s'.tasks, r) <==> LiveOwedByAnother(s, tid, r))
  {
    var s', r := Apply(c, s, Die(tid)), s.tasks[tid].rec;
    forall k
      ensures OwesRow(s'.tasks, r, k) <==> OwedByAnother(s, tid, r, k)
    {
      if o :| o in s.tasks && o != tid && TaskOwes(s.tasks[o], r, k) { assert TaskOwes(s'.tasks[o], r, k); }
    }
    if o :| o in s.tasks && o != tid && s.tasks[o].rec == r && (s.tasks[o].ReadyCheck? || s.tasks[o].ReadyMark?) {
      assert o in s'.tasks && s'.tasks[o] == s.tasks[o];
    }
    if o :| o in s.tasks && o != tid && TaskOwesLive(s.tasks[o], r) { assert TaskOwesLive(s'.tasks[o], r); }
  }

  // ------------------------------------------------------ stuck for good

  /** Nothing of the pipeline is left to do for `r`, or could still begin by itself. */
  ghost predicate Quiet(s: State, r: nat) {
    && r in s.recs && !s.recs[r].status.Uploading? && !HasPipelineWork(s, r)
    && forall tid | tid in s.tasks && s.tasks[tid].rec == r ::
         !s.tasks[tid].Completing? && (s.tasks[tid].InStage? ==> s.tasks[tid].kind.TranscribeSegment?)
  }

  /** What an effect must not bring for that to last. */
  ghost predicate QuietEffect(s: State, e: Effect, r: nat) {
    && (e.rows.NewRow? && e.rows.row.rec == r ==> e.rows.row.kind.TranscribeSegment?)
    && (e.rows.WriteRow? && e.rows.row.rec == r ==> e.rows.row.kind.TranscribeSegment?)
    && (e.rows.DropRows? ==> e.rows.rec != r)
    && ((e.tasks.NewTask? || e.tasks.WriteTask?) && e.tasks.task.rec == r ==>
          var t := e.tasks.task;
          && !t.Completing? && !t.ReadyCheck? && !t.ReadyMark?
          && (t.InStage? ==> t.kind.TranscribeSegment?)
          && forall k: JobKind :: !k.TranscribeSegment? ==> !TaskOwes(t, r, k))
    && (e.recs.WriteRec? && e.recs.rec == r ==> r in s.recs && e.recs.value.readyMarked == s.recs[r].readyMarked)
  }

  lemma EffectKeepsQuiet(c: Config, s: State, e: Effect, r: nat)
    requires Core(c, s) && Good(c, s, e) && Quiet(s, r) && QuietEffect(s, e, r)
    requires r in PerformRecs(s, e.recs) && !PerformRecs(s, e.recs)[r].status.Uploading?
    ensures Quiet(Perform(s, e), r) && Perform(s, e).recs[r].readyMarked == s.recs[r].readyMarked
  {
    var s' := Perform(s, e);
    forall k: JobKind | !k.TranscribeSegment?
      ensures !HasLive(s'.jobs, r, k) && !OwesRow(s'.tasks, r, k)
    {
      assert !HasLive(s.jobs, r, k) && !OwesRow(s.tasks, r, k);
    }
  }

  lemma OutcomeIsQuiet(c: Config, s: State, a: Action, r: nat)
    requires Core(c, s) && Enabled(c, s, a) && !a.Tick? && !RequestFor(a, r) && Quiet(s, r)
    ensures QuietEffect(s, Outcome(c, s, a), r)
  {
    match a
    case Step(tid) => AdvanceIsQuiet(c, s, tid, r);
    case Claim(job, _) => NoneLive(s, job, r);
    case Reap(job) => NoneLive(s, job, r);
    case Heartbeat(tid) => HolderIsQuiet(c, s, tid, r);
    case StageOk(tid) => HolderIsQuiet(c, s, tid, r);
    case StageError(tid) => HolderIsQuiet(c, s, tid, r);
    case StageDeferred(tid, _) => HolderIsQuiet(c, s, tid, r);
    case _ =>
  }

  /** A live row of a quiet recording is of the side channel. */
  lemma NoneLive(s: State, job: nat, r: nat)
    requires Quiet(s, r) && job in s.jobs && Live(s.jobs[job])
    ensures s.jobs[job].rec == r ==> s.jobs[job].kind.TranscribeSegment?
  {
    assert s.jobs[job].rec == r ==> HasLive(s.jobs, r, s.jobs[job].kind);
  }

  lemma HolderIsQuiet(c: Config, s: State, tid: nat, r: nat)
    requires Core(c, s) && Quiet(s, r) && tid in s.tasks && IsHolder(s.tasks[tid])
    ensures var job := s.tasks[tid].job;
            job in s.jobs && s.jobs[job].rec == r ==> s.jobs[job].kind.TranscribeSegment?
  {
    var job := s.tasks[tid].job;
    if job in s.jobs {
      assert RowHeld(c, s.now, s.tasks[tid], s.jobs[job]);
      NoneLive(s, job, r);
    }
  }

  lemma AdvanceIsQuiet(c: Config, s: State, tid: nat, r: nat)
    requires Core(c, s) && CanAdvance(s, tid) && Quiet(s, r)
    ensures QuietEffect(s, Advance(c, s, tid), r)
  {
    var t := s.tasks[tid];
    if t.Failing? && t.job in s.jobs { HolderIsQuiet(c, s, tid, r); }
    if t.rec == r {
      if t.Succeeding? { assert TaskOwes(t, r, t.rest[0]); }
      if t.OweEnqueue? { assert TaskOwes(t, r, t.kind); }
      assert !OwesReady(s.tasks, r);
    }
  }

  lemma QuietStep(c: Config, s: State, a: Action, r: nat)
    requires Core(c, s) && Enabled(c, s, a) && Admissible(c, s, a) && !RequestFor(a, r) && Quiet(s, r)
    ensures Quiet(Apply(c, s, a), r) && Apply(c, s, a).recs[r].readyMarked == s.recs[r].readyMarked
  {
    UploadingIsLeftForGood(c, s, a, r);
    if !a.Tick? {
      OutcomeIsGood(c, s, a);
      OutcomeIsQuiet(c, s, a, r);
      EffectKeepsQuiet(c, s, Outcome(c, s, a), r);
    }
  }

  /** Without a new request a quiet recording stays quiet over every run, and is never marked ready. */
  lemma {:induction false} QuietForGood(c: Config, s: State, run: seq<Action>, r: nat)
    requires Core(c, s) && IsRun(c, s, run) && Quiet(s, r) && forall a | a in run :: !RequestFor(a, r)
    ensures var s' := After(c, s, run); Quiet(s', r) && s'.recs[r].readyMarked == s.recs[r].readyMarked
    decreases |run|
  {
    if run != [] {
      assert run[0] in run;
      QuietStep(c, s, run[0], r);
      CoreStep(c, s, run[0]);
      QuietForGood(c, Apply(c, s, run[0]), run[1..], r);
    }
  }

  /**
   Losing the last task of a recording under way: from then on, over every run
   without a new request, nothing happens to it and it is never ready. It is so
   exactly when no row of a stage is live, no other task acts for a stage, and none
   of them is to be completed again.
   */
  lemma LostForGoodIff(c: Config, s: State, tid: nat, r: nat)
    requires Invariant(c, s) && tid in s.tasks && r in s.recs && !s.recs[r].status.Uploading?
    ensures var s' := Apply(c, s, Die(tid));
            (forall run | IsRun(c, s', run) && NoRequests(run, r) :: StaysQuiet(c, s', run, r)) <==>
            && (forall k: JobKind :: HasLive(s.jobs, r, k) ==> k.TranscribeSegment?)
            && (forall o | o in s.tasks && o != tid && s.tasks[o].rec == r :: !ActsForStage(s.tasks[o]))
  {
    var s' := Apply(c, s, Die(tid));
    OutcomeIsGood(c, s, Die(tid));
    GoodKeepsCore(c, s, Outcome(c, s, Die(tid)));
    QuietAfterDeathIff(c, s, tid, r);
    assert IsRun(c, s', []) && After(c, s', []) == s' && NoRequests([], r);
    if Quiet(s', r) {
      forall run | IsRun(c, s', run) && NoRequests(run, r)
        ensures StaysQuiet(c, s', run, r)
      {
        QuietForGood(c, s', run, r);
      }
    } else {
      assert !StaysQuiet(c, s', [], r);
    }
  }

  ghost predicate NoRequests(run: seq<Action>, r: nat) {
    forall a | a in run :: !RequestFor(a, r)
  }

  ghost predicate StaysQuiet(c: Config, s: State, run: seq<Action>, r: nat)
    requires IsRun(c, s, run)
  {
    Quiet(After(c, s, run), r) && r in s.recs && After(c, s, run).recs[r].readyMarked == s.recs[r].readyMarked
  }

  /** The task has a stage in hand, or the next one. */
  predicate ActsForStage(t: Task) {
    match t
    case InStage(_, _, _, k) => !k.TranscribeSegment?
    case Succeeding(_, _, _, _) => true
    case OweEnqueue(_, k) => !k.TranscribeSegment?
    case ReadyCheck(_) => true
    case ReadyMark(_) => true
    case Completing(_) => true
    case _ => false
  }

  lemma QuietAfterDeathIff(c: Config, s: State, tid: nat, r: nat)
    requires Invariant(c, s) && tid in s.tasks && r in s.recs && !s.recs[r].status.Uploading?
    ensures Quiet(Apply(c, s, Die(tid)), r) <==>
            && (forall k: JobKind :: HasLive(s.jobs, r, k) ==> k.TranscribeSegment?)
            && (forall o | o in s.tasks && o != tid && s.tasks[o].rec == r :: !ActsForStage(s.tasks[o]))
  {
    var s' := Apply(c, s, Die(tid));
    assert Numbered(s');
    QuietIff(s', r);
    assert forall o | o in s.tasks && o != tid :: o in s'.tasks && s'.tasks[o] == s.tasks[o];
  }

  lemma QuietIff(s: State, r: nat)
    requires Numbered(s)
    ensures Quiet(s, r) <==>
            && r in s.recs && !s.recs[r].status.Uploading?
            && (forall k: JobKind :: HasLive(s.jobs, r, k) ==> k.TranscribeSegment?)
            && (forall o | o in s.tasks && s.tasks[o].rec == r :: !ActsForStage(s.tasks[o]))
  {
    forall o | o in s.tasks && s.tasks[o].rec == r && ActsForStage(s.tasks[o])
      ensures !Quiet(s, r)
    {
      var t := s.tasks[o];
      if t.Succeeding? {
        assert t.rest[0] in Successors(t.kind) && !t.rest[0].TranscribeSegment?;
        assert TaskOwes(t, r, t.rest[0]);
      } else if t.OweEnqueue? {
        assert TaskOwes(t, r, t.kind);
      }
    }
  }

  /** The very first worker, dying right after `complete`, does that: a run from the empty database. */
  lemma CrashAfterCompleteIsReached(c: Config) returns (run: seq<Action>)
    ensures RunTo(c, INIT, run, TRANSCODED)
    ensures var s' := Apply(c, TRANSCODED, Die(1));
            Quiet(s', 0) && Underway(s', 0) && !s'.recs[0].readyMarked && !Dispensable(TRANSCODED, 1)
  {
    run := ReachesTranscoded(c);
    var s' := Apply(c, TRANSCODED, Die(1));
    assert s'.jobs == map[0 := DoneRow(Transcode)] && s'.tasks == map[];
    assert HasRow(s'.jobs, 0, Transcode) by { assert s'.jobs[0].kind == Transcode; }
    assert HasDone(TRANSCODED.jobs, 0, Transcode) by { assert TRANSCODED.jobs[0].state.Done?; }
    assert PredecessorsDone(TRANSCODED.jobs, 0, Diarize);
    assert !HasRow(TRANSCODED.jobs, 0, Diarize) && !OwedByAnother(TRANSCODED, 1, 0, Diarize);
    assert Diarize in [Diarize, Transcribe];
  }

  // ----------------------------------------------------------- parked passes

  /** A failing stage parks, and owes the failed mark, exactly when this was its last attempt. */
  lemma FailParksIff(c: Config, s: State, tid: nat)
    requires Core(c, s) && tid in s.tasks && s.tasks[tid].InStage? && s.tasks[tid].job in s.jobs
    ensures var path, t := [StageError(tid), Step(tid)], s.tasks[tid];
            && IsPath(c, s, path)
            && var s' := Along(c, s, path);
               (tid in s'.tasks && s'.tasks[tid] == MarkFailed(t.rec)) <==> s.jobs[t.job].attempts + 1 >= c.maxAttempts
  {
    TwoSteps(c, s, StageError(tid), Step(tid));
    assert Apply(c, s, StageError(tid)).tasks[tid].Failing?;
  }

  /** So does a reap. */
  lemma ReapParksIff(c: Config, s: State, job: nat)
    requires Core(c, s) && Enabled(c, s, Reap(job))
    ensures var s' := Apply(c, s, Reap(job));
            (s.nextTask in s'.tasks && s'.tasks[s.nextTask] == MarkFailed(s.jobs[job].rec)) <==>
            s.jobs[job].attempts + 1 >= c.maxAttempts
  {
  }

  /** The mark ends uploading; a recording no longer uploading is never completed, whatever comes. */
  lemma {:induction false} NeverCompletable(c: Config, s: State, path: seq<Action>, r: nat)
    requires r in s.recs && !s.recs[r].status.Uploading? && IsPath(c, s, path)
    ensures r in Along(c, s, path).recs && !Enabled(c, Along(c, s, path), CompleteRecording(r))
    decreases |path|
  {
    if path != [] {
      UploadingIsLeftForGood(c, s, path[0], r);
      NeverCompletable(c, Apply(c, s, path[0]), path[1..], r);
    }
  }

  /** A live pass on its last attempt, failing, ends the upload before it was completed. */
  lemma ParkedPassEndsUploadIff(c: Config, s: State, tid: nat)
    requires Core(c, s) && tid in s.tasks && s.tasks[tid].InStage? && s.tasks[tid].job in s.jobs
    requires s.recs[s.tasks[tid].rec].status.Uploading?
    ensures var path, r := [StageError(tid), Step(tid), Step(tid)], s.tasks[tid].rec;
            (IsPath(c, s, path) && !Enabled(c, Along(c, s, path), CompleteRecording(r))) <==>
            s.jobs[s.tasks[tid].job].attempts + 1 >= c.maxAttempts
  {
    ThreeSteps(c, s, StageError(tid), Step(tid), Step(tid));
    var s1 := Apply(c, s, StageError(tid));
    assert s1.tasks[tid].Failing?;
    var s2 := Apply(c, s1, Step(tid));
    assert s2.recs == s.recs;
  }

  /** Only a live job, due, of a recording still uploading. */
  ghost predicate OneLivePass(c: Config, s: State, attempts: nat) {
    && Core(c, s) && s.tasks == map[] && s.recs.Keys == {0} && s.recs[0].status.Uploading? && 0 in s.jobs
    && s.jobs[0].rec == 0 && s.jobs[0].kind.TranscribeSegment? && s.jobs[0].state.Queued?
    && s.jobs[0].runAfter <= s.now && s.jobs[0].attempts == attempts
  }

  lemma PassFails(c: Config, s0: State, run0: seq<Action>, s: State, attempts: nat)
    returns (run: seq<Action>, s': State)
    requires RunTo(c, s0, run0, s) && OneLivePass(c, s, attempts) && attempts + 1 < c.maxAttempts
    ensures RunTo(c, s0, run, s') && OneLivePass(c, s', attempts + 1)
  {
    var t := s.nextTask;
    var s1 := Apply(c, s, Claim(0, 0));
    Onward(c, s0, run0, s, Claim(0, 0), s1);
    CoreStep(c, s, Claim(0, 0));
    assert s1.tasks == map[t := InStage(0, 0, 0, TranscribeSegment)];
    run, s' := PassErrs(c, s0, run0 + [Claim(0, 0)], s1, t, attempts);
  }

  lemma PassErrs(c: Config, s0: State, run0: seq<Action>, s: State, t: nat, attempts: nat)
    returns (run: seq<Action>, s': State)
    requires RunTo(c, s0, run0, s) && Core(c, s) && attempts + 1 < c.maxAttempts
    requires s.tasks == map[t := InStage(0, 0, 0, TranscribeSegment)]
    requires s.recs.Keys == {0} && s.recs[0].status.Uploading? && 0 in s.jobs && s.jobs[0].attempts == attempts
    requires s.jobs[0].rec == 0 && s.jobs[0].kind.TranscribeSegment?
    ensures RunTo(c, s0, run, s') && OneLivePass(c, s', attempts + 1)
  {
    var s1 := Apply(c, s, StageError(t));
    Onward(c, s0, run0, s, StageError(t), s1);
    CoreStep(c, s, StageError(t));
    assert s1.tasks == map[t := Failing(0, 0, TranscribeSegment, attempts + 1)];
    run, s' := PassRequeued(c, s0, run0 + [StageError(t)], s1, t, attempts);
  }

  lemma PassRequeued(c: Config, s0: State, run0: seq<Action>, s: State, t: nat, attempts: nat)
    returns (run: seq<Action>, s': State)
    requires RunTo(c, s0, run0, s) && Core(c, s) && attempts + 1 < c.maxAttempts
    requires s.tasks == map[t := Failing(0, 0, TranscribeSegment, attempts + 1)]
    requires s.recs.Keys == {0} && s.recs[0].status.Uploading? && 0 in s.jobs
    requires s.jobs[0].rec == 0 && s.jobs[0].kind.TranscribeSegment?
    ensures RunTo(c, s0, run, s') && OneLivePass(c, s', attempts + 1)
  {
    var s1 := Apply(c, s, Step(t));
    Onward(c, s0, run0, s, Step(t), s1);
    CoreStep(c, s, Step(t));
    assert s1.tasks == map[];
    var till := s1.jobs[0].runAfter;
    s' := Apply(c, s1, Tick(till));
    Onward(c, s0, run0 + [Step(t)], s1, Tick(till), s');
    CoreStep(c, s1, Tick(till));
    run := run0 + [Step(t)] + [Tick(till)];
  }

  lemma {:induction false} PassesFail(c: Config, s0: State, run0: seq<Action>, s: State, attempts: nat)
    returns (run: seq<Action>, s': State, last: nat)
    requires RunTo(c, s0, run0, s) && OneLivePass(c, s, attempts)
    ensures RunTo(c, s0, run, s') && OneLivePass(c, s', last) && last + 1 >= c.maxAttempts
    decreases c.maxAttempts - attempts
  {
    if attempts + 1 >= c.maxAttempts {
      run, s', last := run0, s, attempts;
    } else {
      run, s' := PassFails(c, s0, run0, s, attempts);
      run, s', last := PassesFail(c, s0, run, s', attempts + 1);
    }
  }

  lemma LivePassAtStart(c: Config)
    ensures OneLivePass(c, AWAITING, 0)
  {
    assert AWAITING.jobs[0] == FreshJob(0, TranscribeSegment, 0, 0);
  }

  /**
   Whatever the settings, a run from the empty database parks the pass of a recording never
   completed; it never can be.
   */
  lemma ParkedPassIsReached(c: Config) returns (run: seq<Action>)
    ensures IsRun(c, INIT, run)
    ensures var s := After(c, INIT, run);
            && 0 in s.recs && s.recs[0].status == RecordingStatus.Failed
            && forall path | IsPath(c, s, path) :: !Enabled(c, Along(c, s, path), CompleteRecording(0))
  {
    var s: State, last: nat;
    run := ReachesAwaiting(c);
    LivePassAtStart(c);
    run, s, last := PassesFail(c, INIT, run, AWAITING, 0);
    run, s := LastPassFails(c, INIT, run, s, last);
    forall path | IsPath(c, s, path)
      ensures !Enabled(c, Along(c, s, path), CompleteRecording(0))
    {
      NeverCompletable(c, s, path, 0);
    }
  }

  lemma LastPassFails(c: Config, s0: State, run0: seq<Action>, s: State, last: nat)
    returns (run: seq<Action>, s': State)
    requires RunTo(c, s0, run0, s) && OneLivePass(c, s, last) && last + 1 >= c.maxAttempts
    ensures RunTo(c, s0, run, s') && 0 in s'.recs && s'.recs[0].status == RecordingStatus.Failed
  {
    var t := s.nextTask;
    var s1 := Apply(c, s, Claim(0, 0));
    Onward(c, s0, run0, s, Claim(0, 0), s1);
    assert s1.tasks == map[t := InStage(0, 0, 0, TranscribeSegment)];
    var s2 := Apply(c, s1, StageError(t));
    run := run0 + [Claim(0, 0)];
    Onward(c, s0, run, s1, StageError(t), s2);
    assert s2.tasks == map[t := Failing(0, 0, TranscribeSegment, last + 1)];
    var s3 := Apply(c, s2, Step(t));
    run := run + [StageError(t)];
    Onward(c, s0, run, s2, Step(t), s3);
    assert s3.tasks == map[t := MarkFailed(0)];
    s' := Apply(c, s3, Step(t));
    run := run + [Step(t)];
    Onward(c, s0, run, s3, Step(t), s');
    run := run + [Step(t)];
  }
}
