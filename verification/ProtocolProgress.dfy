/** Reachable states, freedom from deadlock, and what bounds claims. */
module ProtocolProgress {
  import opened Arithmetic
  import opened Types
  import opened JobTable
  import opened Protocol
  import opened ProtocolSafety
  import opened ProtocolJoins
  import opened ProtocolLive

  // ------------------------------------------------------ reachable states

  ghost predicate Invariant(c: Config, s: State) {
    && Core(c, s)
    && (forall r :: Joined(s, r))
    && (forall r :: NotStalled(s, r))
  }

  lemma InvariantStep(c: Config, s: State, a: Action)
    requires Invariant(c, s) && Enabled(c, s, a) && Admissible(c, s, a)
    ensures Invariant(c, Apply(c, s, a))
  {
    CoreStep(c, s, a);
    forall r
      ensures Joined(Apply(c, s, a), r)
    {
      JoinedStep(c, s, a, r);
    }
    forall r
      ensures NotStalled(Apply(c, s, a), r)
    {
      NotStalledStep(c, s, a, r);
    }
  }

  lemma InvariantAtStart(c: Config)
    ensures Invariant(c, INIT)
  {
    forall r
      ensures Joined(INIT, r)
    {
      forall k: JobKind | Predecessors(k) != []
        ensures !PredecessorsDone(INIT.jobs, r, k)
      {
        assert Predecessors(k)[0] in Predecessors(k);
      }
    }
  }

  /** Every state of every run satisfies the invariant. */
  lemma {:induction false} RunsKeepInvariant(c: Config, s: State, run: seq<Action>)
    requires Invariant(c, s) && IsRun(c, s, run)
    ensures Invariant(c, After(c, s, run))
    decreases |run|
  {
    if run != [] {
      InvariantStep(c, s, run[0]);
      RunsKeepInvariant(c, Apply(c, s, run[0]), run[1..]);
    }
  }

  // ------------------------------------------------- lease and done rows

  /** Over any run from the empty database, the heartbeat of a worker whose row is still there lands. */
  lemma EveryHeartbeatLands(c: Config, run: seq<Action>, tid: nat)
    requires IsRun(c, INIT, run)
    requires var s := After(c, INIT, run); tid in s.tasks && s.tasks[tid].InStage? && s.tasks[tid].job in s.jobs
    ensures var s := After(c, INIT, run);
            var t, after := s.tasks[tid], Apply(c, s, Heartbeat(tid)).jobs;
            && Holding(s.jobs, t.job, t.worker) && OthersUntouched(s.jobs, after, t.job)
            && after[t.job].lockedAt == Some(s.now)
            && forall at: int :: Expired(after[t.job], c.lease, at) <==> at > s.now + c.lease
  {
    InvariantAtStart(c);
    RunsKeepInvariant(c, INIT, run);
    HeartbeatLands(c, After(c, INIT, run), tid);
  }

  /** The reaper takes only rows that no living task holds. */
  lemma ReaperTakesOnlyTheDead(c: Config, s: State, job: nat)
    requires Core(c, s) && Enabled(c, s, Reap(job))
    ensures forall tid | tid in s.tasks :: !Holds(s.tasks[tid], job)
  {
    forall tid | tid in s.tasks
      ensures !Holds(s.tasks[tid], job)
    {
      assert IsHolder(s.tasks[tid]) && s.tasks[tid].job == job ==> RowHeld(c, s.now, s.tasks[tid], s.jobs[job]);
    }
  }

  /** A done row stays done until a reset deletes it; its id is never used again. */
  lemma {:induction false} DoneStaysDone(c: Config, s: State, run: seq<Action>, id: nat)
    requires Core(c, s) && IsRun(c, s, run) && id < s.nextId
    requires id in s.jobs ==> s.jobs[id].state.Done?
    ensures var s' := After(c, s, run); id < s'.nextId && (id in s'.jobs ==> id in s.jobs && s'.jobs[id] == s.jobs[id])
    decreases |run|
  {
    if run != [] {
      CoreStep(c, s, run[0]);
      DoneStaysDoneOnce(c, s, run[0], id);
      DoneStaysDone(c, Apply(c, s, run[0]), run[1..], id);
    }
  }

  lemma DoneStaysDoneOnce(c: Config, s: State, a: Action, id: nat)
    requires Core(c, s) && Enabled(c, s, a) && id < s.nextId
    requires id in s.jobs ==> s.jobs[id].state.Done?
    ensures var s' := Apply(c, s, a); id < s'.nextId && (id in s'.jobs ==> id in s.jobs && s'.jobs[id] == s.jobs[id])
  {
    if !a.Tick? { OutcomeIsGood(c, s, a); }
  }

  /** Claims are used up: attempts, deferrals, and at most one more; backoff is bounded too. */
  lemma ClaimsAreBounded(c: Config, s: State, id: nat)
    requires Core(c, s) && id in s.jobs
    ensures var j := s.jobs[id];
            && j.claims <= Allowance(c) + j.deferrals
            && (c.maxAttempts >= 1 ==> j.backedOff <= c.backoff * (Pow2(c.maxAttempts - 1) - 1))
  {
    var j := s.jobs[id];
    if c.maxAttempts >= 1 {
      BackoffMonotone(c.backoff, if j.state.Failed? then j.attempts - 1 else j.attempts, c.maxAttempts - 1);
    }
  }

  lemma {:induction false} BackoffMonotone(base: nat, m: nat, n: nat)
    requires m <= n
    ensures BackoffBound(base, m) <= BackoffBound(base, n) == base * (Pow2(n) - 1)
    decreases n
  {
    if m < n {
      BackoffMonotone(base, m, n - 1);
      BackoffStep(base, n - 1);
    }
  }

  // -------------------------------------------------- freedom from deadlock

  /** The recording entered the pipeline and none of its stages is parked. */
  ghost predicate Underway(s: State, r: nat) {
    && (HasRow(s.jobs, r, Transcode) || OwesRow(s.tasks, r, Transcode))
    && (forall id | id in s.jobs && s.jobs[id].rec == r && !s.jobs[id].kind.TranscribeSegment? ::
        !s.jobs[id].state.Failed?)
  }

  ghost predicate HasPipelineWork(s: State, r: nat) {
    || (exists k: JobKind :: !k.TranscribeSegment? && HasLive(s.jobs, r, k))
    || (exists k: JobKind :: !k.TranscribeSegment? && OwesRow(s.tasks, r, k))
    || OwesReady(s.tasks, r)
  }

  /** No deadlock: ready, or a live job, or an owed statement. */
  lemma NoDeadlock(c: Config, s: State, r: nat)
    requires Joined(s, r) && r in s.recs && Underway(s, r)
    ensures s.recs[r].readyMarked || HasPipelineWork(s, r)
  {
    if !HasPipelineWork(s, r) {
      StageFinished(s, r, Transcode);
      StageFinished(s, r, Diarize);
      StageFinished(s, r, Transcribe);
      StageFinished(s, r, Merge);
      StageFinished(s, r, Embed);
      StageFinished(s, r, Summarize);
    }
  }

  lemma StageFinished(s: State, r: nat, k: JobKind)
    requires Joined(s, r) && Underway(s, r) && !HasPipelineWork(s, r) && !k.TranscribeSegment?
    requires PredecessorsDone(s.jobs, r, k)
    ensures HasDone(s.jobs, r, k)
  {
    assert !OwesRow(s.tasks, r, k);
    assert HasRow(s.jobs, r, k);
    var id :| id in s.jobs && s.jobs[id].rec == r && s.jobs[id].kind == k;
    assert !HasLive(s.jobs, r, k);
    assert !Live(s.jobs[id]);
  }

  /**
   In every state of every admissible run from the empty database: the books balance
   and leases exclude, gates and joins hold, live transcription is not stalled, and a
   recording under way is ready or has work.
   */
  lemma EveryRun(c: Config, run: seq<Action>, r: nat)
    requires IsRun(c, INIT, run)
    ensures var s := After(c, INIT, run);
            && Core(c, s) && Joined(s, r) && NotStalled(s, r)
            && (r in s.recs && Underway(s, r) ==> s.recs[r].readyMarked || HasPipelineWork(s, r))
  {
    InvariantAtStart(c);
    RunsKeepInvariant(c, INIT, run);
    var s := After(c, INIT, run);
    assert Joined(s, r) && NotStalled(s, r);
    if r in s.recs && Underway(s, r) { NoDeadlock(c, s, r); }
  }

  /** The statement or claim `a` moves the work of `r` on. */
  predicate WorksFor(c: Config, s: State, a: Action, r: nat)
    requires Enabled(c, s, a)
  {
    match a
    case Claim(job, _) => s.jobs[job].rec == r
    case Reap(job) => s.jobs[job].rec == r
    case StageOk(tid) => s.tasks[tid].rec == r
    case StageError(tid) => s.tasks[tid].rec == r
    case StageDeferred(tid, _) => s.tasks[tid].rec == r
    case Die(tid) => s.tasks[tid].rec == r
    case Step(tid) => s.tasks[tid].rec == r
    case _ => false
  }

  /** `a` carries the work of `r` on, workers being free to claim `kinds` under the schedule and their configuration. */
  predicate MovesOn(c: Config, s: State, a: Action, r: nat, kinds: set<JobKind>)
    requires Enabled(c, s, a)
  {
    match a
    case Claim(job, _) => s.jobs[job].rec == r && s.jobs[job].kind in kinds
    case Reap(job) => s.jobs[job].rec == r
    case StageOk(tid) => s.tasks[tid].rec == r
    case Step(tid) => s.tasks[tid].rec == r
    case _ => false
  }

  ghost predicate CanMoveOn(c: Config, s: State, r: nat, kinds: set<JobKind>) {
    exists a: Action :: Enabled(c, s, a) && Admissible(c, s, a) && MovesOn(c, s, a, r, kinds)
  }

  /** A row of `r` waits: for its due time, for its kind to be allowed, or for a dead worker's lease to expire. */
  ghost predicate Waits(c: Config, s: State, r: nat, kinds: set<JobKind>, id: nat) {
    && id in s.jobs && s.jobs[id].rec == r
    && (|| (s.jobs[id].state.Queued? && (s.now < s.jobs[id].runAfter || s.jobs[id].kind !in kinds))
        || (s.jobs[id].state.Running? && s.jobs[id].lockedAt.Some? && s.now <= s.jobs[id].lockedAt.value + c.lease
            && forall tid | tid in s.tasks :: !Holds(s.tasks[tid], id)))
  }

  /** Work that exists can be carried on now, or waits for one of those three. */
  lemma WorkCanMove(c: Config, s: State, r: nat, kinds: set<JobKind>)
    requires Core(c, s) && HasPipelineWork(s, r)
    ensures CanMoveOn(c, s, r, kinds) || exists id :: Waits(c, s, r, kinds, id)
  {
    if OwesReady(s.tasks, r) {
      var tid :| tid in s.tasks && s.tasks[tid].rec == r && (s.tasks[tid].ReadyCheck? || s.tasks[tid].ReadyMark?);
      assert Enabled(c, s, Step(tid)) && MovesOn(c, s, Step(tid), r, kinds);
    } else if k: JobKind :| !k.TranscribeSegment? && OwesRow(s.tasks, r, k) {
      var tid :| tid in s.tasks && TaskOwes(s.tasks[tid], r, k);
      assert Enabled(c, s, Step(tid)) && MovesOn(c, s, Step(tid), r, kinds);
    } else {
      var k: JobKind :| !k.TranscribeSegment? && HasLive(s.jobs, r, k);
      var id :| id in s.jobs && s.jobs[id].rec == r && s.jobs[id].kind == k && Live(s.jobs[id]);
      LiveRowCanMove(c, s, r, kinds, id);
    }
  }

  lemma LiveRowCanMove(c: Config, s: State, r: nat, kinds: set<JobKind>, id: nat)
    requires Core(c, s) && id in s.jobs && s.jobs[id].rec == r && Live(s.jobs[id])
    ensures CanMoveOn(c, s, r, kinds) || Waits(c, s, r, kinds, id)
  {
    var j := s.jobs[id];
    assert RowAccounts(c, j);
    if j.state.Queued? && j.runAfter <= s.now {
      if j.kind in kinds {
        assert Enabled(c, s, Claim(id, 0)) && MovesOn(c, s, Claim(id, 0), r, kinds);
      }
    } else if tid :| tid in s.tasks && Holds(s.tasks[tid], id) {
      assert RowHeld(c, s.now, s.tasks[tid], j);
      var a := if s.tasks[tid].InStage? then StageOk(tid) else Step(tid);
      assert Enabled(c, s, a) && MovesOn(c, s, a, r, kinds);
    } else if j.state.Running? && j.lockedAt.value < s.now - c.lease {
      assert Enabled(c, s, Reap(id)) && MovesOn(c, s, Reap(id), r, kinds);
    }
  }

  // ------------------------------------------------------ the stored status

  /** A recording stops showing ready only by a reset, a failed mark, or a completion read long before. */
  lemma ReadyIsLeftIff(c: Config, s: State, a: Action, r: nat)
    requires Enabled(c, s, a) && r in s.recs && s.recs[r].status.Ready?
    ensures !Apply(c, s, a).recs[r].status.Ready? <==>
            || a == Reprocess(r) || a == Rediarize(r)
            || (a.Step? && (s.tasks[a.tid] == MarkFailed(r) || s.tasks[a.tid] == Completing(r)))
  {
    if a.Step? { assert CanAdvance(s, a.tid); }
  }
}
