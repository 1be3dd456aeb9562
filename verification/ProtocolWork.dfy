/** Termination: a potential that every piece of work for a recording uses up. */
module ProtocolWork {
  import opened Types
  import opened JobTable
  import opened Protocol
  import opened ProtocolSafety
  import opened ProtocolJoins
  import opened ProtocolLive
  import opened ProtocolProgress
  import opened Sums

  // ------------------------------------------------------------- weights
  // A stage's follow-up is weighed before the stages that lead to it.

  /** All the work one fresh row of a kind with follow-up `p` can cause. */
  function FullRow(c: Config, p: nat): nat {
    Allowance(c) * (7 + p)
  }

  /** Considering, then inserting, such a row. */
  function Edge(c: Config, p: nat): nat {
    2 + FullRow(c, p)
  }

  function AfterMerge(c: Config): nat {
    Edge(c, 2) + Edge(c, 2)
  }

  function AfterEar(c: Config): nat {
    Edge(c, AfterMerge(c))
  }

  /** The weight of what a worker owes after completing a stage of this kind. */
  function FollowUp(c: Config, k: JobKind): nat {
    match k
    case Transcode => Edge(c, AfterEar(c)) + Edge(c, AfterEar(c))
    case Diarize => AfterEar(c)
    case Transcribe => AfterEar(c)
    case Merge => AfterMerge(c)
    case Embed => 2
    case Summarize => 2
    case TranscribeSegment => 1
  }

  function KindEdge(c: Config, k: JobKind): nat {
    Edge(c, FollowUp(c, k))
  }

  function RestWeight(c: Config, rest: seq<JobKind>): nat {
    if rest == [] then 0 else KindEdge(c, rest[0]) + RestWeight(c, rest[1..])
  }

  /** Work left in `n` further attempts of a kind. */
  function Tries(c: Config, n: int, k: JobKind): int {
    n * (7 + FollowUp(c, k))
  }

  function RowWeight(c: Config, r: nat): Job -> int {
    (j: Job) =>
      if j.rec != r then 0
      else if j.state.Queued? then Tries(c, Allowance(c) - j.attempts, j.kind)
      else if j.state.Running? then Tries(c, Allowance(c) - j.attempts, j.kind) - 4 - FollowUp(c, j.kind)
      else 0
  }

  function TaskWeight(c: Config, r: nat): Task -> int {
    (t: Task) =>
      if t.rec != r then 0
      else match t
        case InStage(_, _, _, k) => 3 + FollowUp(c, k)
        case Failing(_, _, _, _) => 2
        case MarkFailed(_) => 1
        case Succeeding(_, _, rest, checked) => RestWeight(c, rest) - (if checked then 1 else 0)
        case ReadyCheck(_) => 2
        case ReadyMark(_) => 1
        case LiveStatus(_) => 1
        case LiveCount(_) => KindEdge(c, TranscribeSegment)
        case OweEnqueue(_, k) => KindEdge(c, k) - 1
        case Completing(_) => KindEdge(c, Transcode)
        case Inserting(_, _, _) => KindEdge(c, TranscribeSegment)
  }

  /** The work still in the system for `r`. */
  ghost function Potential(c: Config, s: State, r: nat): int {
    Sum(s.jobs, s.nextId, RowWeight(c, r)) + Sum(s.tasks, s.nextTask, TaskWeight(c, r))
  }

  lemma TriesStep(c: Config, n: int, k: JobKind)
    ensures Tries(c, n, k) == Tries(c, n - 1, k) + 7 + FollowUp(c, k)
    ensures n >= 1 ==> Tries(c, n, k) >= 7 + FollowUp(c, k)
    ensures n >= 0 ==> Tries(c, n, k) >= 0
  {
    OneMoreTime(n, 7 + FollowUp(c, k));
  }

  lemma OneMoreTime(n: int, x: nat)
    ensures n * x == (n - 1) * x + x
    ensures n >= 0 ==> n * x >= 0
    ensures n >= 1 ==> n * x >= x
  {
  }

  lemma FollowUpIsRest(c: Config, k: JobKind)
    requires Successors(k) != []
    ensures RestWeight(c, Successors(k)) == FollowUp(c, k)
  {
    assert Successors(k)[1..] == if k.Transcode? then [Transcribe] else if k.Merge? then [Summarize] else [];
    if k.Transcode? || k.Merge? {
      assert RestWeight(c, Successors(k)[1..]) == KindEdge(c, Successors(k)[1]) by {
        assert Successors(k)[1..][1..] == [];
      }
    }
  }

  /** Every weight is non-negative, so the potential is a natural number. */
  lemma PotentialNonNegative(c: Config, s: State, r: nat)
    requires Core(c, s)
    ensures 0 <= Potential(c, s, r)
  {
    forall i: nat | i < s.nextId
      ensures 0 <= At(s.jobs, i, RowWeight(c, r))
    {
      if i in s.jobs { TriesStep(c, Allowance(c) - s.jobs[i].attempts, s.jobs[i].kind); }
    }
    SumCovers(s.jobs, s.nextId, RowWeight(c, r));
    SumCovers(s.tasks, s.nextTask, TaskWeight(c, r));
  }

  // ------------------------------------------------------ one statement

  ghost function RowDelta(s: State, e: RowChange, w: Job -> int): int {
    match e
    case SameRows => 0
    case WriteRow(id, row) => w(row) - At(s.jobs, id, w)
    case NewRow(row) => w(row)
    case DropRows(_, _) => 0
  }

  lemma RowSumMoves(c: Config, s: State, e: Effect, r: nat)
    requires Numbered(s) && (e.rows.WriteRow? ==> e.rows.id in s.jobs)
    requires e.rows.DropRows? ==> e.rows.rec != r
    ensures var s' := Perform(s, e);
            Sum(s'.jobs, s'.nextId, RowWeight(c, r))
            == Sum(s.jobs, s.nextId, RowWeight(c, r)) + RowDelta(s, e.rows, RowWeight(c, r))
  {
    var s' := Perform(s, e);
    var w := RowWeight(c, r);
    match e.rows
    case SameRows =>
    case NewRow(row) => SameWeights(s.jobs, s'.jobs, s.nextId, w);
    case WriteRow(id, row) => OneChange(s.jobs, s'.jobs, s.nextId, id, w);
    case DropRows(_, _) => SameWeights(s.jobs, s'.jobs, s.nextId, w);
  }

  ghost function EffectDelta(c: Config, s: State, e: Effect, r: nat): int {
    RowDelta(s, e.rows, RowWeight(c, r)) + TaskDelta(s, e.tasks, TaskWeight(c, r))
  }

  lemma PotentialMoves(c: Config, s: State, e: Effect, r: nat)
    requires Core(c, s) && Good(c, s, e) && (e.rows.DropRows? ==> e.rows.rec != r)
    ensures Potential(c, Perform(s, e), r) == Potential(c, s, r) + EffectDelta(c, s, e, r)
  {
    RowSumMoves(c, s, e, r);
    TaskSumMoves(s, e, TaskWeight(c, r));
  }

  /** Inserting a row costs no more than the edge that led to it, less one. */
  lemma InsertCosts(c: Config, s: State, r: nat, r0: nat, k: JobKind)
    ensures 0 <= RowDelta(s, InsertRow(s, r0, k), RowWeight(c, r)) <= if r0 == r then KindEdge(c, k) - 2 else 0
  {
    assert Tries(c, Allowance(c), k) == FullRow(c, FollowUp(c, k));
  }

  /** A stale or current holder's FAIL releases more than the mark it may leave. */
  lemma FailReleases(c: Config, s: State, tid: nat, r: nat)
    requires Core(c, s) && CanAdvance(s, tid) && s.tasks[tid].Failing?
    ensures EffectDelta(c, s, Advance(c, s, tid), r) <= if s.tasks[tid].rec == r then -1 else 0
    ensures s.tasks[tid].rec != r ==> EffectDelta(c, s, Advance(c, s, tid), r) == 0
  {
    var t := s.tasks[tid];
    if t.job in s.jobs {
      assert RowHeld(c, s.now, t, s.jobs[t.job]);
      TriesStep(c, Allowance(c) - s.jobs[t.job].attempts, t.kind);
      TriesStep(c, Allowance(c) - s.jobs[t.job].attempts - 1, t.kind);
    }
  }

  lemma SuccessorReleases(c: Config, s: State, tid: nat, r: nat)
    requires Core(c, s) && CanAdvance(s, tid) && s.tasks[tid].Succeeding?
    ensures EffectDelta(c, s, Advance(c, s, tid), r) <= if s.tasks[tid].rec == r then -1 else 0
  {
    InsertCosts(c, s, r, s.tasks[tid].rec, s.tasks[tid].rest[0]);
  }

  lemma AdvanceReleases(c: Config, s: State, tid: nat, r: nat)
    requires Core(c, s) && CanAdvance(s, tid) && r in s.recs && !s.recs[r].status.Uploading?
    ensures EffectDelta(c, s, Advance(c, s, tid), r) <= if s.tasks[tid].rec == r then -1 else 0
  {
    var t := s.tasks[tid];
    match t
    case Failing(_, _, _, _) => FailReleases(c, s, tid, r);
    case Succeeding(_, _, _, _) => SuccessorReleases(c, s, tid, r);
    case OweEnqueue(r0, k) => InsertCosts(c, s, r, r0, k);
    case _ =>
  }

  lemma HolderReleases(c: Config, s: State, a: Action, r: nat)
    requires Core(c, s) && Enabled(c, s, a) && (a.StageOk? || a.StageError? || a.StageDeferred?)
    ensures EffectDelta(c, s, Outcome(c, s, a), r)
            <= if !WorksFor(c, s, a, r) then 0 else if a.StageDeferred? then 1 else -1
  {
    if a.StageOk? {
      CompletionReleases(c, s, a.tid, r);
    } else {
      PuttingDownReleases(c, s, a, r);
    }
  }

  lemma CompletionReleases(c: Config, s: State, tid: nat, r: nat)
    requires Core(c, s) && Enabled(c, s, StageOk(tid))
    ensures EffectDelta(c, s, Outcome(c, s, StageOk(tid)), r) <= if s.tasks[tid].rec == r then -1 else 0
  {
    var t := s.tasks[tid];
    if t.job in s.jobs {
      assert RowHeld(c, s.now, t, s.jobs[t.job]);
      TriesStep(c, Allowance(c) - s.jobs[t.job].attempts, t.kind);
    }
    if Successors(t.kind) != [] { FollowUpIsRest(c, t.kind); }
  }

  lemma PuttingDownReleases(c: Config, s: State, a: Action, r: nat)
    requires Core(c, s) && Enabled(c, s, a) && (a.StageError? || a.StageDeferred?)
    ensures EffectDelta(c, s, Outcome(c, s, a), r)
            <= if !WorksFor(c, s, a, r) then 0 else if a.StageDeferred? then 1 else -1
  {
    var t := s.tasks[a.tid];
    if t.job in s.jobs {
      assert RowHeld(c, s.now, t, s.jobs[t.job]);
      TriesStep(c, Allowance(c) - s.jobs[t.job].attempts, t.kind);
    }
  }

  lemma QueueReleases(c: Config, s: State, a: Action, r: nat)
    requires Core(c, s) && Enabled(c, s, a) && (a.Claim? || a.Reap?)
    ensures EffectDelta(c, s, Outcome(c, s, a), r) <= if WorksFor(c, s, a, r) then -1 else 0
  {
    var j := s.jobs[a.job];
    assert RowAccounts(c, j);
    TriesStep(c, Allowance(c) - j.attempts, j.kind);
    TriesStep(c, Allowance(c) - j.attempts - 1, j.kind);
  }

  /** A request that starts new work for `r`. */
  predicate RequestFor(a: Action, r: nat) {
    (a.PutSegment? || a.CompleteRecording? || a.Reprocess? || a.Rediarize? || a.SummarizeRecording?) && a.rec == r
  }

  lemma OutcomeReleases(c: Config, s: State, a: Action, r: nat)
    requires Core(c, s) && Enabled(c, s, a) && !a.Tick? && !RequestFor(a, r)
    requires r in s.recs && !s.recs[r].status.Uploading?
    ensures EffectDelta(c, s, Outcome(c, s, a), r)
            <= if !WorksFor(c, s, a, r) then 0 else if a.StageDeferred? then 1 else -1
  {
    match a
    case Step(tid) => AdvanceReleases(c, s, tid, r);
    case Claim(_, _) => QueueReleases(c, s, a, r);
    case Reap(_) => QueueReleases(c, s, a, r);
    case StageOk(_) => HolderReleases(c, s, a, r);
    case StageError(_) => HolderReleases(c, s, a, r);
    case StageDeferred(_, _) => HolderReleases(c, s, a, r);
    case SummarizeRecording(r0) => InsertCosts(c, s, r, r0, Summarize);
    case _ =>
  }

  /** Work strictly uses the potential up; a deferral gives back one unit at most. */
  lemma WorkUsesPotential(c: Config, s: State, a: Action, r: nat)
    requires Core(c, s) && Enabled(c, s, a) && Admissible(c, s, a) && !RequestFor(a, r)
    requires r in s.recs && !s.recs[r].status.Uploading?
    ensures Potential(c, Apply(c, s, a), r)
            <= Potential(c, s, r) + if !WorksFor(c, s, a, r) then 0 else if a.StageDeferred? then 1 else -1
  {
    if !a.Tick? {
      OutcomeIsGood(c, s, a);
      OutcomeReleases(c, s, a, r);
      PotentialMoves(c, s, Outcome(c, s, a), r);
    }
  }

  // ------------------------------------------------------------ whole runs

  /** How many actions of the run work for `r` … */
  function WorkOf(c: Config, s: State, run: seq<Action>, r: nat): nat
    requires IsRun(c, s, run)
    decreases |run|
  {
    if run == [] then 0
    else (if WorksFor(c, s, run[0], r) then 1 else 0) + WorkOf(c, Apply(c, s, run[0]), run[1..], r)
  }

  /** … and how many of those put a stage down at a closed window. */
  function DeferralsOf(c: Config, s: State, run: seq<Action>, r: nat): nat
    requires IsRun(c, s, run)
    decreases |run|
  {
    if run == [] then 0
    else (if run[0].StageDeferred? && WorksFor(c, s, run[0], r) then 1 else 0)
         + DeferralsOf(c, Apply(c, s, run[0]), run[1..], r)
  }

  /**
   Without new requests for it, a recording that is no longer uploading costs a
   bounded amount of work: at most its potential plus two for every deferral.
   */
  lemma {:induction false} WorkIsBounded(c: Config, s: State, run: seq<Action>, r: nat)
    requires Core(c, s) && IsRun(c, s, run) && r in s.recs && !s.recs[r].status.Uploading?
    requires forall a | a in run :: !RequestFor(a, r)
    ensures WorkOf(c, s, run, r) + Potential(c, After(c, s, run), r)
            <= Potential(c, s, r) + 2 * DeferralsOf(c, s, run, r)
    ensures 0 <= Potential(c, After(c, s, run), r)
    decreases |run|
  {
    if run == [] {
      PotentialNonNegative(c, s, r);
    } else {
      var s1 := Apply(c, s, run[0]);
      assert run[0] in run;
      CoreStep(c, s, run[0]);
      UploadingIsLeftForGood(c, s, run[0], r);
      WorkUsesPotential(c, s, run[0], r);
      WorkIsBounded(c, s1, run[1..], r);
    }
  }

  /** When the potential is used up, a recording in the pipeline is ready or parked. */
  lemma SpentMeansSettled(c: Config, s: State, r: nat)
    requires Invariant(c, s) && r in s.recs && Potential(c, s, r) == 0
    requires s.recs[r].status.Processing? || s.recs[r].status.Ready?
    ensures || s.recs[r].readyMarked
            || exists id :: id in s.jobs && s.jobs[id].rec == r && s.jobs[id].state.Failed?
                && !s.jobs[id].kind.TranscribeSegment?
  {
    if HasPipelineWork(s, r) { WorkWeighs(c, s, r); }
    if Underway(s, r) {
      assert Joined(s, r);
      NoDeadlock(c, s, r);
    } else {
      assert Joined(s, r);
    }
  }

  lemma WorkWeighs(c: Config, s: State, r: nat)
    requires Core(c, s) && HasPipelineWork(s, r)
    ensures Potential(c, s, r) > 0
  {
    forall i: nat | i < s.nextId
      ensures 0 <= At(s.jobs, i, RowWeight(c, r))
      ensures i in s.jobs && s.jobs[i].rec == r && Live(s.jobs[i]) ==> 0 < At(s.jobs, i, RowWeight(c, r))
    {
      if i in s.jobs {
        assert RowAccounts(c, s.jobs[i]);
        TriesStep(c, Allowance(c) - s.jobs[i].attempts, s.jobs[i].kind);
      }
    }
    forall i: nat | i < s.nextTask && i in s.tasks
      ensures 0 <= At(s.tasks, i, TaskWeight(c, r))
      ensures s.tasks[i].rec == r ==> 0 < At(s.tasks, i, TaskWeight(c, r))
    {
    }
    SumCovers(s.jobs, s.nextId, RowWeight(c, r));
    SumCovers(s.tasks, s.nextTask, TaskWeight(c, r));
    if k: JobKind :| !k.TranscribeSegment? && HasLive(s.jobs, r, k) {
      var id :| id in s.jobs && s.jobs[id].rec == r && s.jobs[id].kind == k && Live(s.jobs[id]);
    } else if k: JobKind :| !k.TranscribeSegment? && OwesRow(s.tasks, r, k) {
      var tid :| tid in s.tasks && TaskOwes(s.tasks[tid], r, k);
    }
  }
}
