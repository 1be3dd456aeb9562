/** What every reachable state of the protocol satisfies. */
module ProtocolSafety {
  import opened Arithmetic
  import opened Types
  import opened JobTable
  import opened Protocol

  predicate IsHolder(t: Task) {
    t.InStage? || t.Failing?
  }

  /** Rows and tasks are numbered below the counters, and about known recordings. */
  ghost predicate Numbered(s: State) {
    && (forall id | id in s.jobs :: id < s.nextId && s.jobs[id].rec in s.recs)
    && (forall tid | tid in s.tasks :: tid < s.nextTask && s.tasks[tid].rec in s.recs)
    && (forall tid | tid in s.tasks && IsHolder(s.tasks[tid]) :: s.tasks[tid].job < s.nextId)
    && (forall tid | tid in s.tasks && s.tasks[tid].Failing? :: s.tasks[tid].next >= 1)
    && (forall tid | tid in s.tasks && s.tasks[tid].Succeeding? ::
          s.tasks[tid].rest != [] && forall k | k in s.tasks[tid].rest :: k in Successors(s.tasks[tid].kind))
  }

  /** The partial unique index: one live row for a recording and kind. */
  ghost predicate OneLiveRow(s: State) {
    forall i, j | i in s.jobs && j in s.jobs && Live(s.jobs[i]) && Live(s.jobs[j])
                  && s.jobs[i].rec == s.jobs[j].rec && s.jobs[i].kind == s.jobs[j].kind :: i == j
  }

  /** `row` is running, unexpired, and held by `t` for the work it was claimed for. */
  ghost predicate RowHeld(c: Config, now: int, t: Task, row: Job)
    requires IsHolder(t)
  {
    && row.state.Running? && row.rec == t.rec && row.kind == t.kind
    && (row.lockedAt.Some? ==> now - c.lease <= row.lockedAt.value)
    && (t.InStage? ==> row.lockedBy == Some(t.worker))
    && (t.Failing? ==> t.next == row.attempts + 1)
  }

  ghost predicate LeasesHeld(c: Config, s: State) {
    forall tid | tid in s.tasks && IsHolder(s.tasks[tid]) && s.tasks[tid].job in s.jobs ::
      RowHeld(c, s.now, s.tasks[tid], s.jobs[s.tasks[tid].job])
  }

  /** No job id is in the hands of two tasks. */
  ghost predicate Exclusive(s: State) {
    forall x, y | x in s.tasks && y in s.tasks && IsHolder(s.tasks[x]) && IsHolder(s.tasks[y])
                  && s.tasks[x].job == s.tasks[y].job :: x == y
  }

  /** Attempts a job may use: a first attempt is never refused. */
  function Allowance(c: Config): nat {
    if c.maxAttempts < 1 then 1 else c.maxAttempts
  }

  function BackoffBound(base: nat, n: nat): int {
    base * Pow2(n) - base
  }

  /** The books of one row: every claim ended exactly once, and nothing exceeds its bound. */
  ghost predicate RowAccounts(c: Config, j: Job) {
    && j.claims == j.attempts + j.deferrals + (if j.state.Running? || j.state.Done? then 1 else 0)
    && (if j.state.Failed? then 1 <= j.attempts <= Allowance(c) else j.attempts < Allowance(c))
    && j.backedOff <= BackoffBound(c.backoff, if j.state.Failed? then j.attempts - 1 else j.attempts)
    && (j.state.Running? ==> j.lockedBy.Some? && j.lockedAt.Some?)
    && (!j.state.Running? ==> j.lockedBy.None? && j.lockedAt.None?)
  }

  ghost predicate Accounts(c: Config, s: State) {
    forall id | id in s.jobs :: RowAccounts(c, s.jobs[id])
  }

  ghost predicate Core(c: Config, s: State) {
    Numbered(s) && OneLiveRow(s) && LeasesHeld(c, s) && Exclusive(s) && Accounts(c, s)
  }

  // -------------------------------------------------------- rows' books

  lemma BackoffStep(base: nat, n: nat)
    ensures BackoffBound(base, n + 1) == BackoffBound(base, n) + BackoffDelay(base, n + 1)
    ensures BackoffBound(base, n) <= BackoffBound(base, n + 1)
  {
    assert base * Pow2(n + 1) == base * (2 * Pow2(n)) == 2 * (base * Pow2(n));
  }

  lemma FailKeepsAccounts(c: Config, j: Job, now: int)
    requires RowAccounts(c, j) && j.state.Running?
    ensures RowAccounts(c, FailRow(j, j.attempts + 1, c.maxAttempts, c.backoff, now))
  {
    BackoffStep(c.backoff, j.attempts);
  }

  lemma ReapKeepsAccounts(c: Config, j: Job)
    requires RowAccounts(c, j) && j.state.Running?
    ensures RowAccounts(c, ReapRow(j, c.maxAttempts))
  {
    BackoffStep(c.backoff, j.attempts);
  }

  // -------------------------------------------- the same statements twice

  /** The queue's own statements are steps here: what it would insert, claim or reap. */
  lemma QueueStatementsAreSteps(c: Config, s: State, r: nat, k: JobKind, id: nat, kinds: set<JobKind>, worker: nat)
    ensures PerformRows(s, InsertRow(s, r, k)) == Enqueued(s.jobs, s.nextId, r, k, 0, s.now)
    ensures NextToClaim(s.jobs, id, kinds, s.now) ==>
              && Enabled(c, s, Claim(id, worker))
              && Apply(c, s, Claim(id, worker)).jobs == s.jobs[id := ClaimRow(s.jobs[id], worker, s.now)]
    ensures id in s.jobs && Expired(s.jobs[id], c.lease, s.now) ==>
              && Enabled(c, s, Reap(id))
              && Apply(c, s, Reap(id)).jobs == Updated(s.jobs, id, ReapRow(s.jobs[id], c.maxAttempts))
  {
  }

  /** So are a worker's: heartbeat, complete, defer, and the pair of statements of fail. */
  lemma WorkerStatementsAreSteps(c: Config, s: State, tid: nat, delay: nat)
    requires tid in s.tasks && s.tasks[tid].InStage? && s.tasks[tid].rec in s.recs
    ensures var t := s.tasks[tid];
            && Apply(c, s, Heartbeat(tid)).jobs == Stamped(s.jobs, t.job, t.worker, s.now)
            && Apply(c, s, StageOk(tid)).jobs == Completed(s.jobs, t.job)
            && (!BypassesSchedule(t.kind) ==>
                  Apply(c, s, StageDeferred(tid, delay)).jobs == Deferred(s.jobs, t.job, delay, s.now))
    ensures var t, read := s.tasks[tid], Apply(c, s, StageError(tid));
            if t.job !in s.jobs then read.jobs == s.jobs && tid !in read.tasks
            else
              && Enabled(c, read, Step(tid))
              && Apply(c, read, Step(tid)).jobs
                 == s.jobs[t.job := FailRow(s.jobs[t.job], s.jobs[t.job].attempts + 1, c.maxAttempts, c.backoff, s.now)]
  {
  }

  // ------------------------------------- statements that change one thing

  /** The row change keeps to live rows, keeps their books, and respects the unique index. */
  ghost predicate GoodRows(c: Config, s: State, e: RowChange) {
    match e
    case SameRows => true
    case WriteRow(id, row) =>
      id in s.jobs && Live(s.jobs[id]) && row.rec == s.jobs[id].rec && row.kind == s.jobs[id].kind
          && RowAccounts(c, row)
    case NewRow(row) =>
      row.state.Queued? && row.rec in s.recs && !HasLive(s.jobs, row.rec, row.kind) && RowAccounts(c, row)
    case DropRows(_, _) => true
  }

  ghost predicate GoodTask(s: State, t: Task) {
    && t.rec in s.recs
    && (IsHolder(t) ==> t.job < s.nextId)
    && (t.Failing? ==> t.next >= 1)
    && (t.Succeeding? ==> t.rest != [] && forall k | k in t.rest :: k in Successors(t.kind))
  }

  /** Such a change leaves every lease in one pair of hands. */
  ghost predicate GoodTasks(s: State, e: TaskChange) {
    match e
    case SameTasks => true
    case NewTask(t) =>
      GoodTask(s, t) && (IsHolder(t) ==> forall x | x in s.tasks && IsHolder(s.tasks[x]) :: s.tasks[x].job != t.job)
    case WriteTask(tid, t) =>
      tid in s.tasks && GoodTask(s, t) && (IsHolder(t) ==> IsHolder(s.tasks[tid]) && s.tasks[tid].job == t.job)
    case EndTask(tid) => tid in s.tasks
  }

  /** After the effect, whoever still holds a row holds it rightfully. */
  ghost predicate GoodLeases(c: Config, s: State, e: Effect) {
    && (e.rows.WriteRow? ==>
          forall x | x in s.tasks && IsHolder(s.tasks[x]) && s.tasks[x].job == e.rows.id ::
            || ((e.tasks.WriteTask? || e.tasks.EndTask?) && e.tasks.tid == x)
            || RowHeld(c, s.now, s.tasks[x], e.rows.row))
    && ((e.tasks.NewTask? || e.tasks.WriteTask?) && IsHolder(e.tasks.task) ==>
          var t := e.tasks.task;
          t.job in PerformRows(s, e.rows) ==> RowHeld(c, s.now, t, PerformRows(s, e.rows)[t.job]))
  }

  ghost predicate Good(c: Config, s: State, e: Effect) {
    GoodRows(c, s, e.rows) && GoodTasks(s, e.tasks) && GoodLeases(c, s, e)
  }

  lemma GoodKeepsNumbers(c: Config, s: State, e: Effect)
    requires Core(c, s) && Good(c, s, e)
    ensures Numbered(Perform(s, e))
  {
  }

  lemma GoodKeepsOneLiveRow(c: Config, s: State, e: Effect)
    requires Core(c, s) && Good(c, s, e)
    ensures OneLiveRow(Perform(s, e))
  {
  }

  lemma GoodKeepsLeases(c: Config, s: State, e: Effect)
    requires Core(c, s) && Good(c, s, e)
    ensures LeasesHeld(c, Perform(s, e))
  {
  }

  lemma GoodKeepsExclusion(c: Config, s: State, e: Effect)
    requires Core(c, s) && Good(c, s, e)
    ensures Exclusive(Perform(s, e))
  {
  }

  lemma GoodKeepsAccounts(c: Config, s: State, e: Effect)
    requires Core(c, s) && Good(c, s, e)
    ensures Accounts(c, Perform(s, e))
  {
  }

  lemma AdvanceIsGood(c: Config, s: State, tid: nat)
    requires Core(c, s) && CanAdvance(s, tid)
    ensures Good(c, s, Advance(c, s, tid))
  {
    var t := s.tasks[tid];
    if t.Failing? && t.job in s.jobs {
      FailKeepsAccounts(c, s.jobs[t.job], s.now);
    }
  }

  /** Reports of a finished stage write only the row their own lease covers. */
  lemma ReportIsGood(c: Config, s: State, a: Action)
    requires Core(c, s) && Enabled(c, s, a) && (a.StageOk? || a.StageError? || a.StageDeferred? || a.Heartbeat?)
    ensures Good(c, s, Outcome(c, s, a))
  {
  }

  lemma OutcomeIsGood(c: Config, s: State, a: Action)
    requires Core(c, s) && Enabled(c, s, a) && !a.Tick?
    ensures Good(c, s, Outcome(c, s, a))
  {
    match a
    case Step(tid) => AdvanceIsGood(c, s, tid);
    case Reap(job) => ReapKeepsAccounts(c, s.jobs[job]);
    case StageOk(_) => ReportIsGood(c, s, a);
    case StageError(_) => ReportIsGood(c, s, a);
    case StageDeferred(_, _) => ReportIsGood(c, s, a);
    case Heartbeat(_) => ReportIsGood(c, s, a);
    case _ =>
  }

  lemma GoodKeepsCore(c: Config, s: State, e: Effect)
    requires Core(c, s) && Good(c, s, e)
    ensures Core(c, Perform(s, e))
  {
    GoodKeepsNumbers(c, s, e);
    GoodKeepsOneLiveRow(c, s, e);
    GoodKeepsLeases(c, s, e);
    GoodKeepsExclusion(c, s, e);
    GoodKeepsAccounts(c, s, e);
  }

  /**
   A worker whose row is still there holds it in its own name, so its heartbeat lands: the lease then
   lasts a full term from now, and every other row is as it was.
   */
  lemma HeartbeatLands(c: Config, s: State, tid: nat)
    requires Core(c, s) && tid in s.tasks && s.tasks[tid].InStage? && s.tasks[tid].job in s.jobs
    ensures Holding(s.jobs, s.tasks[tid].job, s.tasks[tid].worker)
    ensures var id, after := s.tasks[tid].job, Apply(c, s, Heartbeat(tid)).jobs;
            && OthersUntouched(s.jobs, after, id)
            && after[id] == s.jobs[id].(lockedAt := Some(s.now))
            && forall at: int :: Expired(after[id], c.lease, at) <==> at > s.now + c.lease
  {
    assert RowHeld(c, s.now, s.tasks[tid], s.jobs[s.tasks[tid].job]);
  }

  lemma CoreStep(c: Config, s: State, a: Action)
    requires Core(c, s) && Enabled(c, s, a) && Admissible(c, s, a)
    ensures Core(c, Apply(c, s, a))
  {
    if !a.Tick? {
      OutcomeIsGood(c, s, a);
      GoodKeepsCore(c, s, Outcome(c, s, a));
    }
  }
}
