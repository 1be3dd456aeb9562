/**
 The `jobs` table. A row's life is a set of row functions; the statements of the
 queue are table functions built from them, and `JobQueue` is the mutable table
 whose methods are those statements.
 */
module JobTable {
  import opened Arithmetic
  import opened Types

  /**
   A row of the queue. `claims`, `deferrals` and `backedOff` (the seconds of retry
   delay charged so far) are history kept for the proofs; no statement reads them.
   */
  datatype Job = Job(
    rec: nat,
    kind: JobKind,
    state: JobState,
    priority: int,
    attempts: nat,
    runAfter: int,
    lockedBy: Option<nat>,
    lockedAt: Option<int>,
    createdAt: int,
    claims: nat,
    deferrals: nat,
    backedOff: nat)

  type Table = map<nat, Job>

  // ---------------------------------------------------------------- rows

  function FreshJob(rec: nat, kind: JobKind, priority: int, now: int): Job {
    Job(rec, kind, Queued, priority, 0, now, None, None, now, 0, 0, 0)
  }

  function ClaimRow(j: Job, worker: nat, now: int): Job {
    j.(state := Running, lockedBy := Some(worker), lockedAt := Some(now), claims := j.claims + 1)
  }

  function CompleteRow(j: Job): Job {
    j.(state := Done, lockedBy := None, lockedAt := None)
  }

  /** Retry delay after the `attempts`-th failure. */
  function BackoffDelay(base: nat, attempts: nat): nat
    requires attempts >= 1
  {
    base * Pow2(attempts - 1)
  }

  function FailRow(j: Job, next: nat, maxAttempts: int, base: nat, now: int): Job
    requires next >= 1
  {
    if next < maxAttempts then
      j.(state := Queued, attempts := next, lockedBy := None, lockedAt := None,
         runAfter := now + BackoffDelay(base, next), backedOff := j.backedOff + BackoffDelay(base, next))
    else
      j.(state := JobState.Failed, attempts := next, lockedBy := None, lockedAt := None)
  }

  function DeferRow(j: Job, delay: nat, now: int): Job {
    j.(state := Queued, lockedBy := None, lockedAt := None, runAfter := now + delay, deferrals := j.deferrals + 1)
  }

  function ReapRow(j: Job, maxAttempts: int): Job {
    j.(attempts := j.attempts + 1,
       state := if j.attempts + 1 >= maxAttempts then JobState.Failed else Queued,
       lockedBy := None, lockedAt := None)
  }

  /** Is this row's lease older than `lease`? */
  predicate Expired(j: Job, lease: int, now: int) {
    j.state.Running? && j.lockedAt.Some? && j.lockedAt.value < now - lease
  }

  predicate Live(j: Job) {
    j.state.Queued? || j.state.Running?
  }

  // --------------------------------------------------------------- table

  predicate HasRow(t: Table, r: nat, k: JobKind) {
    exists id | id in t :: t[id].rec == r && t[id].kind == k
  }

  predicate HasLive(t: Table, r: nat, k: JobKind) {
    exists id | id in t :: t[id].rec == r && t[id].kind == k && Live(t[id])
  }

  predicate HasDone(t: Table, r: nat, k: JobKind) {
    exists id | id in t :: t[id].rec == r && t[id].kind == k && t[id].state.Done?
  }

  /** Every predecessor kind of `k` has a done row. */
  predicate PredecessorsDone(t: Table, r: nat, k: JobKind) {
    forall p | p in Predecessors(k) :: HasDone(t, r, p)
  }

  /** `INSERT … ON CONFLICT DO NOTHING` against the live-row unique index. */
  function Enqueued(t: Table, nextId: nat, r: nat, k: JobKind, priority: int, now: int): Table {
    if HasLive(t, r, k) then t else t[nextId := FreshJob(r, k, priority, now)]
  }

  /** `UPDATE … WHERE id = $1`: nothing happens when the row is gone. */
  function Updated(t: Table, id: nat, j: Job): Table {
    if id in t then t[id := j] else t
  }

  /** `UPDATE … state = 'done' WHERE id = $1`, whoever holds the row. */
  function Completed(t: Table, id: nat): Table {
    if id in t then t[id := CompleteRow(t[id])] else t
  }

  function Deferred(t: Table, id: nat, delay: nat, now: int): Table {
    if id in t then t[id := DeferRow(t[id], delay, now)] else t
  }

  /** Does this worker still hold the row? */
  predicate Holding(t: Table, id: nat, worker: nat) {
    id in t && t[id].state.Running? && t[id].lockedBy == Some(worker)
  }

  function Stamped(t: Table, id: nat, worker: nat, now: int): Table {
    if Holding(t, id, worker) then t[id := t[id].(lockedAt := Some(now))] else t
  }

  /** Only row `id` may differ. */
  predicate OthersUntouched(t: Table, t': Table, id: nat) {
    t'.Keys == t.Keys && forall o | o in t && o != id :: t'[o] == t[o]
  }

  predicate Claimable(j: Job, kinds: set<JobKind>, now: int) {
    j.state.Queued? && j.kind in kinds && j.runAfter <= now
  }

  /** `a` is served no later than `b`: higher priority first, then older. */
  predicate ServedBefore(a: Job, b: Job) {
    a.priority > b.priority || (a.priority == b.priority && a.createdAt <= b.createdAt)
  }

  predicate NextToClaim(t: Table, id: nat, kinds: set<JobKind>, now: int) {
    && id in t && Claimable(t[id], kinds, now)
    && forall o | o in t && Claimable(t[o], kinds, now) :: ServedBefore(t[id], t[o])
  }

  /** Whenever anything is claimable, some row is the one the claim query takes. */
  lemma {:induction false} SomeRowIsNext(t: Table, ids: set<nat>, kinds: set<JobKind>, now: int)
    requires ids <= t.Keys
    requires exists id :: id in ids && Claimable(t[id], kinds, now)
    ensures exists id :: id in ids && Claimable(t[id], kinds, now)
                         && forall o | o in ids && Claimable(t[o], kinds, now) :: ServedBefore(t[id], t[o])
    decreases |ids|
  {
    var x :| x in ids && Claimable(t[x], kinds, now);
    var rest := ids - {x};
    if exists id :: id in rest && Claimable(t[id], kinds, now) {
      SomeRowIsNext(t, rest, kinds, now);
      var y :| y in rest && Claimable(t[y], kinds, now)
               && forall o | o in rest && Claimable(t[o], kinds, now) :: ServedBefore(t[y], t[o]);
      var best := if ServedBefore(t[x], t[y]) then x else y;
      forall o | o in ids && Claimable(t[o], kinds, now)
        ensures ServedBefore(t[best], t[o])
      {
        assert o == x || o in rest;
      }
    } else {
      forall o | o in ids && Claimable(t[o], kinds, now)
        ensures ServedBefore(t[x], t[o])
      {
        assert o == x || o in rest;
      }
    }
  }

  /** What each stage waits for. */
  lemma GateIs(t: Table, r: nat, k: JobKind)
    ensures PredecessorsDone(t, r, k)
            <==> match k
                 case Transcode => true
                 case Diarize => HasDone(t, r, Transcode)
                 case Transcribe => HasDone(t, r, Transcode)
                 case Merge => HasDone(t, r, Diarize) && HasDone(t, r, Transcribe)
                 case Embed => HasDone(t, r, Merge)
                 case Summarize => HasDone(t, r, Merge)
                 case TranscribeSegment => true
  {
    assert k.Merge? ==> Diarize in Predecessors(k) && Transcribe in Predecessors(k);
    assert Predecessors(k) != [] ==> Predecessors(k)[0] in Predecessors(k);
  }

  /** One reaper statement over the whole table. */
  function Reaped(t: Table, lease: int, maxAttempts: int, now: int): Table {
    map id | id in t :: if Expired(t[id], lease, now) then ReapRow(t[id], maxAttempts) else t[id]
  }

  /** Reaping everything is reaping the expired rows one after another, in any order. */
  function ReapedAmong(t: Table, ids: set<nat>, lease: int, maxAttempts: int, now: int): Table {
    map id | id in t :: if id in ids && Expired(t[id], lease, now) then ReapRow(t[id], maxAttempts) else t[id]
  }

  lemma ReapingOneByOne(t: Table, ids: set<nat>, id: nat, lease: int, maxAttempts: int, now: int)
    requires id in t && id !in ids && Expired(t[id], lease, now)
    ensures var sofar := ReapedAmong(t, ids, lease, maxAttempts, now);
            && sofar[id] == t[id]
            && ReapedAmong(t, ids + {id}, lease, maxAttempts, now) == Updated(sofar, id, ReapRow(t[id], maxAttempts))
    ensures ReapedAmong(t, t.Keys, lease, maxAttempts, now) == Reaped(t, lease, maxAttempts, now)
  {
  }

  /** The table as the database holds it: every method is one SQL statement (or the pair `fail` issues). */
  class JobQueue {
    var rows: Table
    var nextId: nat

    /** Ids come from a sequence and are never handed out twice. */
    ghost predicate Valid()
      reads this
    {
      forall id | id in rows :: id < nextId
    }

    constructor ()
      ensures Valid() && rows == map[] && nextId == 0
    {
      rows := map[];
      nextId := 0;
    }

    method Enqueue(r: nat, k: JobKind, priority: int, now: int)
      requires Valid()
      modifies this
      ensures Valid()
      ensures rows == Enqueued(old(rows), old(nextId), r, k, priority, now)
      ensures nextId == if HasLive(old(rows), r, k) then old(nextId) else old(nextId) + 1
      ensures HasLive(rows, r, k)
      ensures if HasLive(old(rows), r, k) then rows == old(rows)
              else
                && old(nextId) in rows && rows == old(rows)[old(nextId) := rows[old(nextId)]]
                && var row := rows[old(nextId)];
                   && row.rec == r && row.kind == k && row.priority == priority && row.createdAt == now
                   && row.attempts == 0
                   && forall kinds: set<JobKind>, at: int :: Claimable(row, kinds, at) <==> k in kinds && now <= at
    {
      if !HasLive(rows, r, k) {
        rows := rows[nextId := FreshJob(r, k, priority, now)];
        assert Live(rows[nextId]);
        nextId := nextId + 1;
      }
    }

    /**
     The row claimed runs in this worker's name from now, and no claimable row has higher priority, nor
     the same and an earlier creation. `None` is returned exactly when nothing is claimable.
     */
    method ClaimOne(worker: nat, kinds: set<JobKind>, now: int) returns (claimed: Option<nat>)
      requires Valid()
      modifies this`rows
      ensures Valid()
      ensures claimed.None? <==> forall id | id in old(rows) :: !Claimable(old(rows)[id], kinds, now)
      ensures claimed.None? ==> rows == old(rows)
      ensures claimed.Some? ==>
                && NextToClaim(old(rows), claimed.value, kinds, now)
                && rows == old(rows)[claimed.value := ClaimRow(old(rows)[claimed.value], worker, now)]
      ensures claimed.Some? ==>
                var was := old(rows)[claimed.value];
                && Holding(rows, claimed.value, worker) && OthersUntouched(old(rows), rows, claimed.value)
                && (forall lease: nat, at: int :: Expired(rows[claimed.value], lease, at) <==> at > now + lease)
                && rows[claimed.value].(state := was.state, lockedBy := was.lockedBy, lockedAt := was.lockedAt,
                                        claims := was.claims) == was
                && forall id | id in old(rows) && Claimable(old(rows)[id], kinds, now) ::
                     var other := old(rows)[id];
                     other.priority < was.priority
                     || (other.priority == was.priority && was.createdAt <= other.createdAt)
    {
      if exists id | id in rows :: Claimable(rows[id], kinds, now) {
        SomeRowIsNext(rows, rows.Keys, kinds, now);
        var id :| id in rows && NextToClaim(rows, id, kinds, now);
        rows := rows[id := ClaimRow(rows[id], worker, now)];
        return Some(id);
      }
      return None;
    }

    /** The lease lasts as long again, for its owner alone: until then the row cannot be taken back. */
    method Heartbeat(id: nat, worker: nat, now: int) returns (landed: bool)
      requires Valid()
      modifies this`rows
      ensures Valid() && rows == Stamped(old(rows), id, worker, now) && (landed <==> Holding(old(rows), id, worker))
      ensures OthersUntouched(old(rows), rows, id)
      ensures landed ==> Holding(rows, id, worker)
                         && forall lease: nat, at: int :: Expired(rows[id], lease, at) <==> at > now + lease
      ensures !landed ==> rows == old(rows)
    {
      landed := Holding(rows, id, worker);
      if landed {
        rows := rows[id := rows[id].(lockedAt := Some(now))];
      }
    }

    /** The kind counts as done from now on, and nobody can claim or take back this row again. */
    method Complete(id: nat)
      requires Valid()
      modifies this`rows
      ensures Valid() && rows == Completed(old(rows), id) && OthersUntouched(old(rows), rows, id)
      ensures id in rows ==> HasDone(rows, rows[id].rec, rows[id].kind) && !Live(rows[id])
      ensures forall r, k :: HasDone(old(rows), r, k) ==> HasDone(rows, r, k)
      ensures forall r, k :: HasDone(rows, r, k) ==>
                HasDone(old(rows), r, k) || (id in old(rows) && old(rows)[id].rec == r && old(rows)[id].kind == k)
      ensures id in rows ==> forall lease: nat, at: int :: !Expired(rows[id], lease, at)
    {
      if id in rows {
        rows := rows[id := CompleteRow(rows[id])];
      }
    }

    /**
     `None` is the error of reading a row that is gone; otherwise: was it requeued? Below the cap it is
     claimable again exactly once the delay is over, twice as long after each attempt; at the cap, never.
     */
    method Fail(id: nat, maxAttempts: int, base: nat, now: int) returns (requeued: Option<bool>)
      requires Valid()
      modifies this`rows
      ensures Valid()
      ensures requeued.None? <==> id !in old(rows)
      ensures requeued.None? ==> rows == old(rows)
      ensures requeued.Some? ==>
                && rows == old(rows)[id := FailRow(old(rows)[id], old(rows)[id].attempts + 1, maxAttempts, base, now)]
                && (requeued.value <==> rows[id].state.Queued?)
                && (!requeued.value <==> rows[id].state.Failed?)
                && rows[id].attempts == old(rows)[id].attempts + 1
                && (requeued.value <==> rows[id].attempts < maxAttempts)
                && OthersUntouched(old(rows), rows, id)
                && rows[id].rec == old(rows)[id].rec && rows[id].kind == old(rows)[id].kind
                && (forall lease: int, at: int :: !Expired(rows[id], lease, at))
                && (forall kinds: set<JobKind>, at: int ::
                      Claimable(rows[id], kinds, at)
                      <==> requeued.value && old(rows)[id].kind in kinds
                           && now + base * Pow2(old(rows)[id].attempts) <= at)
    {
      if id !in rows {
        return None;
      }
      var next := rows[id].attempts + 1;
      rows := rows[id := FailRow(rows[id], next, maxAttempts, base, now)];
      return Some(next < maxAttempts);
    }

    /** No attempt is charged, and the row is claimable again exactly from the end of the delay. */
    method Defer(id: nat, delay: nat, now: int)
      requires Valid()
      modifies this`rows
      ensures Valid() && rows == Deferred(old(rows), id, delay, now) && OthersUntouched(old(rows), rows, id)
      ensures id in rows ==>
                && rows[id].attempts == old(rows)[id].attempts
                && forall kinds: set<JobKind>, at: int ::
                     Claimable(rows[id], kinds, at) <==> old(rows)[id].kind in kinds && now + delay <= at
    {
      if id in rows {
        rows := rows[id := DeferRow(rows[id], delay, now)];
      }
    }

    /** Returns the rows taken back, and which of them are now out of attempts. */
    method ReapStuck(lease: int, maxAttempts: int, now: int) returns (reaped: set<nat>, exhausted: set<nat>)
      requires Valid()
      modifies this`rows
      ensures Valid()
      ensures rows == Reaped(old(rows), lease, maxAttempts, now)
      ensures forall id :: id in reaped <==> id in old(rows) && Expired(old(rows)[id], lease, now)
      ensures forall id :: id in exhausted <==> id in reaped && rows[id].state.Failed?
      ensures rows.Keys == old(rows).Keys && forall id | id in rows && id !in reaped :: rows[id] == old(rows)[id]
      ensures forall id | id in reaped ::
                && rows[id].attempts == old(rows)[id].attempts + 1
                && (id in exhausted <==> rows[id].attempts >= maxAttempts)
                && forall kinds: set<JobKind>, at: int ::
                     Claimable(rows[id], kinds, at)
                     <==> id !in exhausted && old(rows)[id].kind in kinds && old(rows)[id].runAfter <= at
    {
      reaped := set id | id in rows && Expired(rows[id], lease, now);
      rows := Reaped(rows, lease, maxAttempts, now);
      exhausted := set id | id in reaped && rows[id].state.Failed?;
    }

    /** Counts distinct done predecessor kinds, as the query does. */
    method AllPredecessorsDone(r: nat, k: JobKind) returns (ready: bool)
      ensures ready <==> PredecessorsDone(rows, r, k)
    {
      var preds := Predecessors(k);
      if preds == [] {
        return true;
      }
      var done := set p | p in preds && HasDone(rows, r, p);
      ghost var all := set p | p in preds;
      assert |all| == |preds| by {
        if k.Merge? {
          assert all == {Diarize, Transcribe};
        } else {
          assert all == {preds[0]};
        }
      }
      SameSizeIffSame(done, all);
      ready := |done| == |preds|;
      assert forall p :: p in preds <==> p in all;
      assert forall p :: p in done <==> p in all && HasDone(rows, r, p);
    }
  }

  /** Counting decides inclusion for a subset. */
  lemma SameSizeIffSame<T>(a: set<T>, b: set<T>)
    requires a <= b
    ensures |a| == |b| <==> forall x :: x in b ==> x in a
  {
    if a == b {
    } else {
      var x :| x in b && x !in a;
      SubsetSize(a, b - {x});
    }
  }

  lemma SubsetSize<T>(a: set<T>, b: set<T>)
    requires a <= b
    ensures |a| <= |b|
  {
    if a != {} {
      var x :| x in a;
      SubsetSize(a - {x}, b - {x});
    }
  }
}
