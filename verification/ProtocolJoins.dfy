/** Gating, joins and the ready mark, recording by recording. */
module ProtocolJoins {
  import opened Types
  import opened JobTable
  import opened Protocol
  import opened ProtocolSafety

  // ---------------------------------------------------------- invariants

  ghost predicate BothTerminalDone(t: Table, r: nat) {
    HasDone(t, r, Embed) && HasDone(t, r, Summarize)
  }

  /** A task acts only on answers that are still true. */
  ghost predicate TaskGated(t: Table, task: Task) {
    && (ActsOnGate(task) ==> PredecessorsDone(t, task.rec, task.rest[0]))
    && (task.OweEnqueue? ==>
          && (task.kind.Transcode? || task.kind.Diarize? || task.kind.TranscribeSegment?)
          && PredecessorsDone(t, task.rec, task.kind))
    && (task.ReadyMark? ==> BothTerminalDone(t, task.rec))
  }

  ghost predicate RecGated(t: Table, r: nat, rec: Recording) {
    && (rec.readyMarked ==> BothTerminalDone(t, r))
    && (rec.status.Ready? ==> rec.readyMarked)
  }

  /** A row exists only when its gate was, and still is, open. Explicit summaries are not gated. */
  ghost predicate RowsGated(t: Table, r: nat) {
    forall id | id in t && t[id].rec == r && !t[id].kind.Summarize? :: PredecessorsDone(t, r, t[id].kind)
  }

  ghost predicate Gated(s: State, r: nat) {
    && RowsGated(s.jobs, r)
    && (forall tid | tid in s.tasks && s.tasks[tid].rec == r :: TaskGated(s.jobs, s.tasks[tid]))
    && (r in s.recs ==> RecGated(s.jobs, r, s.recs[r]))
  }

  /** Some task will still consider (or insert) a row of kind `k` for `r`. */
  ghost predicate OwesRow(tasks: map<nat, Task>, r: nat, k: JobKind) {
    exists tid :: tid in tasks && TaskOwes(tasks[tid], r, k)
  }

  ghost predicate TaskOwes(t: Task, r: nat, k: JobKind) {
    t.rec == r && ((t.Succeeding? && k in t.rest) || (t.OweEnqueue? && t.kind == k))
  }

  /** Whenever a gate is open, its row exists or someone still owes it. */
  ghost predicate NoSuccessorLost(s: State, r: nat) {
    forall k: JobKind | Predecessors(k) != [] && PredecessorsDone(s.jobs, r, k) ::
      HasRow(s.jobs, r, k) || OwesRow(s.tasks, r, k)
  }

  ghost predicate OwesReady(tasks: map<nat, Task>, r: nat) {
    exists tid :: tid in tasks && tasks[tid].rec == r && (tasks[tid].ReadyCheck? || tasks[tid].ReadyMark?)
  }

  /** Both terminal stages done: the recording was marked ready, or someone still owes it. */
  ghost predicate ReadyNotLost(s: State, r: nat) {
    r in s.recs && BothTerminalDone(s.jobs, r) ==> s.recs[r].readyMarked || OwesReady(s.tasks, r)
  }

  /** A recording in or through the pipeline has its entry row, or it is owed. */
  ghost predicate EntryNotLost(s: State, r: nat) {
    r in s.recs && (s.recs[r].status.Processing? || s.recs[r].status.Ready?) ==>
      HasRow(s.jobs, r, Transcode) || OwesRow(s.tasks, r, Transcode)
  }

  ghost predicate Joined(s: State, r: nat) {
    Gated(s, r) && NoSuccessorLost(s, r) && ReadyNotLost(s, r) && EntryNotLost(s, r)
  }

  // ------------------------------------------------------- growing tables

  /** Every row survives with its kind, and done rows stay done. */
  ghost predicate Grows(t: Table, t': Table) {
    forall id | id in t ::
      id in t' && t'[id].rec == t[id].rec && t'[id].kind == t[id].kind && (t[id].state.Done? ==> t'[id].state.Done?)
  }

  lemma GoodEffectGrows(c: Config, s: State, e: Effect)
    requires Core(c, s) && Good(c, s, e) && !e.rows.DropRows?
    ensures Grows(s.jobs, PerformRows(s, e.rows))
  {
  }

  lemma RowsPersist(t: Table, t': Table, r: nat, k: JobKind)
    requires Grows(t, t')
    ensures HasRow(t, r, k) ==> HasRow(t', r, k)
    ensures HasDone(t, r, k) ==> HasDone(t', r, k)
  {
  }

  lemma GatesStayOpen(t: Table, t': Table, r: nat, k: JobKind)
    requires Grows(t, t')
    ensures PredecessorsDone(t, r, k) ==> PredecessorsDone(t', r, k)
  {
    forall p | p in Predecessors(k)
      ensures HasDone(t, r, p) ==> HasDone(t', r, p)
    {
      RowsPersist(t, t', r, p);
    }
  }

  lemma TaskGatedPersists(t: Table, t': Table, task: Task)
    requires Grows(t, t')
    ensures TaskGated(t, task) ==> TaskGated(t', task)
  {
    RowsPersist(t, t', task.rec, Embed);
    RowsPersist(t, t', task.rec, Summarize);
    if task.OweEnqueue? { GatesStayOpen(t, t', task.rec, task.kind); }
    if task.Succeeding? && task.rest != [] { GatesStayOpen(t, t', task.rec, task.rest[0]); }
  }

  lemma RecGatedPersists(t: Table, t': Table, r: nat, rec: Recording)
    requires Grows(t, t')
    ensures RecGated(t, r, rec) ==> RecGated(t', r, rec)
  {
    RowsPersist(t, t', r, Embed);
    RowsPersist(t, t', r, Summarize);
  }

  // --------------------------------------------------------------- gating

  /** What an effect must bring along for gating: no closed gate is acted on. */
  ghost predicate GatedEffect(s: State, e: Effect, r: nat) {
    && (e.rows.NewRow? && e.rows.row.rec == r && !e.rows.row.kind.Summarize? ==>
          PredecessorsDone(s.jobs, r, e.rows.row.kind))
    && ((e.tasks.NewTask? || e.tasks.WriteTask?) && e.tasks.task.rec == r ==>
          TaskGated(PerformRows(s, e.rows), e.tasks.task))
    && (e.recs.WriteRec? && e.recs.rec == r ==> RecGated(PerformRows(s, e.rows), r, e.recs.value))
  }

  lemma RowsStayGated(c: Config, s: State, e: Effect, r: nat)
    requires Core(c, s) && Good(c, s, e) && !e.rows.DropRows?
    requires RowsGated(s.jobs, r) && GatedEffect(s, e, r)
    ensures RowsGated(PerformRows(s, e.rows), r)
  {
    var t' := PerformRows(s, e.rows);
    GoodEffectGrows(c, s, e);
    forall id | id in t' && t'[id].rec == r && !t'[id].kind.Summarize?
      ensures PredecessorsDone(t', r, t'[id].kind)
    {
      GatesStayOpen(s.jobs, t', r, t'[id].kind);
      if id in s.jobs {
        assert PredecessorsDone(s.jobs, r, s.jobs[id].kind);
      }
    }
  }

  lemma EffectKeepsGated(c: Config, s: State, e: Effect, r: nat)
    requires Core(c, s) && Good(c, s, e) && !e.rows.DropRows?
    requires Gated(s, r) && GatedEffect(s, e, r)
    ensures Gated(Perform(s, e), r)
  {
    var s' := Perform(s, e);
    GoodEffectGrows(c, s, e);
    RowsStayGated(c, s, e, r);
    forall tid | tid in s'.tasks && s'.tasks[tid].rec == r
      ensures TaskGated(s'.jobs, s'.tasks[tid])
    {
      if tid in s.tasks && s'.tasks[tid] == s.tasks[tid] {
        TaskGatedPersists(s.jobs, s'.jobs, s.tasks[tid]);
      }
    }
    if r in s'.recs && r in s.recs && s'.recs[r] == s.recs[r] {
      RecGatedPersists(s.jobs, s'.jobs, r, s.recs[r]);
    }
  }

  lemma AdvanceIsGated(c: Config, s: State, tid: nat, r: nat)
    requires Core(c, s) && CanAdvance(s, tid) && Gated(s, r)
    ensures GatedEffect(s, Advance(c, s, tid), r)
  {
    var e := Advance(c, s, tid);
    AdvanceIsGood(c, s, tid);
    GoodEffectGrows(c, s, e);
    if s.tasks[tid].rec == r {
      RecGatedPersists(s.jobs, PerformRows(s, e.rows), r, s.recs[r]);
      assert TaskGated(s.jobs, s.tasks[tid]);
    }
  }

  lemma OutcomeIsGated(c: Config, s: State, a: Action, r: nat)
    requires Core(c, s) && Enabled(c, s, a) && !a.Tick? && !a.Reprocess? && !a.Rediarize?
    requires Gated(s, r)
    ensures GatedEffect(s, Outcome(c, s, a), r)
  {
    var e := Outcome(c, s, a);
    OutcomeIsGood(c, s, a);
    GoodEffectGrows(c, s, e);
    match a
    case Step(tid) => AdvanceIsGated(c, s, tid, r);
    case SummarizeRecording(_) =>
      if r in s.recs { RecGatedPersists(s.jobs, PerformRows(s, e.rows), r, s.recs[r]); }
    case _ =>
  }

  // --------------------------------------------------------- no debt lost

  /** What an effect must bring along for the joins: a stage's last act leaves a
      task owing its successors, and a debt ends only once paid or void. */
  ghost predicate PaysRows(s: State, e: Effect, r: nat) {
    var t' := PerformRows(s, e.rows);
    && (e.rows.WriteRow? && e.rows.row.state.Done? && e.rows.row.rec == r ==>
          e.tasks.WriteTask? && forall k | k in Successors(e.rows.row.kind) :: TaskOwes(e.tasks.task, r, k))
    && ((e.tasks.WriteTask? || e.tasks.EndTask?) && e.tasks.tid in s.tasks ==>
          forall k: JobKind | TaskOwes(s.tasks[e.tasks.tid], r, k) ::
            || (e.tasks.WriteTask? && TaskOwes(e.tasks.task, r, k))
            || HasRow(t', r, k)
            || !PredecessorsDone(t', r, k))
  }

  /** A debt survives any good effect, or is paid by it, or its gate is shut. */
  lemma DebtsSurvive(c: Config, s: State, e: Effect, r: nat, k: JobKind)
    requires Core(c, s) && Good(c, s, e) && PaysRows(s, e, r)
    requires OwesRow(s.tasks, r, k)
    ensures var s' := Perform(s, e);
            OwesRow(s'.tasks, r, k) || HasRow(s'.jobs, r, k) || !PredecessorsDone(s'.jobs, r, k)
  {
    var s' := Perform(s, e);
    var tid :| tid in s.tasks && TaskOwes(s.tasks[tid], r, k);
    if tid in s'.tasks && s'.tasks[tid] == s.tasks[tid] {
      assert TaskOwes(s'.tasks[tid], r, k);
    } else if e.tasks.WriteTask? && TaskOwes(e.tasks.task, r, k) {
      assert TaskOwes(s'.tasks[tid], r, k);
    }
  }

  /** A done row that was not there before is the one the effect wrote. */
  lemma NewlyDone(c: Config, s: State, e: Effect, r: nat, p: JobKind)
    requires Core(c, s) && Good(c, s, e) && !e.rows.DropRows?
    requires !HasDone(s.jobs, r, p) && HasDone(PerformRows(s, e.rows), r, p)
    ensures e.rows.WriteRow? && e.rows.row.state.Done? && e.rows.row.rec == r && e.rows.row.kind == p
  {
  }

  lemma EffectKeepsSuccessors(c: Config, s: State, e: Effect, r: nat)
    requires Core(c, s) && Good(c, s, e) && !e.rows.DropRows?
    requires NoSuccessorLost(s, r) && PaysRows(s, e, r)
    ensures NoSuccessorLost(Perform(s, e), r)
  {
    var s' := Perform(s, e);
    GoodEffectGrows(c, s, e);
    forall k: JobKind | Predecessors(k) != [] && PredecessorsDone(s'.jobs, r, k)
      ensures HasRow(s'.jobs, r, k) || OwesRow(s'.tasks, r, k)
    {
      RowsPersist(s.jobs, s'.jobs, r, k);
      if PredecessorsDone(s.jobs, r, k) {
        if OwesRow(s.tasks, r, k) { DebtsSurvive(c, s, e, r, k); }
      } else {
        var p :| p in Predecessors(k) && !HasDone(s.jobs, r, p);
        NewlyDone(c, s, e, r, p);
        EdgesAreConverse(p, k);
        assert TaskOwes(s'.tasks[e.tasks.tid], r, k);
      }
    }
  }

  /** The same for the ready mark. */
  ghost predicate PaysReady(s: State, e: Effect, r: nat) {
    && (e.rows.WriteRow? && e.rows.row.state.Done? && e.rows.row.rec == r
          && (e.rows.row.kind.Embed? || e.rows.row.kind.Summarize?) ==>
          e.tasks.WriteTask? && e.tasks.task == ReadyCheck(r))
    && ((e.tasks.WriteTask? || e.tasks.EndTask?) && e.tasks.tid in s.tasks
          && (s.tasks[e.tasks.tid] == ReadyCheck(r) || s.tasks[e.tasks.tid] == ReadyMark(r)) ==>
          || (e.tasks.WriteTask? && (e.tasks.task == ReadyCheck(r) || e.tasks.task == ReadyMark(r)))
          || (e.recs.WriteRec? && e.recs.rec == r && e.recs.value.readyMarked)
          || !BothTerminalDone(PerformRows(s, e.rows), r))
    && (e.recs.WriteRec? && e.recs.rec == r && r in s.recs && s.recs[r].readyMarked ==> e.recs.value.readyMarked)
  }

  lemma EffectKeepsReady(c: Config, s: State, e: Effect, r: nat)
    requires Core(c, s) && Good(c, s, e) && !e.rows.DropRows?
    requires ReadyNotLost(s, r) && PaysReady(s, e, r)
    ensures ReadyNotLost(Perform(s, e), r)
  {
    var s' := Perform(s, e);
    if r in s'.recs && BothTerminalDone(s'.jobs, r) {
      if !BothTerminalDone(s.jobs, r) {
        if !HasDone(s.jobs, r, Embed) { NewlyDone(c, s, e, r, Embed); }
        else { NewlyDone(c, s, e, r, Summarize); }
        assert s'.tasks[e.tasks.tid] == ReadyCheck(r);
        assert OwesReady(s'.tasks, r);
      } else if OwesReady(s.tasks, r) {
        var tid :| tid in s.tasks && s.tasks[tid].rec == r && (s.tasks[tid].ReadyCheck? || s.tasks[tid].ReadyMark?);
        if tid in s'.tasks && (s'.tasks[tid].ReadyCheck? || s'.tasks[tid].ReadyMark?) && s'.tasks[tid].rec == r {
          assert OwesReady(s'.tasks, r);
        }
      }
    }
  }

  /** A recording enters the pipeline only together with its entry row or the debt of it. */
  ghost predicate EntersOwing(s: State, e: Effect, r: nat) {
    e.recs.WriteRec? && e.recs.rec == r && (e.recs.value.status.Processing? || e.recs.value.status.Ready?) ==>
      || (r in s.recs && (s.recs[r].status.Processing? || s.recs[r].status.Ready?))
      || HasRow(s.jobs, r, Transcode)
      || ((e.tasks.WriteTask? || e.tasks.NewTask?) && TaskOwes(e.tasks.task, r, Transcode))
  }

  lemma EffectKeepsEntry(c: Config, s: State, e: Effect, r: nat)
    requires Core(c, s) && Good(c, s, e) && !e.rows.DropRows?
    requires EntryNotLost(s, r) && PaysRows(s, e, r) && EntersOwing(s, e, r)
    ensures EntryNotLost(Perform(s, e), r)
  {
    var s' := Perform(s, e);
    GoodEffectGrows(c, s, e);
    RowsPersist(s.jobs, s'.jobs, r, Transcode);
    if e.tasks.WriteTask? { assert s'.tasks[e.tasks.tid] == e.tasks.task; }
    if e.tasks.NewTask? { assert s'.tasks[s.nextTask] == e.tasks.task; }
    if OwesRow(s.tasks, r, Transcode) { DebtsSurvive(c, s, e, r, Transcode); }
  }

  /** Gates are only ever opened in order: a late row implies an entry row. */
  lemma GatedBackToEntry(s: State, r: nat, k: JobKind)
    requires Gated(s, r) && HasRow(s.jobs, r, k)
    requires k.Embed? || k.Merge? || k.Diarize? || k.Transcribe? || k.Transcode?
    ensures HasRow(s.jobs, r, Transcode)
    ensures !k.Transcode? ==> HasDone(s.jobs, r, Transcode)
    decreases match k case Embed => 3 case Merge => 2 case Diarize => 1 case Transcribe => 1 case _ => 0
  {
    var id :| id in s.jobs && s.jobs[id].rec == r && s.jobs[id].kind == k;
    if !k.Transcode? {
      var p := Predecessors(k)[0];
      assert PredecessorsDone(s.jobs, r, k);
      assert HasDone(s.jobs, r, p);
      GatedBackToEntry(s, r, p);
    }
  }

  lemma InsertGivesRow(s: State, r: nat, k: JobKind)
    ensures HasRow(PerformRows(s, InsertRow(s, r, k)), r, k)
  {
    var t' := PerformRows(s, InsertRow(s, r, k));
    if !HasLive(s.jobs, r, k) {
      assert t'[s.nextId] == FreshJob(r, k, 0, s.now);
    }
  }

  lemma AdvancePaysRows(c: Config, s: State, tid: nat, r: nat)
    requires Core(c, s) && CanAdvance(s, tid)
    ensures PaysRows(s, Advance(c, s, tid), r)
  {
    var t := s.tasks[tid];
    if t.OweEnqueue? { InsertGivesRow(s, t.rec, t.kind); }
    if t.Succeeding? {
      InsertGivesRow(s, t.rec, t.rest[0]);
      assert forall k | k in t.rest :: k == t.rest[0] || k in t.rest[1..];
    }
  }

  lemma AdvancePays(c: Config, s: State, tid: nat, r: nat)
    requires Core(c, s) && CanAdvance(s, tid) && Gated(s, r)
    ensures PaysRows(s, Advance(c, s, tid), r) && PaysReady(s, Advance(c, s, tid), r)
    ensures EntersOwing(s, Advance(c, s, tid), r)
  {
    var t := s.tasks[tid];
    AdvancePaysRows(c, s, tid, r);
    if t.rec == r {
      assert TaskGated(s.jobs, t);
      if t.ReadyMark? { GatedBackToEntry(s, r, Embed); }
    }
  }

  lemma ReportPays(c: Config, s: State, a: Action, r: nat)
    requires Core(c, s) && Enabled(c, s, a) && (a.StageOk? || a.StageError? || a.StageDeferred?)
    ensures PaysRows(s, Outcome(c, s, a), r) && PaysReady(s, Outcome(c, s, a), r)
    ensures EntersOwing(s, Outcome(c, s, a), r)
  {
  }

  lemma OutcomePays(c: Config, s: State, a: Action, r: nat)
    requires Core(c, s) && Enabled(c, s, a) && Admissible(c, s, a) && !a.Tick? && !a.Reprocess? && !a.Rediarize?
    requires Gated(s, r)
    ensures PaysRows(s, Outcome(c, s, a), r) && PaysReady(s, Outcome(c, s, a), r)
    ensures EntersOwing(s, Outcome(c, s, a), r)
  {
    match a
    case Step(tid) => AdvancePays(c, s, tid, r);
    case StageOk(_) => ReportPays(c, s, a, r);
    case StageError(_) => ReportPays(c, s, a, r);
    case StageDeferred(_, _) => ReportPays(c, s, a, r);
    case _ =>
  }

  // --------------------------------------------------------------- resets

  /** Another recording's rows are untouched by a reset. */
  ghost predicate SameFor(t: Table, t': Table, r: nat) {
    && (forall id | id in t && t[id].rec == r :: id in t' && t'[id] == t[id])
    && (forall id | id in t' && t'[id].rec == r :: id in t && t'[id] == t[id])
  }

  lemma SameAnswers(t: Table, t': Table, r: nat)
    requires SameFor(t, t', r)
    ensures forall k :: HasRow(t, r, k) == HasRow(t', r, k)
    ensures forall k :: HasDone(t, r, k) == HasDone(t', r, k)
    ensures forall k :: PredecessorsDone(t, r, k) == PredecessorsDone(t', r, k)
  {
    forall k
      ensures HasRow(t, r, k) == HasRow(t', r, k) && HasDone(t, r, k) == HasDone(t', r, k)
    {
    }
  }

  /** Nothing about `r` changes, except that new tasks may appear for others. */
  lemma JoinedSeesOnly(c: Config, s: State, s': State, r: nat)
    requires Core(c, s) && Joined(s, r) && SameFor(s.jobs, s'.jobs, r)
    requires forall tid | tid in s.tasks && s.tasks[tid].rec == r :: tid in s'.tasks && s'.tasks[tid] == s.tasks[tid]
    requires forall tid | tid in s'.tasks && s'.tasks[tid].rec == r :: tid in s.tasks && s'.tasks[tid] == s.tasks[tid]
    requires r in s.recs <==> r in s'.recs
    requires r in s.recs ==> s'.recs[r] == s.recs[r]
    ensures Joined(s', r)
  {
    SameAnswers(s.jobs, s'.jobs, r);
    assert forall k :: OwesRow(s.tasks, r, k) ==> OwesRow(s'.tasks, r, k);
    assert forall tid | tid in s'.tasks && s'.tasks[tid].rec == r :: TaskGated(s.jobs, s.tasks[tid]);
  }

  lemma ResetOfAnother(c: Config, s: State, a: Action, r: nat)
    requires Core(c, s) && Enabled(c, s, a) && (a.Reprocess? || a.Rediarize?) && a.rec != r
    requires Joined(s, r)
    ensures Joined(Apply(c, s, a), r)
  {
    var s' := Apply(c, s, a);
    JoinedSeesOnly(c, s, s', r);
  }

  /** Nothing of the recording is left to gate or to join. */
  lemma ReprocessLeavesNothing(s: State, r: nat)
    ensures var t' := PerformRows(s, DropRows(r, false));
            && (forall k :: !HasRow(t', r, k) && !HasDone(t', r, k))
            && forall k: JobKind | Predecessors(k) != [] :: !PredecessorsDone(t', r, k)
  {
    var t' := PerformRows(s, DropRows(r, false));
    forall k: JobKind | Predecessors(k) != []
      ensures !PredecessorsDone(t', r, k)
    {
      assert Predecessors(k)[0] in Predecessors(k);
    }
  }

  lemma ReprocessKeepsGated(c: Config, s: State, r: nat)
    requires Core(c, s) && Enabled(c, s, Reprocess(r)) && Admissible(c, s, Reprocess(r)) && Gated(s, r)
    ensures Gated(Apply(c, s, Reprocess(r)), r)
  {
    var s' := Apply(c, s, Reprocess(r));
    ReprocessLeavesNothing(s, r);
    forall tid | tid in s'.tasks && s'.tasks[tid].rec == r
      ensures TaskGated(s'.jobs, s'.tasks[tid])
    {
      if tid in s.tasks && tid != s.nextTask {
        assert TaskGated(s.jobs, s.tasks[tid]) && !ActsOnStaleAnswer(s.tasks[tid], r);
      }
    }
  }

  lemma ReprocessKeepsJoined(c: Config, s: State, r: nat)
    requires Core(c, s) && Enabled(c, s, Reprocess(r)) && Admissible(c, s, Reprocess(r))
    requires Joined(s, r)
    ensures Joined(Apply(c, s, Reprocess(r)), r)
  {
    var s' := Apply(c, s, Reprocess(r));
    ReprocessKeepsGated(c, s, r);
    ReprocessLeavesNothing(s, r);
    assert TaskOwes(s'.tasks[s.nextTask], r, Transcode);
  }

  /** Those are diarize and every stage that waits for one of them. */
  lemma RunAgainIsDownstream(k: JobKind)
    ensures RunAgain(k) <==> k == Diarize || exists p :: p in Predecessors(k) && RunAgain(p)
  {
    assert k.Merge? ==> Diarize in Predecessors(k);
    assert k.Embed? || k.Summarize? ==> Merge in Predecessors(k);
  }

  /** A re-diarization deletes exactly the rows of the stages to run again. */
  lemma DroppedLabels(s: State, r: nat)
    ensures var t' := PerformRows(s, DropRows(r, true));
            forall k :: if RunAgain(k) then !HasRow(t', r, k) && !HasDone(t', r, k)
                        else HasRow(t', r, k) == HasRow(s.jobs, r, k) && HasDone(t', r, k) == HasDone(s.jobs, r, k)
  {
    var t' := PerformRows(s, DropRows(r, true));
    forall k
      ensures if RunAgain(k) then !HasRow(t', r, k) && !HasDone(t', r, k)
              else HasRow(t', r, k) == HasRow(s.jobs, r, k) && HasDone(t', r, k) == HasDone(s.jobs, r, k)
    {
      assert forall id | id in s.jobs && s.jobs[id].rec == r && s.jobs[id].kind == k && !RunAgain(k) :: id in t';
    }
  }

  lemma RediarizeKeepsTasksGated(c: Config, s: State, r: nat, tid: nat)
    requires Core(c, s) && Gated(s, r)
    requires tid in s.tasks && s.tasks[tid].rec == r && !ActsOnStaleLabels(s.tasks[tid], r)
    ensures TaskGated(PerformRows(s, DropRows(r, true)), s.tasks[tid])
  {
    DroppedLabels(s, r);
    var t := s.tasks[tid];
    assert TaskGated(s.jobs, t);
    if t.Succeeding? { assert t.rest[0] in Successors(t.kind); }
  }

  /** With transcode done, the rows left behind keep their gates. */
  lemma RediarizeKeepsRowsGated(s: State, r: nat)
    requires Gated(s, r) && HasDone(s.jobs, r, Transcode)
    ensures RowsGated(PerformRows(s, DropRows(r, true)), r)
    ensures HasDone(PerformRows(s, DropRows(r, true)), r, Transcode)
  {
    var t' := PerformRows(s, DropRows(r, true));
    DroppedLabels(s, r);
    forall id | id in t' && t'[id].rec == r && !t'[id].kind.Summarize?
      ensures PredecessorsDone(t', r, t'[id].kind)
    {
      assert id in s.jobs && t'[id] == s.jobs[id];
    }
  }

  lemma RediarizeKeepsGated(c: Config, s: State, r: nat)
    requires Core(c, s) && Enabled(c, s, Rediarize(r)) && Admissible(c, s, Rediarize(r))
    requires Joined(s, r)
    ensures Gated(Apply(c, s, Rediarize(r)), r)
    ensures HasDone(Apply(c, s, Rediarize(r)).jobs, r, Transcode)
  {
    var s' := Apply(c, s, Rediarize(r));
    RediarizeKeepsRowsGated(s, r);
    DroppedLabels(s, r);
    forall tid | tid in s'.tasks && s'.tasks[tid].rec == r
      ensures TaskGated(s'.jobs, s'.tasks[tid])
    {
      if tid in s.tasks && tid != s.nextTask { RediarizeKeepsTasksGated(c, s, r, tid); }
    }
  }

  /** What a re-diarization leaves of the debts: all of them, and the entry row's besides. */
  lemma RediarizeKeepsDebts(c: Config, s: State, r: nat)
    requires Core(c, s) && Enabled(c, s, Rediarize(r))
    ensures var s' := Apply(c, s, Rediarize(r));
            && OwesRow(s'.tasks, r, Diarize)
            && forall k :: OwesRow(s.tasks, r, k) ==> OwesRow(s'.tasks, r, k)
  {
    var s' := Apply(c, s, Rediarize(r));
    assert TaskOwes(s'.tasks[s.nextTask], r, Diarize);
    forall k | OwesRow(s.tasks, r, k)
      ensures OwesRow(s'.tasks, r, k)
    {
      var tid :| tid in s.tasks && TaskOwes(s.tasks[tid], r, k);
      assert TaskOwes(s'.tasks[tid], r, k);
    }
  }

  lemma RediarizeKeepsSuccessors(c: Config, s: State, r: nat)
    requires Core(c, s) && Enabled(c, s, Rediarize(r)) && NoSuccessorLost(s, r)
    ensures NoSuccessorLost(Apply(c, s, Rediarize(r)), r)
  {
    var s' := Apply(c, s, Rediarize(r));
    DroppedLabels(s, r);
    RediarizeKeepsDebts(c, s, r);
    forall k: JobKind | Predecessors(k) != [] && PredecessorsDone(s'.jobs, r, k)
      ensures HasRow(s'.jobs, r, k) || OwesRow(s'.tasks, r, k)
    {
      assert Predecessors(k)[0] in Predecessors(k);
      assert k.Transcribe? ==> PredecessorsDone(s.jobs, r, k);
    }
  }

  lemma RediarizeKeepsReadyAndEntry(c: Config, s: State, r: nat)
    requires Core(c, s) && Enabled(c, s, Rediarize(r)) && HasDone(s.jobs, r, Transcode)
    ensures ReadyNotLost(Apply(c, s, Rediarize(r)), r) && EntryNotLost(Apply(c, s, Rediarize(r)), r)
  {
    DroppedLabels(s, r);
  }

  lemma RediarizeKeepsJoined(c: Config, s: State, r: nat)
    requires Core(c, s) && Enabled(c, s, Rediarize(r)) && Admissible(c, s, Rediarize(r))
    requires Joined(s, r)
    ensures Joined(Apply(c, s, Rediarize(r)), r)
  {
    RediarizeKeepsGated(c, s, r);
    RediarizeKeepsSuccessors(c, s, r);
    RediarizeKeepsReadyAndEntry(c, s, r);
  }

  lemma JoinedStep(c: Config, s: State, a: Action, r: nat)
    requires Core(c, s) && Enabled(c, s, a) && Admissible(c, s, a)
    requires Joined(s, r)
    ensures Joined(Apply(c, s, a), r)
  {
    if (a.Reprocess? || a.Rediarize?) && a.rec != r {
      ResetOfAnother(c, s, a, r);
    } else if a.Reprocess? {
      ReprocessKeepsJoined(c, s, r);
    } else if a.Rediarize? {
      RediarizeKeepsJoined(c, s, r);
    } else if !a.Tick? {
      var e := Outcome(c, s, a);
      OutcomeIsGood(c, s, a);
      OutcomeIsGated(c, s, a, r);
      OutcomePays(c, s, a, r);
      EffectKeepsGated(c, s, e, r);
      EffectKeepsSuccessors(c, s, e, r);
      EffectKeepsReady(c, s, e, r);
      EffectKeepsEntry(c, s, e, r);
    }
  }
}
