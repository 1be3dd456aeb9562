/** The two resets: exactly when each is safe, and what the next statements do when it is not. */
module ProtocolResets {
  import opened Types
  import opened JobTable
  import opened Protocol
  import opened ProtocolSafety
  import opened ProtocolJoins
  import opened ProtocolPaths
  import opened ProtocolProgress
  import opened ProtocolExamples

  // ------------------------------------------------ the premises are exact

  /** Reprocessing keeps gates and joins exactly when it overtakes no answer. */
  lemma ReprocessKeepsJoinedIff(c: Config, s: State, r: nat)
    requires Core(c, s) && Enabled(c, s, Reprocess(r)) && Joined(s, r)
    ensures Joined(Apply(c, s, Reprocess(r)), r) <==> forall tid | tid in s.tasks :: !ActsOnStaleAnswer(s.tasks[tid], r)
  {
    if forall tid | tid in s.tasks :: !ActsOnStaleAnswer(s.tasks[tid], r) {
      ReprocessKeepsJoined(c, s, r);
    } else {
      var tid :| tid in s.tasks && ActsOnStaleAnswer(s.tasks[tid], r);
      StaleTaskIsUngated(c, s, r, tid);
      var s' := Apply(c, s, Reprocess(r));
      assert s'.tasks[tid] == s.tasks[tid];
    }
  }

  lemma StaleTaskIsUngated(c: Config, s: State, r: nat, tid: nat)
    requires Core(c, s) && tid in s.tasks && ActsOnStaleAnswer(s.tasks[tid], r)
    ensures !TaskGated(PerformRows(s, DropRows(r, false)), s.tasks[tid])
  {
    var t, t' := s.tasks[tid], PerformRows(s, DropRows(r, false));
    assert forall id | id in t' :: t'[id].rec != r;
    assert forall k :: !HasDone(t', r, k);
    assert Transcode in Predecessors(Diarize);
    if ActsOnGate(t) {
      assert t.rest[0] in Successors(t.kind);
      NeedsPredecessor(t.kind, t.rest[0]);
    }
  }

  lemma NeedsPredecessor(k: JobKind, next: JobKind)
    ensures next in Successors(k) ==> Predecessors(next) != [] && k in Predecessors(next)
  {
    EdgesAreConverse(k, next);
  }

  /** Re-diarizing keeps them exactly when transcode is done and it overtakes no later answer. */
  lemma RediarizeKeepsJoinedIff(c: Config, s: State, r: nat)
    requires Core(c, s) && Enabled(c, s, Rediarize(r)) && Joined(s, r)
    ensures Joined(Apply(c, s, Rediarize(r)), r) <==>
            HasDone(s.jobs, r, Transcode) && forall tid | tid in s.tasks :: !ActsOnStaleLabels(s.tasks[tid], r)
  {
    var s' := Apply(c, s, Rediarize(r));
    DroppedLabels(s, r);
    if !HasDone(s.jobs, r, Transcode) {
      assert s'.tasks[s.nextTask] == OweEnqueue(r, Diarize);
      assert Transcode in Predecessors(Diarize);
    } else if tid :| tid in s.tasks && ActsOnStaleLabels(s.tasks[tid], r) {
      assert s'.tasks[tid] == s.tasks[tid];
      LaterTaskIsUngated(s, r, tid);
    } else {
      RediarizeKeepsJoined(c, s, r);
    }
  }

  lemma LaterTaskIsUngated(s: State, r: nat, tid: nat)
    requires tid in s.tasks && ActsOnStaleLabels(s.tasks[tid], r)
    ensures !TaskGated(PerformRows(s, DropRows(r, true)), s.tasks[tid])
  {
    DroppedLabels(s, r);
    var t := s.tasks[tid];
    if ActsOnGate(t) {
      assert Merge in Predecessors(Embed) && Diarize in Predecessors(Merge);
    }
  }

  // ------------------------------------- what happens when one is overtaken

  /**
   What anyone can see of a recording is in order: rows behind open gates, ready only when both
   terminal stages are done.
   */
  ghost predicate InOrder(s: State, r: nat) {
    && RowsGated(s.jobs, r)
    && (r in s.recs && s.recs[r].status.Ready? ==> BothTerminalDone(s.jobs, r))
  }

  /** After a reprocess, the next statement of a worker or handler spoils that exactly when its answer was overtaken. */
  lemma OvertakenByReprocessIff(c: Config, s: State, tid: nat, r: nat)
    requires Core(c, s) && Joined(s, r) && CanAdvance(s, tid) && s.tasks[tid].rec == r
    ensures var path := [Reprocess(r), Step(tid)];
            IsPath(c, s, path) && (InOrder(Along(c, s, path), r) <==> !ActsOnStaleAnswer(s.tasks[tid], r))
  {
    var s1 := Apply(c, s, Reprocess(r));
    TwoSteps(c, s, Reprocess(r), Step(tid));
    ReprocessEmpties(c, s, tid, r);
    AboutToAct(c, s, tid, r);
    if ActsOnStaleAnswer(s.tasks[tid], r) {
      StaleStepSpoils(c, s1, tid, r);
    } else {
      FreshStepIsFine(c, s1, tid, r);
    }
  }

  lemma ReprocessEmpties(c: Config, s: State, tid: nat, r: nat)
    requires Core(c, s) && CanAdvance(s, tid) && s.tasks[tid].rec == r
    ensures var s1 := Apply(c, s, Reprocess(r)); Emptied(s1, r) && CanAdvance(s1, tid) && s1.tasks[tid] == s.tasks[tid]
  {
  }

  lemma AboutToAct(c: Config, s: State, tid: nat, r: nat)
    requires Core(c, s) && Joined(s, r) && CanAdvance(s, tid) && s.tasks[tid].rec == r
    ensures var t := s.tasks[tid];
            && (t.Succeeding? ==> t.kind in Predecessors(t.rest[0]))
            && (t.OweEnqueue? ==> Predecessors(t.kind) == [] || t.kind.Diarize?)
  {
    var t := s.tasks[tid];
    assert TaskGated(s.jobs, t);
    if t.Succeeding? {
      assert t.rest[0] in Successors(t.kind);
      NeedsPredecessor(t.kind, t.rest[0]);
    }
  }

  /** Nothing of `r` is in the table. */
  ghost predicate Emptied(s: State, r: nat) {
    (forall id | id in s.jobs :: s.jobs[id].rec != r) && r in s.recs && s.recs[r].status.Processing?
  }

  lemma StaleStepSpoils(c: Config, s: State, tid: nat, r: nat)
    requires Emptied(s, r) && CanAdvance(s, tid) && ActsOnStaleAnswer(s.tasks[tid], r)
    requires s.tasks[tid].Succeeding? ==> s.tasks[tid].kind in Predecessors(s.tasks[tid].rest[0])
    ensures !InOrder(Apply(c, s, Step(tid)), r)
  {
    var t, s' := s.tasks[tid], Apply(c, s, Step(tid));
    if t.ReadyMark? {
      assert !HasDone(s'.jobs, r, Embed);
    } else {
      var k, p := if t.Succeeding? then t.rest[0] else Diarize, if t.Succeeding? then t.kind else Transcode;
      assert !HasLive(s.jobs, r, k);
      assert s'.jobs[s.nextId] == FreshJob(r, k, 0, s.now);
      assert p in Predecessors(k) && !HasDone(s'.jobs, r, p);
    }
  }

  lemma FreshStepIsFine(c: Config, s: State, tid: nat, r: nat)
    requires Emptied(s, r) && CanAdvance(s, tid) && s.tasks[tid].rec == r && !ActsOnStaleAnswer(s.tasks[tid], r)
    requires s.tasks[tid].Succeeding? ==> s.tasks[tid].kind in Predecessors(s.tasks[tid].rest[0])
    requires s.tasks[tid].OweEnqueue? ==> Predecessors(s.tasks[tid].kind) == [] || s.tasks[tid].kind.Diarize?
    ensures InOrder(Apply(c, s, Step(tid)), r)
  {
    var t, s' := s.tasks[tid], Apply(c, s, Step(tid));
    assert forall k :: !HasDone(s.jobs, r, k);
    if t.Succeeding? && !t.checked { assert !PredecessorsDone(s.jobs, r, t.rest[0]); }
    forall id | id in s'.jobs && s'.jobs[id].rec == r
      ensures s'.jobs[id].kind.Summarize? || Predecessors(s'.jobs[id].kind) == []
    {
      assert id !in s.jobs || s.jobs[id].rec != r;
    }
  }

  /** The same after a re-diarization that finds transcode done. */
  lemma OvertakenByRediarizeIff(c: Config, s: State, tid: nat, r: nat)
    requires Core(c, s) && Joined(s, r) && CanAdvance(s, tid) && s.tasks[tid].rec == r
    requires Enabled(c, s, Rediarize(r)) && HasDone(s.jobs, r, Transcode)
    ensures var path := [Rediarize(r), Step(tid)];
            IsPath(c, s, path) && (InOrder(Along(c, s, path), r) <==> !ActsOnStaleLabels(s.tasks[tid], r))
  {
    var s1 := Apply(c, s, Rediarize(r));
    TwoSteps(c, s, Rediarize(r), Step(tid));
    assert s1.tasks[tid] == s.tasks[tid];
    if ActsOnStaleLabels(s.tasks[tid], r) {
      StaleLabelSpoils(c, s, s1, tid, r);
    } else {
      FreshLabelIsFine(c, s, s1, tid, r);
    }
  }

  lemma StaleLabelSpoils(c: Config, s: State, s1: State, tid: nat, r: nat)
    requires s1.jobs == PerformRows(s, DropRows(r, true)) && s1.nextId == s.nextId
    requires CanAdvance(s1, tid) && tid in s.tasks && s1.tasks[tid] == s.tasks[tid]
              && ActsOnStaleLabels(s.tasks[tid], r)
    ensures !InOrder(Apply(c, s1, Step(tid)), r)
  {
    DroppedLabels(s, r);
    var t, s' := s1.tasks[tid], Apply(c, s1, Step(tid));
    if t.ReadyMark? {
      assert !HasDone(s'.jobs, r, Embed);
    } else {
      var k := t.rest[0];
      var p := if k.Merge? then Diarize else Merge;
      assert RunAgain(k) && RunAgain(p) && !HasRow(s1.jobs, r, k);
      assert s'.jobs[s1.nextId] == FreshJob(r, k, 0, s1.now);
      assert p in Predecessors(k) && !HasDone(s'.jobs, r, p);
    }
  }

  lemma FreshLabelIsFine(c: Config, s: State, s1: State, tid: nat, r: nat)
    requires Core(c, s) && Joined(s, r) && Enabled(c, s, Rediarize(r)) && HasDone(s.jobs, r, Transcode)
    requires s1 == Apply(c, s, Rediarize(r)) && CanAdvance(s, tid) && CanAdvance(s1, tid)
    requires s1.tasks[tid] == s.tasks[tid] && s.tasks[tid].rec == r && !ActsOnStaleLabels(s.tasks[tid], r)
    ensures InOrder(Apply(c, s1, Step(tid)), r)
  {
    OutcomeIsGood(c, s, Rediarize(r));
    GoodKeepsCore(c, s, Outcome(c, s, Rediarize(r)));
    RediarizeKeepsRowsGated(s, r);
    RediarizeKeepsTasksGated(c, s, r, tid);
    FreshStepInside(c, s1, tid, r);
  }

  /** One gated statement keeps what is seen in order. */
  lemma FreshStepInside(c: Config, s: State, tid: nat, r: nat)
    requires Core(c, s) && CanAdvance(s, tid) && s.tasks[tid].rec == r && s.recs[r].status.Processing?
    requires RowsGated(s.jobs, r) && TaskGated(s.jobs, s.tasks[tid])
    ensures InOrder(Apply(c, s, Step(tid)), r)
  {
    var e := Advance(c, s, tid);
    var t' := PerformRows(s, e.rows);
    AdvanceIsGood(c, s, tid);
    GoodEffectGrows(c, s, e);
    forall id | id in t' && t'[id].rec == r && !t'[id].kind.Summarize?
      ensures PredecessorsDone(t', r, t'[id].kind)
    {
      GatesStayOpen(s.jobs, t', r, t'[id].kind);
    }
  }

  // ---------------------------------------------- the transcript it builds on

  /** The entry row of a re-diarization stands behind an open gate exactly when transcode is done. */
  lemma RediarizeIsGatedIff(c: Config, s: State, r: nat)
    requires Core(c, s) && Enabled(c, s, Rediarize(r)) && RowsGated(s.jobs, r)
    ensures var path := [Rediarize(r), Step(s.nextTask)];
            IsPath(c, s, path) && (RowsGated(Along(c, s, path).jobs, r) <==> HasDone(s.jobs, r, Transcode))
  {
    var s1 := Apply(c, s, Rediarize(r));
    var s2 := Apply(c, s1, Step(s.nextTask));
    TwoSteps(c, s, Rediarize(r), Step(s.nextTask));
    DroppedLabels(s, r);
    assert s1.tasks[s.nextTask] == OweEnqueue(r, Diarize) && !HasRow(s1.jobs, r, Diarize);
    assert s2.jobs == s1.jobs[s.nextId := FreshJob(r, Diarize, 0, s.now)];
    assert s2.jobs[s.nextId].kind == Diarize;
    DiarizeRowGatedIff(s, s2.jobs, r);
  }

  lemma DiarizeRowGatedIff(s: State, t: Table, r: nat)
    requires Numbered(s) && RowsGated(s.jobs, r)
    requires t == PerformRows(s, DropRows(r, true))[s.nextId := FreshJob(r, Diarize, 0, s.now)]
    ensures RowsGated(t, r) <==> HasDone(s.jobs, r, Transcode)
  {
    var dropped := PerformRows(s, DropRows(r, true));
    DroppedLabels(s, r);
    assert t[s.nextId].rec == r && Transcode in Predecessors(Diarize);
    assert HasDone(t, r, Transcode) <==> HasDone(dropped, r, Transcode) by {
      if id :| id in dropped && dropped[id].rec == r && dropped[id].kind.Transcode? && dropped[id].state.Done? {
        assert t[id] == dropped[id];
      }
    }
    forall id | id in dropped && dropped[id].rec == r && !dropped[id].kind.Summarize?
      ensures PredecessorsDone(t, r, dropped[id].kind) <==>
              !dropped[id].kind.Transcribe? || HasDone(s.jobs, r, Transcode)
    {
      assert Predecessors(dropped[id].kind) == if dropped[id].kind.Transcribe? then [Transcode] else [];
    }
  }

  /** A stored transcript has a transcribe row behind it, and so will one being made. */
  ghost predicate TranscriptBacked(s: State, r: nat) {
    && (r in s.recs && s.recs[r].transcript ==> HasRow(s.jobs, r, Transcribe))
    && forall tid | tid in s.tasks && Transcribing(s.tasks[tid], r) :: s.tasks[tid].job in s.jobs
  }

  predicate Transcribing(t: Task, r: nat) {
    t.InStage? && t.kind.Transcribe? && t.rec == r
  }

  /** A reprocess while a transcribe stage runs. */
  predicate OvertakesTranscribe(s: State, a: Action, r: nat) {
    a == Reprocess(r) && exists tid | tid in s.tasks :: Transcribing(s.tasks[tid], r)
  }

  lemma BackedStep(c: Config, s: State, a: Action, r: nat)
    requires Core(c, s) && Enabled(c, s, a) && TranscriptBacked(s, r) && !OvertakesTranscribe(s, a, r)
    ensures TranscriptBacked(Apply(c, s, a), r)
  {
    if a.Reprocess? {
      ReprocessKeepsBacked(c, s, a.rec, r);
    } else if a.Rediarize? {
      RediarizeKeepsBacked(c, s, a.rec, r);
    } else if !a.Tick? {
      OutcomeIsGood(c, s, a);
      OutcomeIsBacked(c, s, a, r);
      EffectKeepsBacked(c, s, Outcome(c, s, a), r);
    }
  }

  lemma ReprocessKeepsBacked(c: Config, s: State, r0: nat, r: nat)
    requires Core(c, s) && Enabled(c, s, Reprocess(r0)) && TranscriptBacked(s, r)
              && !OvertakesTranscribe(s, Reprocess(r0), r)
    ensures TranscriptBacked(Apply(c, s, Reprocess(r0)), r)
  {
    var s' := Apply(c, s, Reprocess(r0));
    if r0 != r {
      assert forall id | id in s.jobs && s.jobs[id].rec == r :: id in s'.jobs && s'.jobs[id] == s.jobs[id];
      HeldRowsStay(c, s, s', r);
    }
  }

  lemma RediarizeKeepsBacked(c: Config, s: State, r0: nat, r: nat)
    requires Core(c, s) && Enabled(c, s, Rediarize(r0)) && TranscriptBacked(s, r)
    ensures TranscriptBacked(Apply(c, s, Rediarize(r0)), r)
  {
    var s' := Apply(c, s, Rediarize(r0));
    if id :| id in s.jobs && s.jobs[id].rec == r && s.jobs[id].kind.Transcribe? {
      assert id in s'.jobs && s'.jobs[id] == s.jobs[id];
    }
    HeldRowsStay(c, s, s', r);
  }

  lemma HeldRowsStay(c: Config, s: State, s': State, r: nat)
    requires Core(c, s) && TranscriptBacked(s, r)
    requires forall tid | tid in s'.tasks && Transcribing(s'.tasks[tid], r) ::
               tid in s.tasks && s'.tasks[tid] == s.tasks[tid]
    requires forall id | id in s.jobs && s.jobs[id].rec == r && s.jobs[id].kind.Transcribe? :: id in s'.jobs
    ensures forall tid | tid in s'.tasks && Transcribing(s'.tasks[tid], r) :: s'.tasks[tid].job in s'.jobs
  {
    forall tid | tid in s'.tasks && Transcribing(s'.tasks[tid], r)
      ensures s'.tasks[tid].job in s'.jobs
    {
      assert RowHeld(c, s.now, s.tasks[tid], s.jobs[s.tasks[tid].job]);
    }
  }

  /** What an effect must bring along: nothing is transcribed, or stored, without its row. */
  ghost predicate BackedEffect(s: State, e: Effect, r: nat) {
    && (e.recs.WriteRec? && e.recs.rec == r && e.recs.value.transcript ==>
          (r in s.recs && s.recs[r].transcript) || HasRow(s.jobs, r, Transcribe))
    && ((e.tasks.NewTask? || e.tasks.WriteTask?) && Transcribing(e.tasks.task, r) ==> e.tasks.task.job in s.jobs)
  }

  lemma OutcomeIsBacked(c: Config, s: State, a: Action, r: nat)
    requires Core(c, s) && Enabled(c, s, a) && TranscriptBacked(s, r)
    requires !a.Tick? && !a.Reprocess? && !a.Rediarize?
    ensures BackedEffect(s, Outcome(c, s, a), r)
  {
    if a.StoreTranscript? && s.tasks[a.tid].rec == r {
      var t := s.tasks[a.tid];
      assert Transcribing(t, r) && RowHeld(c, s.now, t, s.jobs[t.job]);
    }
  }

  lemma EffectKeepsBacked(c: Config, s: State, e: Effect, r: nat)
    requires Core(c, s) && Good(c, s, e) && !e.rows.DropRows? && TranscriptBacked(s, r) && BackedEffect(s, e, r)
    ensures TranscriptBacked(Perform(s, e), r)
  {
    GoodEffectGrows(c, s, e);
    RowsPersist(s.jobs, PerformRows(s, e.rows), r, Transcribe);
  }

  lemma BackedMeansDone(s: State, r: nat)
    requires Joined(s, r) && TranscriptBacked(s, r)
    ensures r in s.recs && s.recs[r].transcript ==> HasDone(s.jobs, r, Transcode)
  {
    if r in s.recs && s.recs[r].transcript { GatedBackToEntry(s, r, Transcribe); }
  }

  /**
   The premises again, without asking that a re-diarization finds transcode done; instead
   a reprocess comes while no transcribe stage of its recording runs.
   */
  predicate AllowedUnasked(c: Config, s: State, a: Action) {
    match a
    case Rediarize(r) => forall tid | tid in s.tasks :: !ActsOnStaleLabels(s.tasks[tid], r)
    case Reprocess(r) => Admissible(c, s, a) && !OvertakesTranscribe(s, a, r)
    case _ => Admissible(c, s, a)
  }

  predicate IsUnaskedRun(c: Config, s: State, run: seq<Action>)
    decreases |run|
  {
    run == []
    || (Enabled(c, s, run[0]) && AllowedUnasked(c, s, run[0]) && IsUnaskedRun(c, Apply(c, s, run[0]), run[1..]))
  }

  ghost predicate AllBacked(s: State) {
    forall r :: TranscriptBacked(s, r)
  }

  lemma AllBackedAtStart()
    ensures AllBacked(INIT)
  {
  }

  lemma AllBackedStep(c: Config, s: State, a: Action)
    requires Core(c, s) && AllBacked(s) && Enabled(c, s, a) && AllowedUnasked(c, s, a)
    ensures AllBacked(Apply(c, s, a))
  {
    forall r
      ensures TranscriptBacked(Apply(c, s, a), r)
    {
      assert TranscriptBacked(s, r);
      BackedStep(c, s, a, r);
    }
  }

  /** What the run does not ask is so: transcode is done at every re-diarization. */
  lemma UnaskedIsAdmissible(c: Config, s: State, a: Action)
    requires Invariant(c, s) && AllBacked(s) && Enabled(c, s, a) && AllowedUnasked(c, s, a)
    ensures Admissible(c, s, a)
  {
    if a.Rediarize? {
      assert Joined(s, a.rec) && TranscriptBacked(s, a.rec);
      BackedMeansDone(s, a.rec);
    }
  }

  /** Such runs are admissible, and keep the whole invariant. */
  lemma {:induction false} UnaskedRunsAreRuns(c: Config, s: State, run: seq<Action>)
    requires Invariant(c, s) && AllBacked(s) && IsUnaskedRun(c, s, run)
    ensures IsRun(c, s, run) && Invariant(c, After(c, s, run)) && AllBacked(After(c, s, run))
    decreases |run|
  {
    if run != [] {
      UnaskedIsAdmissible(c, s, run[0]);
      InvariantStep(c, s, run[0]);
      AllBackedStep(c, s, run[0]);
      UnaskedRunsAreRuns(c, Apply(c, s, run[0]), run[1..]);
    }
  }

  /**
   From the empty database, with no reprocess during a transcribe stage, the invariant
   holds throughout, and a stored transcript always means transcode is done.
   */
  lemma UnaskedRunsFromStart(c: Config, run: seq<Action>)
    requires IsUnaskedRun(c, INIT, run)
    ensures IsRun(c, INIT, run) && Invariant(c, After(c, INIT, run))
    ensures TranscriptsMeanDone(After(c, INIT, run))
  {
    InvariantAtStart(c);
    AllBackedAtStart();
    UnaskedRunsAreRuns(c, INIT, run);
    TranscriptsAreDone(c, After(c, INIT, run));
  }

  ghost predicate TranscriptsMeanDone(s: State) {
    forall r | r in s.recs && s.recs[r].transcript :: HasDone(s.jobs, r, Transcode)
  }

  lemma TranscriptsAreDone(c: Config, s: State)
    requires Invariant(c, s) && AllBacked(s)
    ensures TranscriptsMeanDone(s)
  {
    forall r | r in s.recs && s.recs[r].transcript
      ensures HasDone(s.jobs, r, Transcode)
    {
      assert Joined(s, r) && TranscriptBacked(s, r);
      BackedMeansDone(s, r);
    }
  }

  /**
   One that did: the transcript it stores comes without transcode done, and a re-diarization of it
   inserts an ungated row.
   */
  lemma StaleTranscriptBreaksGate(c: Config, s: State, tid: nat, r: nat)
    requires Core(c, s) && Joined(s, r) && tid in s.tasks && Transcribing(s.tasks[tid], r)
    ensures var path := [Reprocess(r), StoreTranscript(tid)];
            && IsPath(c, s, path)
            && var s' := Along(c, s, path);
               var next := [Rediarize(r), Step(s'.nextTask)];
               IsPath(c, s', next) && !RowsGated(Along(c, s', next).jobs, r)
  {
    var s2 := StaleTranscriptStored(c, s, tid, r);
    RediarizeIsGatedIff(c, s2, r);
  }

  lemma StaleTranscriptStored(c: Config, s: State, tid: nat, r: nat) returns (s2: State)
    requires Core(c, s) && tid in s.tasks && Transcribing(s.tasks[tid], r)
    ensures var path := [Reprocess(r), StoreTranscript(tid)]; IsPath(c, s, path) && s2 == Along(c, s, path)
    ensures Core(c, s2) && Enabled(c, s2, Rediarize(r)) && forall id | id in s2.jobs :: s2.jobs[id].rec != r
  {
    var s1 := Apply(c, s, Reprocess(r));
    OutcomeIsGood(c, s, Reprocess(r));
    GoodKeepsCore(c, s, Outcome(c, s, Reprocess(r)));
    assert s1.tasks[tid] == s.tasks[tid];
    TwoSteps(c, s, Reprocess(r), StoreTranscript(tid));
    s2 := Apply(c, s1, StoreTranscript(tid));
    CoreStep(c, s1, StoreTranscript(tid));
  }

  /** A run from the empty database does all of it but the last two actions within the premises. */
  lemma StaleTranscriptIsReached(c: Config) returns (run: seq<Action>)
    ensures IsRun(c, INIT, run)
    ensures var s := After(c, INIT, run);
            var next := [Rediarize(0), Step(s.nextTask)];
            IsPath(c, s, next) && !RowsGated(Along(c, s, next).jobs, 0)
  {
    run := ReachesTranscribing(c);
    EveryRun(c, run, 0);
    StaleTranscriptBreaksGate(c, TRANSCRIBING, 2, 0);
    var s1 := Apply(c, TRANSCRIBING, Reprocess(0));
    Onward(c, INIT, run, TRANSCRIBING, Reprocess(0), s1);
    run := run + [Reprocess(0)];
    TwoSteps(c, TRANSCRIBING, Reprocess(0), StoreTranscript(2));
    Onward(c, INIT, run, s1, StoreTranscript(2), Apply(c, s1, StoreTranscript(2)));
    run := run + [StoreTranscript(2)];
  }
}
