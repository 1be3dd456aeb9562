/** The live loop while a recording uploads: when it comes round again, and what bounds it. */
module ProtocolUploading {
  import opened Types
  import opened JobTable
  import opened Protocol
  import opened ProtocolSafety
  import opened ProtocolLive
  import opened ProtocolPaths
  import opened ProtocolExamples
  import opened Sums

  // ------------------------------------------------------------- one round

  /** After a pass, the three statements of the loop insert a live job exactly when all three answers ask for it. */
  lemma PassReinsertsIff(c: Config, s: State, tid: nat, r: nat)
    requires Core(c, s) && tid in s.tasks && s.tasks[tid] == LiveStatus(r)
    ensures var path := [Step(tid), Step(tid), Step(tid)];
            && r in s.recs
            && ((IsPath(c, s, path) && Inserted(s, Along(c, s, path), r)) <==>
                  s.recs[r].status.Uploading? && s.recs[r].untranscribed != {}
                      && !HasLive(s.jobs, r, TranscribeSegment))
  {
    ThreeSteps(c, s, Step(tid), Step(tid), Step(tid));
    var s1 := Apply(c, s, Step(tid));
    if s.recs[r].status.Uploading? {
      assert s1.tasks[tid] == LiveCount(r) && s1.recs == s.recs && s1.jobs == s.jobs;
      var s2 := Apply(c, s1, Step(tid));
      if s.recs[r].untranscribed != {} {
        assert s2.tasks[tid] == OweEnqueue(r, TranscribeSegment) && s2.recs == s.recs && s2.jobs == s.jobs;
      }
    }
  }

  predicate Inserted(s: State, s': State, r: nat) {
    r in s.recs && r in s'.recs && s'.recs[r].liveInserts == s.recs[r].liveInserts + 1
  }

  // --------------------------------------------------------- with progress

  /** Uploads still to insert their segment. */
  function ArrivalWeight(r: nat): Task -> int {
    (t: Task) => if t.rec == r && t.Inserting? then 1 else 0
  }

  ghost function Arrivals(s: State, r: nat): int {
    Sum(s.tasks, s.nextTask, ArrivalWeight(r))
  }

  /** What the weights below depend on: arrivals to come, and the two answers the loop asks for. */
  datatype Outlook = Outlook(arrivals: int, uploading: bool, awaiting: bool)

  ghost function OutlookOf(s: State, r: nat): Outlook
    requires r in s.recs
  {
    Outlook(Arrivals(s, r), s.recs[r].status.Uploading?, s.recs[r].untranscribed != {})
  }

  /**
   The live jobs a task may still cause without a segment being transcribed: one at once
   if it would insert now, and one more for every arrival; an upload also brings a segment.
   */
  function LoopWeight(r: nat, o: Outlook): Task -> int {
    (t: Task) =>
      if t.rec != r then 0
      else match t
           case LiveStatus(_) => if o.uploading then o.arrivals + (if o.awaiting then 1 else 0) else 0
           case LiveCount(_) => o.arrivals + (if o.awaiting then 1 else 0)
           case OweEnqueue(_, k) => if k.TranscribeSegment? then o.arrivals + 1 else 0
           case Inserting(_, _, saw) => if saw then o.arrivals + 2 else 1
           case _ => 0
  }

  /** The live job itself may come round once for every arrival. */
  ghost function LiveWeight(t: Table, r: nat, o: Outlook): int {
    if HasLive(t, r, TranscribeSegment) then o.arrivals else 0
  }

  /** `a` ends a live pass of `r` with success. */
  predicate EndsPass(s: State, a: Action, r: nat) {
    a.StageOk? && a.tid in s.tasks && s.tasks[a.tid].InStage? && s.tasks[a.tid].rec == r
        && s.tasks[a.tid].kind.TranscribeSegment?
  }

  /** It ends while the recording uploads and a segment still awaits text. */
  predicate LeavesText(s: State, a: Action, r: nat) {
    EndsPass(s, a, r) && r in s.recs && s.recs[r].status.Uploading? && s.recs[r].untranscribed != {}
  }

  predicate MarksFor(s: State, a: Action, r: nat) {
    a.MarkTranscribed? && a.tid in s.tasks && s.tasks[a.tid].rec == r
  }

  /** The passes that have transcribed a segment and not yet ended. */
  function MarkedAfter(s: State, a: Action, r: nat, marked: set<nat>): set<nat> {
    if MarksFor(s, a, r) then marked + {a.tid} else if EndsPass(s, a, r) then marked - {a.tid} else marked
  }

  /**
   No upload for `r` arrives, and every pass that succeeds while a segment still awaits
   text has transcribed one, or is in `marked` from before.
   */
  predicate EachPassMarks(c: Config, s: State, run: seq<Action>, r: nat, marked: set<nat>)
    requires IsRun(c, s, run)
    decreases |run|
  {
    run == []
    || (&& !(run[0].PutSegment? && run[0].rec == r)
        && (LeavesText(s, run[0], r) ==> run[0].tid in marked)
        && EachPassMarks(c, Apply(c, s, run[0]), run[1..], r, MarkedAfter(s, run[0], r, marked)))
  }

  /**
   While it uploads, the row of a running pass has not been deleted: only a reprocess would, and
   that ends uploading.
   */
  ghost predicate PassesHaveRows(s: State, r: nat) {
    Uploads(s.recs, r) ==>
      forall tid | tid in s.tasks && s.tasks[tid].InStage? && s.tasks[tid].rec == r :: s.tasks[tid].job in s.jobs
  }

  lemma PassesHaveRowsAtStart(r: nat)
    ensures PassesHaveRows(INIT, r)
  {
  }

  lemma PassesKeepRows(c: Config, s: State, a: Action, r: nat)
    requires Core(c, s) && Enabled(c, s, a) && PassesHaveRows(s, r)
    ensures PassesHaveRows(Apply(c, s, a), r)
  {
    if r in s.recs && !s.recs[r].status.Uploading? {
      UploadingIsLeftForGood(c, s, a, r);
    } else if !a.Tick? {
      OutcomeIsGood(c, s, a);
      if a.Reprocess? || a.Rediarize? {
        ResetKeepsRows(c, s, a, r);
      } else {
        StatementKeepsRows(c, s, a, r);
      }
    }
  }

  lemma ResetKeepsRows(c: Config, s: State, a: Action, r: nat)
    requires Core(c, s) && Enabled(c, s, a) && (a.Reprocess? || a.Rediarize?) && PassesHaveRows(s, r)
    ensures PassesHaveRows(Apply(c, s, a), r)
  {
    var s' := Apply(c, s, a);
    if a.rec != r {
      forall tid | tid in s'.tasks && s'.tasks[tid].InStage? && s'.tasks[tid].rec == r && Uploads(s'.recs, r)
        ensures s'.tasks[tid].job in s'.jobs
      {
        assert RowHeld(c, s.now, s.tasks[tid], s.jobs[s.tasks[tid].job]);
      }
    }
  }

  lemma StatementKeepsRows(c: Config, s: State, a: Action, r: nat)
    requires Core(c, s) && Enabled(c, s, a) && !a.Tick? && !a.Reprocess? && !a.Rediarize?
    requires PassesHaveRows(s, r) && (r in s.recs ==> s.recs[r].status.Uploading?)
    ensures PassesHaveRows(Apply(c, s, a), r)
  {
    var e := Outcome(c, s, a);
    StagesStartOnRows(c, s, a);
    EffectKeepsRows(c, s, e, r);
  }

  /** A stage begins only by a claim, and no statement but a reset deletes a row. */
  ghost predicate StartsOnRows(s: State, e: Effect) {
    && !e.rows.DropRows?
    && (e.tasks.WriteTask? ==> !e.tasks.task.InStage?)
    && (e.tasks.NewTask? && e.tasks.task.InStage? ==> e.tasks.task.job in s.jobs)
  }

  lemma StagesStartOnRows(c: Config, s: State, a: Action)
    requires Enabled(c, s, a) && !a.Tick? && !a.Reprocess? && !a.Rediarize?
    ensures StartsOnRows(s, Outcome(c, s, a))
  {
  }

  lemma EffectKeepsRows(c: Config, s: State, e: Effect, r: nat)
    requires Core(c, s) && StartsOnRows(s, e) && PassesHaveRows(s, r) && (r in s.recs ==> s.recs[r].status.Uploading?)
    ensures PassesHaveRows(Perform(s, e), r)
  {
    assert forall id | id in s.jobs :: id in PerformRows(s, e.rows);
  }

  lemma {:induction false} RunsKeepPassRows(c: Config, s: State, run: seq<Action>, r: nat)
    requires Core(c, s) && PassesHaveRows(s, r) && IsRun(c, s, run)
    ensures PassesHaveRows(After(c, s, run), r)
    decreases |run|
  {
    if run != [] {
      PassesKeepRows(c, s, run[0], r);
      CoreStep(c, s, run[0]);
      RunsKeepPassRows(c, Apply(c, s, run[0]), run[1..], r);
    }
  }

  // -------------------------------------------------------- the budget

  /**
   What may still be inserted: by the tasks past a pass or in an upload, by the live job,
   for each segment awaiting text, and by each pass of `marked`.
   */
  ghost function PassBudget(s: State, r: nat, marked: set<nat>): int
    requires r in s.recs
  {
    var o := OutlookOf(s, r);
    Sum(s.tasks, s.nextTask, LoopWeight(r, o)) + LiveWeight(s.jobs, r, o) + |s.recs[r].untranscribed| + |marked|
  }

  ghost function AwaitingDelta(s: State, e: RecChange, r: nat): int {
    if e.WriteRec? && e.rec == r && r in s.recs then |e.value.untranscribed| - |s.recs[r].untranscribed| else 0
  }

  /** How an effect moves the budget, the outlook being as before. */
  ghost function LoopDelta(s: State, e: Effect, r: nat): int
    requires r in s.recs
  {
    var o := OutlookOf(s, r);
    InsertsDelta(s, e.recs, r) + AwaitingDelta(s, e.recs, r) + TaskDelta(s, e.tasks, LoopWeight(r, o))
    + LiveWeight(PerformRows(s, e.rows), r, o) - LiveWeight(s.jobs, r, o)
  }

  lemma ArrivalsNonNegative(s: State, r: nat)
    ensures 0 <= Arrivals(s, r)
  {
    SumCovers(s.tasks, s.nextTask, ArrivalWeight(r));
  }

  /** A live row appears only by an insert. */
  lemma LiveAppearsByInsert(c: Config, s: State, e: Effect, r: nat)
    requires Core(c, s) && Good(c, s, e) && HasLive(PerformRows(s, e.rows), r, TranscribeSegment)
    ensures HasLive(s.jobs, r, TranscribeSegment)
            || (e.rows.NewRow? && e.rows.row.rec == r && e.rows.row.kind.TranscribeSegment?)
  {
    var t' := PerformRows(s, e.rows);
    var id :| id in t' && t'[id].rec == r && t'[id].kind.TranscribeSegment? && Live(t'[id]);
    if id in s.jobs && Live(s.jobs[id]) {
      assert s.jobs[id].rec == r && s.jobs[id].kind.TranscribeSegment?;
    }
  }

  /** What the live rows add, however the effect came about. */
  lemma LiveWeightMoves(c: Config, s: State, e: Effect, r: nat)
    requires Core(c, s) && Good(c, s, e) && r in s.recs
    ensures var o := OutlookOf(s, r);
            LiveWeight(PerformRows(s, e.rows), r, o) - LiveWeight(s.jobs, r, o)
            <= if e.rows.NewRow? && e.rows.row.rec == r && e.rows.row.kind.TranscribeSegment? then o.arrivals else 0
  {
    ArrivalsNonNegative(s, r);
    if HasLive(PerformRows(s, e.rows), r, TranscribeSegment) { LiveAppearsByInsert(c, s, e, r); }
  }

  lemma UploadSpends(c: Config, s: State, tid: nat, r: nat)
    requires Core(c, s) && CanAdvance(s, tid) && r in s.recs && s.tasks[tid].Inserting?
    ensures LoopDelta(s, Advance(c, s, tid), r) <= 0
  {
    AdvanceIsGood(c, s, tid);
    LiveWeightMoves(c, s, Advance(c, s, tid), r);
    OneMoreAtMost(s.recs[s.tasks[tid].rec].untranscribed, s.tasks[tid].segment);
  }

  lemma OneMoreAtMost(awaiting: set<nat>, segment: nat)
    ensures |awaiting + {segment}| <= |awaiting| + 1
  {
    if segment in awaiting { assert awaiting + {segment} == awaiting; }
  }

  lemma LoopSpends(c: Config, s: State, tid: nat, r: nat)
    requires Core(c, s) && CanAdvance(s, tid) && r in s.recs
    requires s.tasks[tid].LiveStatus? || s.tasks[tid].LiveCount? || s.tasks[tid].OweEnqueue?
    ensures LoopDelta(s, Advance(c, s, tid), r) <= 0
  {
    ArrivalsNonNegative(s, r);
    AdvanceIsGood(c, s, tid);
    LiveWeightMoves(c, s, Advance(c, s, tid), r);
  }

  lemma OtherStepsSpendNothing(c: Config, s: State, tid: nat, r: nat)
    requires Core(c, s) && CanAdvance(s, tid) && r in s.recs && !s.tasks[tid].Inserting?
    requires !s.tasks[tid].LiveStatus? && !s.tasks[tid].LiveCount? && !s.tasks[tid].OweEnqueue?
    ensures LoopDelta(s, Advance(c, s, tid), r) <= 0
  {
    var t := s.tasks[tid];
    AdvanceIsGood(c, s, tid);
    LiveWeightMoves(c, s, Advance(c, s, tid), r);
    if t.Succeeding? { assert t.rest[0] in Successors(t.kind); }
  }

  lemma MarkSpends(c: Config, s: State, a: Action, r: nat, marked: set<nat>)
    requires Core(c, s) && Enabled(c, s, a) && a.MarkTranscribed? && r in s.recs
    ensures LoopDelta(s, Outcome(c, s, a), r) + |MarkedAfter(s, a, r, marked)| <= |marked|
  {
    if s.tasks[a.tid].rec == r {
      var awaiting := s.recs[r].untranscribed;
      assert |awaiting - {a.segment}| == |awaiting| - 1;
      assert a.tid in marked ==> marked + {a.tid} == marked;
    }
  }

  /** A pass that ends takes its live row with it. */
  lemma EndedPassLeavesNoneLive(c: Config, s: State, a: Action, r: nat)
    requires Core(c, s) && Enabled(c, s, a) && EndsPass(s, a, r) && s.tasks[a.tid].job in s.jobs
    ensures HasLive(s.jobs, r, TranscribeSegment)
    ensures !HasLive(PerformRows(s, Outcome(c, s, a).rows), r, TranscribeSegment)
  {
    var t := s.tasks[a.tid];
    assert RowHeld(c, s.now, t, s.jobs[t.job]);
    assert Live(s.jobs[t.job]);
  }

  lemma PassEndSpends(c: Config, s: State, a: Action, r: nat, marked: set<nat>)
    requires Core(c, s) && Enabled(c, s, a) && a.StageOk? && r in s.recs && PassesHaveRows(s, r)
    requires LeavesText(s, a, r) ==> a.tid in marked
    ensures LoopDelta(s, Outcome(c, s, a), r) + |MarkedAfter(s, a, r, marked)| <= |marked|
  {
    var e := Outcome(c, s, a);
    ReportIsGood(c, s, a);
    LiveWeightMoves(c, s, e, r);
    assert a.tid !in marked ==> marked - {a.tid} == marked;
    if EndsPass(s, a, r) && s.recs[r].status.Uploading? { EndedPassLeavesNoneLive(c, s, a, r); }
  }

  /** Claims, reaps, failures, deferrals and requests cost nothing. */
  lemma RestSpendsNothing(c: Config, s: State, a: Action, r: nat)
    requires Core(c, s) && Enabled(c, s, a) && !a.Tick? && !a.Step? && !a.MarkTranscribed? && !a.StageOk?
    requires r in s.recs && !(a.PutSegment? && a.rec == r)
    ensures LoopDelta(s, Outcome(c, s, a), r) <= 0
  {
    OutcomeIsGood(c, s, a);
    LiveWeightMoves(c, s, Outcome(c, s, a), r);
    RestTouchesNoLoop(c, s, a, r);
  }

  lemma RestTouchesNoLoop(c: Config, s: State, a: Action, r: nat)
    requires Core(c, s) && Enabled(c, s, a) && !a.Tick? && !a.Step? && !a.MarkTranscribed? && !a.StageOk?
    requires r in s.recs && !(a.PutSegment? && a.rec == r)
    ensures var e, o := Outcome(c, s, a), OutlookOf(s, r);
            && InsertsDelta(s, e.recs, r) + AwaitingDelta(s, e.recs, r) + TaskDelta(s, e.tasks, LoopWeight(r, o)) <= 0
            && !(e.rows.NewRow? && e.rows.row.rec == r && e.rows.row.kind.TranscribeSegment?)
  {
    ArrivalsNonNegative(s, r);
  }

  lemma OutcomeSpends(c: Config, s: State, a: Action, r: nat, marked: set<nat>)
    requires Core(c, s) && Enabled(c, s, a) && !a.Tick? && r in s.recs && !(a.PutSegment? && a.rec == r)
    requires PassesHaveRows(s, r) && (LeavesText(s, a, r) ==> a.tid in marked)
    ensures LoopDelta(s, Outcome(c, s, a), r) + |MarkedAfter(s, a, r, marked)| <= |marked|
  {
    if a.Step? {
      var t := s.tasks[a.tid];
      if t.Inserting? {
        UploadSpends(c, s, a.tid, r);
      } else if t.LiveStatus? || t.LiveCount? || t.OweEnqueue? {
        LoopSpends(c, s, a.tid, r);
      } else {
        OtherStepsSpendNothing(c, s, a.tid, r);
      }
    } else if a.MarkTranscribed? {
      MarkSpends(c, s, a, r, marked);
    } else if a.StageOk? {
      PassEndSpends(c, s, a, r, marked);
    } else {
      RestSpendsNothing(c, s, a, r);
    }
  }

  /** The outlook gets no worse: a segment comes to await text only as an arrival is used up. */
  ghost predicate NoWorse(o: Outlook, o': Outlook) {
    && 0 <= o'.arrivals <= o.arrivals && (o'.uploading ==> o.uploading)
    && (o'.awaiting && !o.awaiting ==> o'.arrivals < o.arrivals)
  }

  lemma OutlookStep(c: Config, s: State, a: Action, r: nat)
    requires Core(c, s) && Enabled(c, s, a) && !a.Tick? && r in s.recs && !(a.PutSegment? && a.rec == r)
    ensures var s' := Apply(c, s, a); r in s'.recs && NoWorse(OutlookOf(s, r), OutlookOf(s', r))
  {
    var s', e := Apply(c, s, a), Outcome(c, s, a);
    OutcomeIsGood(c, s, a);
    TaskSumMoves(s, e, ArrivalWeight(r));
    ArrivalsNonNegative(s', r);
    ArrivesOrNot(c, s, a, r);
    if !s.recs[r].status.Uploading? { UploadingIsLeftForGood(c, s, a, r); }
  }

  lemma ArrivesOrNot(c: Config, s: State, a: Action, r: nat)
    requires Core(c, s) && Enabled(c, s, a) && !a.Tick? && r in s.recs && !(a.PutSegment? && a.rec == r)
    ensures var e := Outcome(c, s, a);
            && TaskDelta(s, e.tasks, ArrivalWeight(r)) <= 0
            && (e.recs.WriteRec? && e.recs.rec == r && e.recs.value.untranscribed != {}
                && s.recs[r].untranscribed == {} ==>
                  TaskDelta(s, e.tasks, ArrivalWeight(r)) < 0)
  {
    if a.Step? { StepArrivesOrNot(c, s, a.tid, r); }
  }

  lemma StepArrivesOrNot(c: Config, s: State, tid: nat, r: nat)
    requires CanAdvance(s, tid) && r in s.recs
    ensures var e := Advance(c, s, tid);
            && TaskDelta(s, e.tasks, ArrivalWeight(r)) <= 0
            && (e.recs.WriteRec? && e.recs.rec == r && e.recs.value.untranscribed != {}
                && s.recs[r].untranscribed == {} ==>
                  TaskDelta(s, e.tasks, ArrivalWeight(r)) < 0)
  {
  }

  /** A no worse outlook makes nothing dearer. */
  lemma {:induction false} OutlookLightens(tasks: map<nat, Task>, n: nat, r: nat, o: Outlook, o': Outlook)
    requires NoWorse(o, o')
    ensures Sum(tasks, n, LoopWeight(r, o')) <= Sum(tasks, n, LoopWeight(r, o))
  {
    if n > 0 { OutlookLightens(tasks, n - 1, r, o, o'); }
  }

  lemma BudgetStep(c: Config, s: State, a: Action, r: nat, marked: set<nat>)
    requires Core(c, s) && Enabled(c, s, a) && r in s.recs && !(a.PutSegment? && a.rec == r)
    requires PassesHaveRows(s, r) && (LeavesText(s, a, r) ==> a.tid in marked)
    ensures var s' := Apply(c, s, a);
            && r in s'.recs
            && s'.recs[r].liveInserts + PassBudget(s', r, MarkedAfter(s, a, r, marked))
               <= s.recs[r].liveInserts + PassBudget(s, r, marked)
  {
    if !a.Tick? {
      var s', e := Apply(c, s, a), Outcome(c, s, a);
      OutcomeIsGood(c, s, a);
      OutcomeSpends(c, s, a, r, marked);
      BudgetMoves(c, s, e, r);
      OutlookStep(c, s, a, r);
      OutlookLightens(s'.tasks, s'.nextTask, r, OutlookOf(s, r), OutlookOf(s', r));
    }
  }

  lemma BudgetMoves(c: Config, s: State, e: Effect, r: nat)
    requires Core(c, s) && Good(c, s, e) && r in s.recs
    ensures var s', o := Perform(s, e), OutlookOf(s, r);
            && r in s'.recs
            && s'.recs[r].liveInserts + Sum(s'.tasks, s'.nextTask, LoopWeight(r, o)) + LiveWeight(s'.jobs, r, o)
               + |s'.recs[r].untranscribed|
               == s.recs[r].liveInserts + Sum(s.tasks, s.nextTask, LoopWeight(r, o)) + LiveWeight(s.jobs, r, o)
                  + |s.recs[r].untranscribed| + LoopDelta(s, e, r)
  {
    TaskSumMoves(s, e, LoopWeight(r, OutlookOf(s, r)));
  }

  lemma BudgetNonNegative(s: State, r: nat, marked: set<nat>)
    requires r in s.recs
    ensures 0 <= PassBudget(s, r, marked)
  {
    ArrivalsNonNegative(s, r);
    SumCovers(s.tasks, s.nextTask, LoopWeight(r, OutlookOf(s, r)));
  }

  /**
   If no successful pass leaves text behind without having transcribed any, live jobs are bounded
   also while uploading.
   */
  lemma {:induction false} ProgressBoundsLiveJobs(c: Config, s: State, run: seq<Action>, r: nat, marked: set<nat>)
    requires Core(c, s) && PassesHaveRows(s, r) && r in s.recs
    requires IsRun(c, s, run) && EachPassMarks(c, s, run, r, marked)
    ensures var s' := After(c, s, run);
            r in s'.recs && s'.recs[r].liveInserts <= s.recs[r].liveInserts + PassBudget(s, r, marked)
    decreases |run|
  {
    BudgetNonNegative(s, r, marked);
    if run != [] {
      BudgetStep(c, s, run[0], r, marked);
      CoreStep(c, s, run[0]);
      PassesKeepRows(c, s, run[0], r);
      ProgressBoundsLiveJobs(c, Apply(c, s, run[0]), run[1..], r, MarkedAfter(s, run[0], r, marked));
    }
  }

  // ------------------------------------------------------ without progress

  /** A live job is due while the recording uploads with a segment awaiting text. */
  ghost predicate LiveJobDue(s: State, r: nat, id: nat) {
    && r in s.recs && s.recs[r].status.Uploading? && s.recs[r].untranscribed != {}
    && id in s.jobs && s.jobs[id].rec == r && s.jobs[id].kind.TranscribeSegment?
    && s.jobs[id].state.Queued? && s.jobs[id].runAfter <= s.now
  }

  /** One pass that transcribes nothing (the stage skips a segment whose file is gone) … */
  function EmptyPass(s: State, id: nat): seq<Action> {
    [Claim(id, 0)] + ([StageOk(s.nextTask)] + Drain(s.nextTask))
  }

  /** … and what the worker does about the segment still awaiting text. */
  function Drain(tid: nat): seq<Action> {
    [Step(tid)] + ([Step(tid)] + [Step(tid)])
  }

  /** The statements of `Drain`, one after another. */
  lemma DrainStates(c: Config, s: State, r: nat, tid: nat) returns (s1: State, s2: State, s3: State)
    requires Core(c, s) && tid in s.tasks && s.tasks[tid] == LiveStatus(r)
    requires r in s.recs && s.recs[r].status.Uploading? && s.recs[r].untranscribed != {}
    requires !HasLive(s.jobs, r, TranscribeSegment)
    ensures Enabled(c, s, Step(tid)) && s1 == Apply(c, s, Step(tid))
    ensures Enabled(c, s1, Step(tid)) && s2 == Apply(c, s1, Step(tid))
    ensures Enabled(c, s2, Step(tid)) && s3 == Apply(c, s2, Step(tid))
    ensures Core(c, s3) && LiveJobDue(s3, r, s.nextId) && s3.recs[r].liveInserts == s.recs[r].liveInserts + 1
  {
    s1 := Apply(c, s, Step(tid));
    CoreStep(c, s, Step(tid));
    assert s1.tasks[tid] == LiveCount(r) && s1.recs == s.recs && s1.jobs == s.jobs;
    s2 := Apply(c, s1, Step(tid));
    CoreStep(c, s1, Step(tid));
    assert s2.tasks[tid] == OweEnqueue(r, TranscribeSegment) && s2.recs == s.recs && s2.jobs == s.jobs;
    s3 := LastDrainState(c, s2, r, tid);
  }

  lemma LastDrainState(c: Config, s: State, r: nat, tid: nat) returns (s': State)
    requires Core(c, s) && tid in s.tasks && s.tasks[tid] == OweEnqueue(r, TranscribeSegment)
    requires r in s.recs && s.recs[r].status.Uploading? && s.recs[r].untranscribed != {}
    requires !HasLive(s.jobs, r, TranscribeSegment)
    ensures Enabled(c, s, Step(tid)) && s' == Apply(c, s, Step(tid))
    ensures Core(c, s') && LiveJobDue(s', r, s.nextId) && s'.recs[r].liveInserts == s.recs[r].liveInserts + 1
  {
    s' := Apply(c, s, Step(tid));
    CoreStep(c, s, Step(tid));
    assert s'.jobs[s.nextId] == FreshJob(r, TranscribeSegment, 0, s.now);
  }

  lemma DrainInserts(c: Config, s: State, r: nat, tid: nat)
    requires Core(c, s) && tid in s.tasks && s.tasks[tid] == LiveStatus(r)
    requires r in s.recs && s.recs[r].status.Uploading? && s.recs[r].untranscribed != {}
    requires !HasLive(s.jobs, r, TranscribeSegment)
    ensures IsRun(c, s, Drain(tid)) && Core(c, After(c, s, Drain(tid)))
    ensures LiveJobDue(After(c, s, Drain(tid)), r, s.nextId)
    ensures After(c, s, Drain(tid)).recs[r].liveInserts == s.recs[r].liveInserts + 1
  {
    var s1, s2, s3 := DrainStates(c, s, r, tid);
    RunOneMore(c, s2, Step(tid), []);
    RunOneMore(c, s1, Step(tid), [Step(tid)]);
    RunOneMore(c, s, Step(tid), [Step(tid)] + [Step(tid)]);
  }

  lemma PassStarts(c: Config, s: State, id: nat)
    requires Core(c, s) && id in s.jobs && s.jobs[id].state.Queued? && s.jobs[id].runAfter <= s.now
    ensures Enabled(c, s, Claim(id, 0))
    ensures var s1 := Apply(c, s, Claim(id, 0));
            && Core(c, s1) && s1.recs == s.recs && s1.nextId == s.nextId
                && s1.jobs == s.jobs[id := ClaimRow(s.jobs[id], 0, s.now)]
            && s.nextTask in s1.tasks && s1.tasks[s.nextTask] == InStage(0, id, s.jobs[id].rec, s.jobs[id].kind)
  {
    CoreStep(c, s, Claim(id, 0));
  }

  /** Claimed and completed, the live job leaves a worker about to look again. */
  lemma PassReachesDrain(c: Config, s: State, r: nat, id: nat)
    requires Core(c, s) && LiveJobDue(s, r, id)
    ensures Enabled(c, s, Claim(id, 0))
    ensures var s1 := Apply(c, s, Claim(id, 0));
            Enabled(c, s1, StageOk(s.nextTask)) && BeforeDrain(c, s, Apply(c, s1, StageOk(s.nextTask)), r)
  {
    PassStarts(c, s, id);
    PassCompletes(c, s, Apply(c, s, Claim(id, 0)), r, id);
  }

  lemma PassCompletes(c: Config, s: State, s1: State, r: nat, id: nat)
    requires Core(c, s) && Core(c, s1) && LiveJobDue(s, r, id)
    requires s1.recs == s.recs && s1.nextId == s.nextId && s1.jobs == s.jobs[id := ClaimRow(s.jobs[id], 0, s.now)]
    requires s.nextTask in s1.tasks && s1.tasks[s.nextTask] == InStage(0, id, r, TranscribeSegment)
    ensures Enabled(c, s1, StageOk(s.nextTask)) && BeforeDrain(c, s, Apply(c, s1, StageOk(s.nextTask)), r)
  {
    var t := s.nextTask;
    CoreStep(c, s1, StageOk(t));
    PassTable(c, s, s1, r, id);
  }

  /** The table after such a pass: one more row done. */
  lemma PassTable(c: Config, s: State, s1: State, r: nat, id: nat)
    requires Core(c, s) && LiveJobDue(s, r, id)
    requires s1.recs == s.recs && s1.nextId == s.nextId && s1.jobs == s.jobs[id := ClaimRow(s.jobs[id], 0, s.now)]
    requires s.nextTask in s1.tasks && s1.tasks[s.nextTask] == InStage(0, id, r, TranscribeSegment)
    ensures var s2 := Apply(c, s1, StageOk(s.nextTask));
            && s2.recs == s.recs && s2.nextId == s.nextId && !HasLive(s2.jobs, r, TranscribeSegment)
            && s.nextTask in s2.tasks && s2.tasks[s.nextTask] == LiveStatus(r)
  {
    NoOtherLive(c, s, Apply(c, s1, StageOk(s.nextTask)), r, id);
  }

  ghost predicate BeforeDrain(c: Config, s: State, s2: State, r: nat) {
    && Core(c, s2) && s.nextTask in s2.tasks && s2.tasks[s.nextTask] == LiveStatus(r)
    && r in s.recs && s.recs[r].status.Uploading? && s.recs[r].untranscribed != {} && s2.recs == s.recs
    && s2.nextId == s.nextId && !HasLive(s2.jobs, r, TranscribeSegment)
  }

  /** Such a pass ends where it began: another live job is due. */
  lemma EmptyPassRepeats(c: Config, s: State, r: nat, id: nat)
    requires Core(c, s) && LiveJobDue(s, r, id)
    ensures IsRun(c, s, EmptyPass(s, id))
    ensures var s' := After(c, s, EmptyPass(s, id));
            && Core(c, s') && LiveJobDue(s', r, s.nextId)
            && s'.recs[r].liveInserts == s.recs[r].liveInserts + 1
  {
    var t := s.nextTask;
    PassReachesDrain(c, s, r, id);
    var s1 := Apply(c, s, Claim(id, 0));
    var s2 := Apply(c, s1, StageOk(t));
    DrainInserts(c, s2, r, t);
    RunOneMore(c, s1, StageOk(t), Drain(t));
    RunOneMore(c, s, Claim(id, 0), [StageOk(t)] + Drain(t));
  }

  /** Completing the one live row leaves none. */
  lemma NoOtherLive(c: Config, s: State, s': State, r: nat, id: nat)
    requires Core(c, s) && id in s.jobs && s.jobs[id].rec == r && Live(s.jobs[id])
    requires s'.jobs.Keys == s.jobs.Keys && s'.jobs[id].state.Done?
    requires forall o | o in s.jobs && o != id :: s'.jobs[o] == s.jobs[o]
    ensures !HasLive(s'.jobs, r, s.jobs[id].kind)
  {
  }

  lemma RunOneMore(c: Config, s: State, a: Action, run: seq<Action>)
    requires Enabled(c, s, a) && Admissible(c, s, a) && IsRun(c, Apply(c, s, a), run)
    ensures IsRun(c, s, [a] + run) && After(c, s, [a] + run) == After(c, Apply(c, s, a), run)
  {
    assert ([a] + run)[1..] == run;
  }

  /** So while a recording uploads, its live jobs have no bound, even with no further upload. */
  lemma {:induction false} LiveJobsUnboundedWhileUploading(c: Config, s: State, r: nat, id: nat, n: nat)
    returns (run: seq<Action>)
    requires Core(c, s) && LiveJobDue(s, r, id)
    ensures InsertsLiveJobs(c, s, r, run, n)
    decreases n
  {
    if n == 0 {
      run := [];
      NoPass(c, s, r);
    } else {
      var pass, s' := OnePass(c, s, r, id);
      var rest := LiveJobsUnboundedWhileUploading(c, s', r, s.nextId, n - 1);
      run := pass + rest;
      LiveRunsCompose(c, s, s', r, pass, rest, n - 1);
    }
  }

  lemma NoPass(c: Config, s: State, r: nat)
    requires r in s.recs
    ensures InsertsLiveJobs(c, s, r, [], 0)
  {
  }

  lemma OnePass(c: Config, s: State, r: nat, id: nat) returns (pass: seq<Action>, s': State)
    requires Core(c, s) && LiveJobDue(s, r, id)
    ensures InsertsLiveJobs(c, s, r, pass, 1) && s' == After(c, s, pass)
    ensures Core(c, s') && LiveJobDue(s', r, s.nextId)
  {
    pass := EmptyPass(s, id);
    EmptyPassRepeats(c, s, r, id);
    s' := After(c, s, pass);
  }

  lemma LiveRunsCompose(c: Config, s: State, s': State, r: nat, a: seq<Action>, b: seq<Action>, n: nat)
    requires r in s.recs && InsertsLiveJobs(c, s, r, a, 1) && s' == After(c, s, a)
    requires r in s'.recs && InsertsLiveJobs(c, s', r, b, n)
    ensures InsertsLiveJobs(c, s, r, a + b, n + 1)
  {
    RunsCompose(c, s, a, b);
  }

  /** The run inserts `n` live jobs for `r` without an upload and within one instant. */
  ghost predicate InsertsLiveJobs(c: Config, s: State, r: nat, run: seq<Action>, n: nat)
    requires r in s.recs
  {
    && IsRun(c, s, run) && r in After(c, s, run).recs
    && After(c, s, run).recs[r].liveInserts == s.recs[r].liveInserts + n
    && forall a | a in run :: !a.PutSegment? && !a.Tick?
  }

  /** Such a state is reached with a single upload: a run from the empty database inserts any number of live jobs. */
  lemma RunawayIsReached(c: Config, n: nat) returns (start: seq<Action>, run: seq<Action>)
    ensures RunTo(c, INIT, start, AWAITING) && InsertsLiveJobs(c, AWAITING, 0, run, n)
  {
    start := ReachesAwaiting(c);
    AwaitingIsDue(c);
    run := LiveJobsUnboundedWhileUploading(c, AWAITING, 0, 0, n);
  }

  lemma AwaitingIsDue(c: Config)
    ensures Core(c, AWAITING) && LiveJobDue(AWAITING, 0, 0)
  {
    assert AWAITING.jobs[0] == FreshJob(0, TranscribeSegment, 0, 0);
  }
}
