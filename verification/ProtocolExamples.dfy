/** Concrete runs from the empty database, into the states the limits are about. */
module ProtocolExamples {
  import opened Types
  import opened JobTable
  import opened Protocol
  import opened ProtocolPaths

  const PROCESSING := Recording(RecordingStatus.Processing, false, {}, {}, false, 0)

  /** A recording just created. */
  const CREATED := State(0, map[], 0, map[0 := PROCESSING.(status := Uploading)], map[], 0)

  /** Its first segment uploaded, the live job queued. */
  const AWAITING :=
    State(0, map[0 := FreshJob(0, TranscribeSegment, 0, 0)], 1,
          map[0 := Recording(Uploading, false, {0}, {}, false, 1)], map[], 1)

  function DoneRow(k: JobKind): Job {
    CompleteRow(ClaimRow(FreshJob(0, k, 0, 0), 0, 0))
  }

  /** A completed recording with its transcode job queued. */
  const ENTERED := State(0, map[0 := FreshJob(0, Transcode, 0, 0)], 1, map[0 := PROCESSING], map[], 1)

  /** Its worker just past `complete`, owing both ears of the pipeline. */
  const TRANSCODED :=
    State(0, map[0 := DoneRow(Transcode)], 1, map[0 := PROCESSING],
          map[1 := Succeeding(0, Transcode, [Diarize, Transcribe], false)], 2)

  /** Both enqueued. */
  const FORKED :=
    State(0, map[0 := DoneRow(Transcode), 1 := FreshJob(0, Diarize, 0, 0), 2 := FreshJob(0, Transcribe, 0, 0)], 3,
          map[0 := PROCESSING], map[], 2)

  /** A transcribe stage running. */
  const TRANSCRIBING :=
    State(0, FORKED.jobs[2 := ClaimRow(FreshJob(0, Transcribe, 0, 0), 0, 0)], 3,
          map[0 := PROCESSING], map[2 := InStage(0, 2, 0, Transcribe)], 3)

  lemma ReachesCreated(c: Config)
    ensures RunTo(c, INIT, [CreateRecording(0)], CREATED)
  {
    assert Apply(c, INIT, CreateRecording(0)) == CREATED;
    Onward(c, INIT, [], INIT, CreateRecording(0), CREATED);
    assert [] + [CreateRecording(0)] == [CreateRecording(0)];
  }

  lemma ReachesEntered(c: Config) returns (run: seq<Action>)
    ensures RunTo(c, INIT, run, ENTERED)
  {
    ReachesCreated(c);
    run := [CreateRecording(0)];
    var s2 := Apply(c, CREATED, CompleteRecording(0));
    Onward(c, INIT, run, CREATED, CompleteRecording(0), s2);
    run := run + [CompleteRecording(0)];
    assert s2.tasks == map[0 := Completing(0)];
    var s3 := Apply(c, s2, Step(0));
    Onward(c, INIT, run, s2, Step(0), s3);
    run := run + [Step(0)];
    run := EntryEnqueued(c, run, s3);
  }

  lemma EntryEnqueued(c: Config, run0: seq<Action>, s: State) returns (run: seq<Action>)
    requires RunTo(c, INIT, run0, s)
    requires s == State(0, map[], 0, map[0 := PROCESSING], map[0 := OweEnqueue(0, Transcode)], 1)
    ensures RunTo(c, INIT, run, ENTERED)
  {
    assert Apply(c, s, Step(0)) == ENTERED;
    Onward(c, INIT, run0, s, Step(0), ENTERED);
    run := run0 + [Step(0)];
  }

  lemma ReachesTranscoded(c: Config) returns (run: seq<Action>)
    ensures RunTo(c, INIT, run, TRANSCODED)
  {
    run := ReachesEntered(c);
    var s1 := Apply(c, ENTERED, Claim(0, 0));
    Onward(c, INIT, run, ENTERED, Claim(0, 0), s1);
    run := run + [Claim(0, 0)];
    assert s1.tasks[1] == InStage(0, 0, 0, Transcode);
    var s2 := Apply(c, s1, StageOk(1));
    assert s2 == TRANSCODED;
    Onward(c, INIT, run, s1, StageOk(1), TRANSCODED);
    run := run + [StageOk(1)];
  }

  lemma ReachesForked(c: Config) returns (run: seq<Action>)
    ensures RunTo(c, INIT, run, FORKED)
  {
    run := ReachesTranscoded(c);
    assert HasDone(TRANSCODED.jobs, 0, Transcode) by { assert TRANSCODED.jobs[0].state.Done?; }
    var s1 := Apply(c, TRANSCODED, Step(1));
    Onward(c, INIT, run, TRANSCODED, Step(1), s1);
    run := run + [Step(1)];
    assert s1.tasks[1] == Succeeding(0, Transcode, [Diarize, Transcribe], true);
    var s2 := Apply(c, s1, Step(1));
    Onward(c, INIT, run, s1, Step(1), s2);
    run := run + [Step(1)];
    assert s2.jobs == TRANSCODED.jobs[1 := FreshJob(0, Diarize, 0, 0)] && s2.nextId == 2;
    assert s2.tasks == map[1 := Succeeding(0, Transcode, [Transcribe], false)];
    run := ForkSecond(c, run, s2);
  }

  lemma ForkSecond(c: Config, run0: seq<Action>, s: State) returns (run: seq<Action>)
    requires RunTo(c, INIT, run0, s)
    requires s == State(0, TRANSCODED.jobs[1 := FreshJob(0, Diarize, 0, 0)], 2, map[0 := PROCESSING],
                        map[1 := Succeeding(0, Transcode, [Transcribe], false)], 2)
    ensures RunTo(c, INIT, run, FORKED)
  {
    assert HasDone(s.jobs, 0, Transcode) by { assert s.jobs[0].state.Done?; }
    var s1 := Apply(c, s, Step(1));
    Onward(c, INIT, run0, s, Step(1), s1);
    run := run0 + [Step(1)];
    assert s1.tasks == map[1 := Succeeding(0, Transcode, [Transcribe], true)];
    var s2 := Apply(c, s1, Step(1));
    assert s2.jobs == FORKED.jobs && s2.tasks == map[];
    Onward(c, INIT, run, s1, Step(1), FORKED);
    run := run + [Step(1)];
  }

  lemma ReachesTranscribing(c: Config) returns (run: seq<Action>)
    ensures RunTo(c, INIT, run, TRANSCRIBING)
  {
    run := ReachesForked(c);
    assert Apply(c, FORKED, Claim(2, 0)) == TRANSCRIBING;
    Onward(c, INIT, run, FORKED, Claim(2, 0), TRANSCRIBING);
    run := run + [Claim(2, 0)];
  }

  lemma ReachesAwaiting(c: Config) returns (run: seq<Action>)
    ensures RunTo(c, INIT, run, AWAITING)
  {
    ReachesCreated(c);
    run := [CreateRecording(0)];
    var s1 := Apply(c, CREATED, PutSegment(0, 0));
    Onward(c, INIT, run, CREATED, PutSegment(0, 0), s1);
    run := run + [PutSegment(0, 0)];
    assert s1.tasks == map[0 := Inserting(0, 0, true)];
    var s2 := Apply(c, s1, Step(0));
    Onward(c, INIT, run, s1, Step(0), s2);
    run := run + [Step(0)];
    assert s2.tasks == map[0 := OweEnqueue(0, TranscribeSegment)];
    assert s2.recs[0].untranscribed == {0};
    run := LiveJobEnqueued(c, run, s2);
  }

  lemma LiveJobEnqueued(c: Config, run0: seq<Action>, s: State) returns (run: seq<Action>)
    requires RunTo(c, INIT, run0, s)
    requires s == State(0, map[], 0, map[0 := Recording(Uploading, false, {0}, {}, false, 0)],
                        map[0 := OweEnqueue(0, TranscribeSegment)], 1)
    ensures RunTo(c, INIT, run, AWAITING)
  {
    assert Apply(c, s, Step(0)) == AWAITING;
    Onward(c, INIT, run0, s, Step(0), AWAITING);
    run := run0 + [Step(0)];
  }
}
