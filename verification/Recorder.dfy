/** The phone's recorder: one stream of frames, cut into segment files that tile it. */
module Recorder {
  /** What is handed on when a file closes; `start` and `frames` say which audio it holds. */
  datatype Segment = Segment(number: nat, startMs: nat, durationMs: nat, start: nat, frames: nat)

  /** Frames in whole milliseconds: sixteen to one at 16 kHz. */
  function Millis(frames: nat): nat {
    frames / 16
  }

  /** The recorder's fields, and the segments it has handed on. */
  datatype Tape = Tape(open: bool, fileStart: nat, written: nat, number: nat, paused: bool, emitted: seq<Segment>)

  const FRESH := Tape(false, 0, 0, 0, false, [])

  /** The bit rates tried for a new file, in order. */
  function Rates(bitRate: int): seq<int> {
    [bitRate] + (if 32000 <= bitRate then [32000] else []) + (if 24000 <= bitRate then [24000] else [])
  }

  /** The asked-for rate stands first, and 32 before 24 kbit/s. */
  lemma RatesAre(bitRate: int)
    ensures forall rate :: rate in Rates(bitRate) <==> rate == bitRate || (rate in {32000, 24000} && rate <= bitRate)
    ensures Rates(bitRate)[0] == bitRate
    ensures 32000 <= bitRate ==> Rates(bitRate)[1] == 32000
  {
  }

  /** A second of sound is 16000 frames; a part of a millisecond is dropped. */
  lemma MillisAre(seconds: nat, frames: nat)
    ensures Millis(16000 * seconds) == 1000 * seconds
    ensures 16 * Millis(frames) <= frames < 16 * Millis(frames) + 16
  {
  }

  function Opened(t: Tape, ok: bool): Tape {
    t.(fileStart := t.written, open := ok)
  }

  function Closed(t: Tape): Tape
    requires t.fileStart <= t.written
  {
    if !t.open then t
    else if t.written == t.fileStart then t.(open := false)
    else t.(open := false, number := t.number + 1, emitted := t.emitted + [LastSegment(t)])
  }

  function LastSegment(t: Tape): Segment
    requires t.fileStart <= t.written
  {
    var frames := t.written - t.fileStart;
    Segment(t.number, Millis(t.fileStart), Millis(frames), t.fileStart, frames)
  }

  /** A buffer of `frames` arrives; `ok` says whether the file takes it. */
  function Wrote(t: Tape, frames: nat, ok: bool, opens: bool, segmentFrames: nat): Tape
    requires t.fileStart <= t.written
  {
    if t.paused || !t.open || !ok then t
    else
      var more := t.(written := t.written + frames);
      if more.written - more.fileStart >= segmentFrames then Opened(Closed(more), opens) else more
  }

  // ------------------------------------------------------------- invariant

  /** Each segment starts at the frame where the one before it ended. */
  predicate Abut(segments: seq<Segment>) {
    && (segments != [] ==> segments[0].start == 0)
    && forall i | 0 <= i < |segments| - 1 :: segments[i + 1].start == segments[i].start + segments[i].frames
  }

  predicate Numbered(segments: seq<Segment>) {
    forall i | 0 <= i < |segments| ::
      && segments[i].number == i && segments[i].frames > 0
      && segments[i].startMs == Millis(segments[i].start) && segments[i].durationMs == Millis(segments[i].frames)
  }

  function End(segments: seq<Segment>): nat {
    if segments == [] then 0 else segments[|segments| - 1].start + segments[|segments| - 1].frames
  }

  /** Segments are whole, except one closed by stopping. */
  predicate FullButLast(t: Tape, segmentFrames: nat) {
    forall i | 0 <= i < |t.emitted| - (if t.open then 0 else 1) :: t.emitted[i].frames >= segmentFrames
  }

  /** Tiled, but for a file that may have just reached the limit. */
  predicate TiledSoFar(t: Tape, segmentFrames: nat) {
    && Abut(t.emitted) && Numbered(t.emitted) && |t.emitted| == t.number
    && t.fileStart <= t.written && End(t.emitted) == (if t.open then t.fileStart else t.written)
    && FullButLast(t, segmentFrames)
  }

  /** The segments handed on tile what was written, up to the file still open. */
  predicate Tiled(t: Tape, segmentFrames: nat) {
    TiledSoFar(t, segmentFrames) && OpenIsShort(t, segmentFrames)
  }

  /** The file still open has not reached the limit. */
  predicate OpenIsShort(t: Tape, segmentFrames: nat) {
    t.open && segmentFrames > 0 ==> t.written - t.fileStart < segmentFrames
  }

  datatype Op = Write(frames: nat, ok: bool, opens: bool) | Pause | Resume

  function Did(t: Tape, op: Op, segmentFrames: nat): Tape
    requires t.fileStart <= t.written
  {
    match op
    case Write(frames, ok, opens) => Wrote(t, frames, ok, opens, segmentFrames)
    case Pause => t.(paused := true)
    case Resume => t.(paused := false)
  }

  lemma {:induction false} OneMoreTiles(t: Tape, last: Segment, segmentFrames: nat)
    requires TiledSoFar(t, segmentFrames) && t.open && t.written > t.fileStart && last == LastSegment(t)
    ensures Abut(t.emitted + [last]) && Numbered(t.emitted + [last]) && End(t.emitted + [last]) == t.written
  {
    var more := t.emitted + [last];
    forall i | 0 <= i < |more| - 1
      ensures more[i + 1].start == more[i].start + more[i].frames
    {
      if i + 1 < |t.emitted| { assert more[i + 1] == t.emitted[i + 1]; }
    }
  }

  lemma ClosedTiles(t: Tape, segmentFrames: nat)
    requires TiledSoFar(t, segmentFrames)
    ensures Tiled(Closed(t), segmentFrames) && End(Closed(t).emitted) == t.written && !Closed(t).open
    ensures t.open && t.written - t.fileStart >= segmentFrames && t.written > t.fileStart ==>
              forall i | 0 <= i < |Closed(t).emitted| :: Closed(t).emitted[i].frames >= segmentFrames
  {
    if t.open && t.written > t.fileStart { OneMoreTiles(t, LastSegment(t), segmentFrames); }
  }

  lemma WroteTiles(t: Tape, frames: nat, ok: bool, opens: bool, segmentFrames: nat)
    requires Tiled(t, segmentFrames)
    ensures Tiled(Wrote(t, frames, ok, opens, segmentFrames), segmentFrames)
  {
    var more := t.(written := t.written + frames);
    if !t.paused && t.open && ok && more.written - more.fileStart >= segmentFrames {
      ClosedTiles(more, segmentFrames);
    }
  }

  lemma DidTiles(t: Tape, op: Op, segmentFrames: nat)
    requires Tiled(t, segmentFrames)
    ensures Tiled(Did(t, op, segmentFrames), segmentFrames)
  {
    if op.Write? { WroteTiles(t, op.frames, op.ok, op.opens, segmentFrames); }
  }

  /** Some allowed bit rate opens a file. */
  ghost predicate SomeRateOpens(bitRate: int, accepts: int -> bool) {
    exists rate | rate in Rates(bitRate) :: accepts(rate)
  }

  class SegmentedRecorder {
    const segmentFrames: nat
    const bitRate: int
    var open: bool
    var fileStartFrame: nat
    var framesWritten: nat
    var number: nat
    var paused: bool
    var emitted: seq<Segment>

    function Now(): Tape
      reads this
    {
      Tape(open, fileStartFrame, framesWritten, number, paused, emitted)
    }

    predicate Valid()
      reads this
    {
      Tiled(Now(), segmentFrames)
    }

    constructor (segmentFrames: nat, bitRate: int)
      ensures Valid() && Now() == FRESH && this.segmentFrames == segmentFrames && this.bitRate == bitRate
    {
      this.segmentFrames, this.bitRate := segmentFrames, bitRate;
      open, fileStartFrame, framesWritten, number, paused, emitted := false, 0, 0, 0, false, [];
    }

    /** Opens the first file; a recording that cannot is refused. */
    method Start(accepts: int -> bool) returns (ok: bool)
      requires Valid() && Now() == FRESH
      modifies this
      ensures Valid() && Now() == Opened(FRESH, ok)
      ensures ok <==> SomeRateOpens(bitRate, accepts)
    {
      var rate;
      ok, rate := OpenNextFile(accepts);
    }

    method Write(frames: nat, ok: bool, accepts: int -> bool)
      requires Valid()
      modifies this
      ensures Valid()
      ensures Now() == Wrote(old(Now()), frames, ok, SomeRateOpens(bitRate, accepts), segmentFrames)
    {
      WroteTiles(Now(), frames, ok, SomeRateOpens(bitRate, accepts), segmentFrames);
      if paused || !open || !ok {
        return;
      }
      framesWritten := framesWritten + frames;
      if framesWritten - fileStartFrame >= segmentFrames {
        CloseFile();
        var _, _ := OpenNextFile(accepts);
      }
    }

    /** The asked-for rate first, then those of the lower ones not above it; with none accepted, nothing is open. */
    method OpenNextFile(accepts: int -> bool) returns (ok: bool, rate: int)
      requires fileStartFrame <= framesWritten
      modifies this
      ensures Now() == Opened(old(Now()), ok)
      ensures open == ok && fileStartFrame == framesWritten
      ensures ok <==> SomeRateOpens(bitRate, accepts)
      ensures ok <==> accepts(bitRate) || (32000 <= bitRate && accepts(32000)) || (24000 <= bitRate && accepts(24000))
      ensures ok ==>
                if accepts(bitRate) then rate == bitRate
                else if 32000 <= bitRate && accepts(32000) then rate == 32000
                else rate == 24000 <= bitRate && accepts(24000)
    {
      RatesAre(bitRate);
      fileStartFrame := framesWritten;
      var rates := Rates(bitRate);
      for i := 0 to |rates|
        invariant Now() == old(Now()).(fileStart := old(framesWritten))
        invariant forall k | 0 <= k < i :: !accepts(rates[k])
      {
        if accepts(rates[i]) {
          open := true;
          return true, rates[i];
        }
      }
      open := false;
      ok, rate := false, 0;
    }

    method CloseFile()
      requires fileStartFrame <= framesWritten
      modifies this
      ensures Now() == Closed(old(Now()))
    {
      if !open {
        return;
      }
      var frames := framesWritten - fileStartFrame;
      open := false;
      if frames > 0 {
        emitted := emitted + [Segment(number, Millis(fileStartFrame), Millis(frames), fileStartFrame, frames)];
        number := number + 1;
      }
    }

    method Pause()
      requires Valid()
      modifies this
      ensures Valid() && Now() == old(Now()).(paused := true)
    {
      paused := true;
    }

    method Resume()
      requires Valid()
      modifies this
      ensures Valid() && Now() == old(Now()).(paused := false)
    {
      paused := false;
    }

    method Stop() returns (totalMs: nat)
      requires Valid()
      modifies this
      ensures Valid() && Now() == Closed(old(Now()))
      ensures !open && End(emitted) == framesWritten == old(framesWritten) && totalMs == Millis(framesWritten)
    {
      ClosedTiles(Now(), segmentFrames);
      CloseFile();
      totalMs := Millis(framesWritten);
    }
  }

  // ------------------------------------------------------------------ claims

  function Recorded(ops: seq<Op>, segmentFrames: nat): (t: Tape)
    ensures t.fileStart <= t.written
  {
    if ops == [] then Opened(FRESH, true)
    else Did(Recorded(ops[..|ops| - 1], segmentFrames), ops[|ops| - 1], segmentFrames)
  }

  /** The last of the pauses and resumptions counts, whatever was written in between. */
  lemma {:induction false} PausedIff(ops: seq<Op>, segmentFrames: nat)
    ensures Recorded(ops, segmentFrames).paused
            <==> exists k :: 0 <= k < |ops| && ops[k] == Pause && forall m | k < m < |ops| :: ops[m] != Resume
  {
    if ops != [] {
      var init, last := ops[..|ops| - 1], ops[|ops| - 1];
      PausedIff(init, segmentFrames);
      assert forall k | 0 <= k < |init| :: init[k] == ops[k];
      if last.Pause? {
        assert ops[|ops| - 1] == Pause;
      } else if k :| 0 <= k < |init| && init[k] == Pause && forall m | k < m < |init| :: init[m] != Resume {
        assert ops[k] == Pause;
      }
    }
  }

  lemma {:induction false} AlwaysTiled(ops: seq<Op>, segmentFrames: nat)
    ensures Tiled(Recorded(ops, segmentFrames), segmentFrames)
  {
    if ops != [] {
      AlwaysTiled(ops[..|ops| - 1], segmentFrames);
      DidTiles(Recorded(ops[..|ops| - 1], segmentFrames), ops[|ops| - 1], segmentFrames);
    }
  }

  lemma {:induction false} KeptIsWritten(ops: seq<Op>, segmentFrames: nat)
    ensures Recorded(ops, segmentFrames).written == Kept(ops, segmentFrames)
  {
    if ops != [] { KeptIsWritten(ops[..|ops| - 1], segmentFrames); }
  }

  /** Over any recording, started and stopped, the segments tile exactly the audio that was kept. */
  lemma RecordingTiles(ops: seq<Op>, segmentFrames: nat) returns (t: Tape)
    ensures t == Closed(Recorded(ops, segmentFrames))
    ensures Tiled(t, segmentFrames) && Frames(t.emitted) == t.written == Kept(ops, segmentFrames)
  {
    t := Recorded(ops, segmentFrames);
    AlwaysTiled(ops, segmentFrames);
    KeptIsWritten(ops, segmentFrames);
    ClosedTiles(t, segmentFrames);
    t := Closed(t);
    FramesAreEnd(t.emitted);
  }

  function Frames(segments: seq<Segment>): nat {
    if segments == [] then 0 else Frames(segments[..|segments| - 1]) + segments[|segments| - 1].frames
  }

  lemma {:induction false} FramesAreEnd(segments: seq<Segment>)
    requires Abut(segments)
    ensures Frames(segments) == End(segments)
  {
    if segments != [] { FramesAreEnd(segments[..|segments| - 1]); }
  }

  /** The frames of the buffers that were kept: not paused, taken, and with a file open. */
  function Kept(ops: seq<Op>, segmentFrames: nat): nat {
    if ops == [] then 0
    else
      var before, op := ops[..|ops| - 1], ops[|ops| - 1];
      var t := Recorded(before, segmentFrames);
      Kept(before, segmentFrames) + if op.Write? && op.ok && !t.paused && t.open then op.frames else 0
  }

  /** Rounding leaves no more than a millisecond between a segment's end and the next one's start. */
  lemma GapsAreTiny(t: Tape, segmentFrames: nat, i: nat)
    requires Tiled(t, segmentFrames) && i + 1 < |t.emitted|
    ensures 0 <= t.emitted[i + 1].startMs - (t.emitted[i].startMs + t.emitted[i].durationMs) <= 1
  {
  }

  function Durations(segments: seq<Segment>): nat {
    if segments == [] then 0 else Durations(segments[..|segments| - 1]) + segments[|segments| - 1].durationMs
  }

  /** So the durations add up to the total, short by less than a millisecond each. */
  lemma {:induction false} DurationsAddUp(segments: seq<Segment>)
    requires Abut(segments) && Numbered(segments)
    ensures 0 <= 16 * Durations(segments) <= End(segments) <= 16 * Durations(segments) + 15 * |segments|
  {
    if segments != [] {
      var init, last := segments[..|segments| - 1], segments[|segments| - 1];
      DurationsAddUp(init);
      if init != [] { assert segments[|init| - 1 + 1].start == End(init); }
    }
  }

  /** Once no file would open, nothing more is kept, whatever arrives. */
  lemma {:induction false} ClosedStaysClosed(ops: seq<Op>, more: seq<Op>, segmentFrames: nat)
    requires !Recorded(ops, segmentFrames).open
    ensures var t, later := Recorded(ops, segmentFrames), Recorded(ops + more, segmentFrames);
            later.written == t.written && later.emitted == t.emitted && !later.open
    decreases |more|
  {
    if more == [] {
      assert ops + more == ops;
    } else {
      var init := more[..|more| - 1];
      ClosedStaysClosed(ops, init, segmentFrames);
      assert (ops + more)[..|ops + more| - 1] == ops + init;
    }
  }

  /** A kept buffer that brings the open file to the limit. */
  predicate Rotates(t: Tape, op: Op, segmentFrames: nat) {
    && op.Write? && op.ok && t.open && !t.paused
    && t.written + op.frames - t.fileStart >= segmentFrames
  }

  /** Rotation `k` of the recording, if there is one, found a file it could open. */
  predicate RotationOpens(ops: seq<Op>, k: nat, segmentFrames: nat)
    requires k < |ops|
  {
    Rotates(Recorded(ops[..k], segmentFrames), ops[k], segmentFrames) ==> ops[k].opens
  }

  /** A file is open exactly when every rotation so far could open one. */
  lemma {:induction false} OpenIff(ops: seq<Op>, segmentFrames: nat)
    ensures Recorded(ops, segmentFrames).open <==>
            forall k | 0 <= k < |ops| :: RotationOpens(ops, k, segmentFrames)
  {
    if ops != [] {
      var init := ops[..|ops| - 1];
      OpenIff(init, segmentFrames);
      forall k | 0 <= k < |init|
        ensures RotationOpens(init, k, segmentFrames) <==> RotationOpens(ops, k, segmentFrames)
      {
        assert init[..k] == ops[..k];
      }
      LastOpenIff(Recorded(init, segmentFrames), ops[|ops| - 1], segmentFrames);
      assert RotationOpens(ops, |ops| - 1, segmentFrames) <==>
             (Rotates(Recorded(init, segmentFrames), ops[|ops| - 1], segmentFrames) ==> ops[|ops| - 1].opens);
    }
  }

  lemma LastOpenIff(t: Tape, op: Op, segmentFrames: nat)
    requires t.fileStart <= t.written
    ensures Did(t, op, segmentFrames).open <==> t.open && (Rotates(t, op, segmentFrames) ==> op.opens)
  {
  }

  /** Nothing is ever kept again, whatever arrives, exactly when no file is open. */
  lemma NothingMoreIsKeptIff(ops: seq<Op>, segmentFrames: nat)
    ensures (forall more :: Recorded(ops + more, segmentFrames).written == Recorded(ops, segmentFrames).written) <==>
            !Recorded(ops, segmentFrames).open
  {
    if Recorded(ops, segmentFrames).open {
      var more := ResumedIsKept(ops, segmentFrames);
    } else {
      forall more
        ensures Recorded(ops + more, segmentFrames).written == Recorded(ops, segmentFrames).written
      {
        ClosedStaysClosed(ops, more, segmentFrames);
      }
    }
  }

  /** With a file open, one frame more is kept once resumed. */
  lemma ResumedIsKept(ops: seq<Op>, segmentFrames: nat) returns (more: seq<Op>)
    requires Recorded(ops, segmentFrames).open
    ensures Recorded(ops + more, segmentFrames).written == Recorded(ops, segmentFrames).written + 1
  {
    more := [Resume] + [Write(1, true, true)];
    var resumed := ops + [Resume];
    assert resumed[..|resumed| - 1] == ops;
    var all := resumed + [Write(1, true, true)];
    assert all == ops + more && all[..|all| - 1] == resumed;
  }

  /** One buffer that fills a segment, and no file for the next, suffices. */
  lemma RotationMayLoseTheRest(segmentFrames: nat)
    ensures var ops := [Write(segmentFrames, true, false)];
            !Recorded(ops, segmentFrames).open && Kept(ops, segmentFrames) == segmentFrames
  {
    var ops := [Write(segmentFrames, true, false)];
    assert ops[..0] == [];
    assert Recorded([], segmentFrames) == Opened(FRESH, true);
  }

  predicate NoneLonger(segments: seq<Segment>, bound: nat) {
    forall i | 0 <= i < |segments| :: segments[i].frames < bound
  }

  /** Rotation is prompt: with buffers of at most `buffer` frames, no segment outgrows the limit by a whole buffer. */
  lemma {:induction false} RotationIsPrompt(ops: seq<Op>, segmentFrames: nat, buffer: nat)
    requires segmentFrames > 0 && forall i | 0 <= i < |ops| && ops[i].Write? :: ops[i].frames <= buffer
    ensures NoneLonger(Recorded(ops, segmentFrames).emitted, segmentFrames + buffer)
    ensures NoneLonger(Closed(Recorded(ops, segmentFrames)).emitted, segmentFrames + buffer)
  {
    AlwaysTiled(ops, segmentFrames);
    if ops != [] {
      var init, op := ops[..|ops| - 1], ops[|ops| - 1];
      RotationIsPrompt(init, segmentFrames, buffer);
      AlwaysTiled(init, segmentFrames);
      OneOpIsPrompt(Recorded(init, segmentFrames), op, segmentFrames, buffer);
    }
  }

  lemma OneOpIsPrompt(t: Tape, op: Op, segmentFrames: nat, buffer: nat)
    requires Tiled(t, segmentFrames) && segmentFrames > 0 && NoneLonger(t.emitted, segmentFrames + buffer)
    requires op.Write? ==> op.frames <= buffer
    ensures NoneLonger(Did(t, op, segmentFrames).emitted, segmentFrames + buffer)
  {
  }
}
