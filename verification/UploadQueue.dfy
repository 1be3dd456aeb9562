/** The phone's uploader: what is recorded is kept until the server has it. */
module UploadQueue {
  import opened Arithmetic
  import opened Types

  // ------------------------------------------------------------- the store

  datatype Segment = Segment(number: nat, uploaded: bool)

  /** How a request ended: answered with success, refused with a status, or not answered. */
  datatype Answer = Reply(id: nat) | Status(code: nat) | Offline | Cancelled

  predicate IsUnauthorized(a: Answer) {
    a == Status(401) || a == Status(403)
  }

  /** A recording as the phone's list holds it. */
  datatype Local = Local(createdAt: int, serverId: Option<nat>, segments: seq<Segment>, marks: seq<int>,
                         durationMs: int, finished: bool, completed: bool, lastError: Option<Answer>)

  /** Work queued onto the main thread for a recording. */
  datatype Message = Append(number: nat) | Finish(durationMs: int)

  /**
   One recording: its entry in the list until it is removed, the main thread's queue
   for it, the audio files on disk; and, for the claims, how many segments its recorder
   ever handed on, whether it stopped, which segments the server acknowledged, which
   files the phone lost by itself, and whether completion was answered.
   */
  datatype Lane = Lane(item: Option<Local>, queue: seq<Message>, files: set<nat>,
                       emitted: nat, stopped: bool, acked: set<nat>, lost: set<nat>, answered: bool)

  type Phone = seq<Lane>

  function Pending(segments: seq<Segment>): nat {
    if segments == [] then 0 else (if segments[0].uploaded then 0 else 1) + Pending(segments[1..])
  }

  /** This recording is still to be created, sent or completed on the server. */
  predicate HasWork(l: Lane) {
    && l.item.Some?
    && var r := l.item.value;
       Pending(r.segments) > 0 || (r.finished && !r.completed) || r.serverId.None?
  }

  // --------------------------------------------------- what else goes on

  datatype Tail = NoTail | SavedAtOnce | SavedLater

  /** What the recorder, the main thread and the disk do meanwhile. */
  datatype Event =
    | Close
    | Stop(tail: Tail, durationMs: int)
    | Mark(at: int)
    | RunMain
    | LoseFile(number: nat)

  function Appended(l: Lane, number: nat): Lane {
    if l.item.None? then l
    else l.(item := Some(l.item.value.(segments := l.item.value.segments + [Segment(number, false)])))
  }

  /** A segment file closes; its entry is saved by the main thread, now or later. */
  function Emitted(l: Lane, atOnce: bool): Lane {
    var l' := l.(files := l.files + {l.emitted}, emitted := l.emitted + 1);
    if atOnce then Appended(l', l.emitted) else l'.(queue := l.queue + [Append(l.emitted)])
  }

  function Happens(l: Lane, e: Event): Lane {
    match e
    case Close => if l.stopped then l else Emitted(l, false)
    case Stop(tail, ms) =>
      if l.stopped then l
      else
        var l' := if tail.NoTail? then l else Emitted(l, tail.SavedAtOnce?);
        l'.(stopped := true, queue := l'.queue + [Finish(ms)])
    case Mark(at) =>
      if l.stopped || l.item.None? then l
      else l.(item := Some(l.item.value.(marks := l.item.value.marks + [at])))
    case RunMain =>
      if l.queue == [] then l
      else
        var rest := l.(queue := l.queue[1..]);
        match l.queue[0] {
          case Append(number) => Appended(rest, number)
          case Finish(ms) =>
            if l.item.None? then rest else rest.(item := Some(l.item.value.(finished := true, durationMs := ms)))
        }
    case LoseFile(number) =>
      if number in l.files then l.(files := l.files - {number}, lost := l.lost + {number}) else l
  }

  function NewLane(createdAt: int): Lane {
    Lane(Some(Local(createdAt, None, [], [], 0, false, false, None)), [], {}, 0, false, {}, {}, false)
  }

  /** Something happens to a recording, or a new one is started. */
  datatype Meanwhile = To(id: nat, event: Event) | Start(createdAt: int)

  function Passed(p: Phone, m: Meanwhile): Phone {
    match m
    case To(id, e) => if id < |p| then p[id := Happens(p[id], e)] else p
    case Start(createdAt) => p + [NewLane(createdAt)]
  }

  function PassedAll(p: Phone, ms: seq<Meanwhile>): Phone
    decreases |ms|
  {
    if ms == [] then p
    else PassedAll(Passed(p, ms[0]), ms[1..])
  }

  // ------------------------------------------------------------- invariant

  predicate Stored(segments: seq<Segment>, number: nat) {
    exists i :: 0 <= i < |segments| && segments[i].number == number
  }

  predicate Distinct(segments: seq<Segment>) {
    forall i, j | 0 <= i < j < |segments| :: segments[i].number != segments[j].number
  }

  /** Appends come before the end of the recording, each once. */
  predicate QueueOk(queue: seq<Message>, emitted: nat, stopped: bool) {
    && (forall i | 0 <= i < |queue| && queue[i].Append? :: queue[i].number < emitted)
    && (forall i, j | 0 <= i < j < |queue| && queue[j].Append? ::
          queue[i].Append? && queue[i].number != queue[j].number)
    && (!stopped ==> forall i | 0 <= i < |queue| :: queue[i].Append?)
  }

  predicate NoAppends(queue: seq<Message>) {
    forall i | 0 <= i < |queue| :: !queue[i].Append?
  }

  predicate Waiting(queue: seq<Message>, number: nat) {
    exists i :: 0 <= i < |queue| && queue[i] == Append(number)
  }

  /** The list and the queue hold every segment handed on, once. */
  predicate AllHeld(segments: seq<Segment>, queue: seq<Message>, emitted: nat) {
    && Distinct(segments)
    && (forall i | 0 <= i < |segments| :: segments[i].number < emitted && !Waiting(queue, segments[i].number))
    && forall n: nat | n < emitted :: Stored(segments, n) || Waiting(queue, n)
  }

  predicate UploadedAreSafe(segments: seq<Segment>, acked: set<nat>, lost: set<nat>) {
    forall i | 0 <= i < |segments| && segments[i].uploaded :: segments[i].number in acked || segments[i].number in lost
  }

  /**
   Every segment ever handed on is with the server, or its file was lost, and the server knows the
   recording is over.
   */
  predicate SafelyUp(l: Lane) {
    l.emitted == 0 || (l.answered && forall n: nat | n < l.emitted :: n in l.acked || n in l.lost)
  }

  /** Only listed segments were sent. */
  predicate SentAreListed(segments: seq<Segment>, acked: set<nat>) {
    forall n | n in acked :: Stored(segments, n)
  }

  /** No audio is gone that the server lacks, unless the phone lost it by itself. */
  predicate AudioKept(l: Lane) {
    forall n: nat | n < l.emitted :: n in l.files || n in l.acked || n in l.lost
  }

  predicate LaneOk(l: Lane) {
    && QueueOk(l.queue, l.emitted, l.stopped) && AudioKept(l)
    && match l.item
       case None => l.stopped && NoAppends(l.queue) && SafelyUp(l)
       case Some(r) =>
         && AllHeld(r.segments, l.queue, l.emitted)
         && UploadedAreSafe(r.segments, l.acked, l.lost) && SentAreListed(r.segments, l.acked)
         && (r.finished ==> l.stopped && NoAppends(l.queue)) && !r.completed
  }

  predicate Valid(p: Phone) {
    forall id | 0 <= id < |p| :: LaneOk(p[id])
  }

  lemma AppendedHeld(segments: seq<Segment>, number: nat, queue: seq<Message>, emitted: nat, stopped: bool)
    requires AllHeld(segments, queue, emitted) && QueueOk(queue, emitted, stopped)
    requires queue != [] && queue[0] == Append(number)
    ensures AllHeld(segments + [Segment(number, false)], queue[1..], emitted) && QueueOk(queue[1..], emitted, stopped)
  {
    var more, rest := segments + [Segment(number, false)], queue[1..];
    assert Waiting(queue, number);
    forall n: nat | n < emitted
      ensures Stored(more, n) || Waiting(rest, n)
    {
      if Stored(segments, n) {
        var i :| 0 <= i < |segments| && segments[i].number == n;
        assert more[i].number == n;
      } else {
        var i :| 0 <= i < |queue| && queue[i] == Append(n);
        if i == 0 { assert more[|segments|].number == n; } else { assert rest[i - 1] == Append(n); }
      }
    }
    forall i | 0 <= i < |more|
      ensures more[i].number < emitted && !Waiting(rest, more[i].number)
    {
      if j :| 0 <= j < |rest| && rest[j] == Append(more[i].number) {
        assert queue[j + 1] == Append(more[i].number);
        assert Waiting(queue, more[i].number);
      }
    }
  }

  lemma AppendRunOk(l: Lane)
    requires LaneOk(l) && l.queue != [] && l.queue[0].Append?
    ensures LaneOk(Happens(l, RunMain))
  {
    assert l.item.Some?;
    AppendedHeld(l.item.value.segments, l.queue[0].number, l.queue, l.emitted, l.stopped);
  }

  lemma EmittedLaterOk(l: Lane)
    requires LaneOk(l) && !l.stopped
    ensures LaneOk(Emitted(l, false))
  {
    var l' := Emitted(l, false);
    var segments := l.item.value.segments;
    forall n: nat | n < l'.emitted
      ensures Stored(segments, n) || Waiting(l'.queue, n)
    {
      if n == l.emitted {
        assert l'.queue[|l.queue|] == Append(n);
      } else if Waiting(l.queue, n) {
        var i :| 0 <= i < |l.queue| && l.queue[i] == Append(n);
        assert l'.queue[i] == Append(n);
      }
    }
    forall i | 0 <= i < |segments|
      ensures !Waiting(l'.queue, segments[i].number)
    {
      assert segments[i].number < l.emitted && !Waiting(l.queue, segments[i].number);
      assert forall j | 0 <= j < |l.queue| :: l'.queue[j] == l.queue[j] != Append(segments[i].number);
    }
  }

  lemma EmittedAtOnceOk(l: Lane)
    requires LaneOk(l) && !l.stopped
    ensures LaneOk(Emitted(l, true))
  {
    var segments := l.item.value.segments;
    var more := segments + [Segment(l.emitted, false)];
    forall n: nat | n < l.emitted + 1
      ensures Stored(more, n) || Waiting(l.queue, n)
    {
      if n == l.emitted {
        assert more[|segments|].number == n;
      } else if Stored(segments, n) {
        var i :| 0 <= i < |segments| && segments[i].number == n;
        assert more[i].number == n;
      }
    }
  }

  lemma FinishQueuedOk(l: Lane, ms: int)
    requires LaneOk(l) && !l.stopped
    ensures LaneOk(l.(stopped := true, queue := l.queue + [Finish(ms)]))
  {
    var queue := l.queue + [Finish(ms)];
    var segments := l.item.value.segments;
    forall n: nat
      ensures Waiting(queue, n) <==> Waiting(l.queue, n)
    {
      if i :| 0 <= i < |l.queue| && l.queue[i] == Append(n) { assert queue[i] == Append(n); }
    }
  }

  lemma FinishRunOk(l: Lane)
    requires LaneOk(l) && l.queue != [] && l.queue[0].Finish?
    ensures LaneOk(Happens(l, RunMain))
  {
    var rest := l.queue[1..];
    assert NoAppends(rest) by {
      forall i | 0 <= i < |rest| ensures !rest[i].Append? { assert rest[i] == l.queue[i + 1]; }
    }
    forall n: nat
      ensures !Waiting(rest, n) && !Waiting(l.queue, n)
    {
    }
  }

  /** Nothing that goes on meanwhile can break the books. */
  lemma HappensOk(l: Lane, e: Event)
    requires LaneOk(l)
    ensures LaneOk(Happens(l, e))
  {
    match e
    case Close => if !l.stopped { EmittedLaterOk(l); }
    case Stop(tail, ms) =>
      if !l.stopped {
        if tail.SavedAtOnce? { EmittedAtOnceOk(l); } else if tail.SavedLater? { EmittedLaterOk(l); }
        FinishQueuedOk(if tail.NoTail? then l else Emitted(l, tail.SavedAtOnce?), ms);
      }
    case Mark(at) =>
    case RunMain =>
      if l.queue != [] {
        if l.queue[0].Finish? {
          FinishRunOk(l);
        } else {
          AppendRunOk(l);
        }
      }
    case LoseFile(number) =>
  }

  /** A recording from its start on, with what its recorder, the main thread and the disk did. */
  function Recorded(createdAt: int, events: seq<Event>): Lane {
    if events == [] then NewLane(createdAt)
    else Happens(Recorded(createdAt, events[..|events| - 1]), events[|events| - 1])
  }

  /** The length its recorder gave on stopping. */
  function LengthOf(events: seq<Event>): Option<int> {
    if events == [] then None
    else
      var before, last := LengthOf(events[..|events| - 1]), events[|events| - 1];
      if before.None? && last.Stop? then Some(last.durationMs) else before
  }

  /** The moments marked until then. */
  function MarksOf(events: seq<Event>): seq<int> {
    if events == [] then []
    else
      var init, last := events[..|events| - 1], events[|events| - 1];
      MarksOf(init) + if last.Mark? && LengthOf(init).None? then [last.at] else []
  }

  /**
   The list has these marks, and this length once the recording is finished, which it is when the main thread has
   caught up with the recorder's stop.
   */
  ghost predicate Arrived(l: Lane, createdAt: int, length: Option<int>, marks: seq<int>) {
    && l.item.Some? && l.item.value.createdAt == createdAt && l.item.value.marks == marks
    && (l.stopped <==> length.Some?)
    && (forall i | 0 <= i < |l.queue| && l.queue[i].Finish? :: length == Some(l.queue[i].durationMs))
    && (l.item.value.finished ==> length == Some(l.item.value.durationMs))
    && (l.stopped && !l.item.value.finished ==> l.queue != [] && l.queue[|l.queue| - 1].Finish?)
  }

  lemma OneArrives(l: Lane, e: Event, createdAt: int, length: Option<int>, marks: seq<int>)
    requires LaneOk(l) && Arrived(l, createdAt, length, marks)
    ensures Arrived(Happens(l, e), createdAt, if length.None? && e.Stop? then Some(e.durationMs) else length,
                    marks + if e.Mark? && length.None? then [e.at] else [])
  {
  }

  /** Whatever the order of events, the marks made and the length arrive in the list. */
  lemma {:induction false} MarksAndLengthArrive(createdAt: int, events: seq<Event>)
    ensures var l := Recorded(createdAt, events);
            LaneOk(l) && Arrived(l, createdAt, LengthOf(events), MarksOf(events))
  {
    if events != [] {
      var init, last := events[..|events| - 1], events[|events| - 1];
      MarksAndLengthArrive(createdAt, init);
      HappensOk(Recorded(createdAt, init), last);
      OneArrives(Recorded(createdAt, init), last, createdAt, LengthOf(init), MarksOf(init));
    }
  }

  // ------------------------------------------------------------- uploading

  /** What the rest of the app leaves alone while the uploader waits. */
  predicate Undisturbed(a: Lane, b: Lane) {
    && a.acked == b.acked && a.answered == b.answered && a.emitted <= b.emitted && a.lost <= b.lost
    && (a.item.None? <==> b.item.None?)
    && (a.item.Some? ==>
          var r, r' := a.item.value, b.item.value;
          && r'.serverId == r.serverId && r'.completed == r.completed && r.segments <= r'.segments
              && r.marks <= r'.marks
          && (r.finished ==> r'.finished && r'.segments == r.segments))
  }

  predicate Elapsed(p: Phone, q: Phone) {
    |p| <= |q| && forall id | 0 <= id < |p| :: Undisturbed(p[id], q[id])
  }

  lemma HappensUndisturbed(l: Lane, e: Event)
    requires LaneOk(l)
    ensures Undisturbed(l, Happens(l, e))
  {
  }

  lemma {:induction false} PassedAllOk(p: Phone, ms: seq<Meanwhile>)
    requires Valid(p)
    ensures Valid(PassedAll(p, ms)) && Elapsed(p, PassedAll(p, ms))
    decreases |ms|
  {
    if ms != [] {
      if ms[0].To? && ms[0].id < |p| {
        HappensOk(p[ms[0].id], ms[0].event);
        HappensUndisturbed(p[ms[0].id], ms[0].event);
      }
      PassedAllOk(Passed(p, ms[0]), ms[1..]);
    }
  }

  function Created(l: Lane, serverId: nat): Lane {
    if l.item.None? then l else l.(item := Some(l.item.value.(serverId := Some(serverId))))
  }

  lemma CreatedOk(l: Lane, serverId: nat)
    requires LaneOk(l) && l.item.Some? && l.item.value.serverId.None?
    ensures LaneOk(Created(l, serverId)) && Onward(l, Created(l, serverId))
  {
  }

  /** Flags the first entry with this number. */
  function Flagged(segments: seq<Segment>, number: nat): seq<Segment> {
    if segments == [] then []
    else if segments[0].number == number then [segments[0].(uploaded := true)] + segments[1..]
    else [segments[0]] + Flagged(segments[1..], number)
  }

  lemma {:induction false} FlaggedIs(segments: seq<Segment>, number: nat)
    requires Distinct(segments)
    ensures |Flagged(segments, number)| == |segments|
    ensures forall i | 0 <= i < |segments| ::
              Flagged(segments, number)[i]
              == if segments[i].number == number then segments[i].(uploaded := true) else segments[i]
  {
    if segments != [] && segments[0].number != number {
      FlaggedIs(segments[1..], number);
    }
  }

  /** The segment is up, or its file is gone: flagged, and its file removed. */
  function Uploaded(l: Lane, number: nat, acked: bool): Lane {
    if l.item.None? then l
    else
      var r := l.item.value;
      l.(item := Some(r.(segments := Flagged(r.segments, number), lastError := None)),
         files := l.files - {number},
         acked := if acked then l.acked + {number} else l.acked)
  }

  lemma FlaggedHeld(segments: seq<Segment>, number: nat, queue: seq<Message>, emitted: nat)
    requires AllHeld(segments, queue, emitted)
    ensures AllHeld(Flagged(segments, number), queue, emitted)
  {
    FlaggedIs(segments, number);
    var flagged := Flagged(segments, number);
    forall n: nat | n < emitted && Stored(segments, n)
      ensures Stored(flagged, n)
    {
      var i :| 0 <= i < |segments| && segments[i].number == n;
      assert flagged[i].number == n;
    }
  }

  lemma UploadedOk(l: Lane, number: nat, acked: bool)
    requires LaneOk(l) && l.item.Some? && Stored(l.item.value.segments, number) && (acked || number !in l.files)
    ensures LaneOk(Uploaded(l, number, acked))
  {
    var segments := l.item.value.segments;
    FlaggedHeld(segments, number, l.queue, l.emitted);
    FlaggedIs(segments, number);
    assert number in l.acked || number in l.lost || acked;
  }

  function Removed(l: Lane, answered: bool): Lane {
    l.(item := None, files := {}, answered := l.answered || answered)
  }

  lemma {:induction false} NonePending(segments: seq<Segment>)
    ensures Pending(segments) == 0 <==> forall i | 0 <= i < |segments| :: segments[i].uploaded
  {
    if segments != [] {
      NonePending(segments[1..]);
      assert forall i | 0 < i < |segments| :: segments[i] == segments[1..][i - 1];
    }
  }

  lemma RemovedOk(l: Lane, answered: bool)
    requires LaneOk(l) && l.item.Some? && l.item.value.finished && Pending(l.item.value.segments) == 0
    requires answered || l.item.value.segments == []
    ensures LaneOk(Removed(l, answered))
  {
    var segments := l.item.value.segments;
    NonePending(segments);
    forall n: nat | n < l.emitted
      ensures n in l.acked || n in l.lost
      ensures segments != []
    {
      assert !Waiting(l.queue, n);
      assert Stored(segments, n);
    }
    if l.emitted > 0 {
      assert !Waiting(l.queue, 0) && Stored(segments, 0);
    }
  }

  /** What is left to do for a recording: create it, send what is pending, complete it. */
  function Left(l: Lane): nat {
    if l.item.None? then 0
    else (if l.item.value.serverId.None? then 1 else 0) + Pending(l.item.value.segments) + 1
  }

  /** How the uploader moves a recording on: never back. */
  predicate Onward(a: Lane, b: Lane) {
    && a.acked <= b.acked && a.lost <= b.lost && a.emitted <= b.emitted
    && (a.item.None? ==> b.item.None?)
    && (a.item.Some? && b.item.Some? ==>
          var r, r' := a.item.value, b.item.value;
          && (r.serverId.Some? ==> r'.serverId == r.serverId) && r'.completed == r.completed
          && r.marks <= r'.marks && SegmentsOnward(r.segments, r'.segments)
          && (r.finished ==> r'.finished && |r'.segments| == |r.segments|))
  }

  predicate SegmentsOnward(a: seq<Segment>, b: seq<Segment>) {
    && |a| <= |b|
    && forall i | 0 <= i < |a| :: b[i].number == a[i].number && (a[i].uploaded ==> b[i].uploaded)
  }

  lemma OnwardAll(a: Lane, b: Lane, c: Lane)
    requires Onward(a, b) && Onward(b, c) && (a.item.Some? && b.item.None? ==> c.item.None?)
    ensures Onward(a, c)
  {
  }

  lemma UndisturbedIsOnward(a: Lane, b: Lane)
    requires Undisturbed(a, b)
    ensures Onward(a, b)
  {
  }

  /** Pending work grows only by new segments, and shrinks where one was flagged. */
  lemma {:induction false} PendingOnward(a: seq<Segment>, b: seq<Segment>)
    requires SegmentsOnward(a, b)
    ensures Pending(b) <= Pending(a) + |b| - |a|
    ensures (exists i :: 0 <= i < |a| && b[i].uploaded && !a[i].uploaded) ==> Pending(b) < Pending(a) + |b| - |a|
  {
    if a == [] {
      AtMostAll(b);
    } else {
      assert forall i | 0 <= i < |a[1..]| :: a[1..][i] == a[i + 1] && b[1..][i] == b[i + 1];
      PendingOnward(a[1..], b[1..]);
      if i :| 0 < i < |a| && b[i].uploaded && !a[i].uploaded {
        assert b[1..][i - 1].uploaded && !a[1..][i - 1].uploaded;
      }
    }
  }

  lemma {:induction false} AtMostAll(b: seq<Segment>)
    ensures Pending(b) <= |b|
  {
    if b != [] { AtMostAll(b[1..]); }
  }

  datatype Turn = Turn(meanwhile: seq<Meanwhile>, kicked: bool, answer: Answer)

  datatype Outcome = Returned | Threw(why: Answer)

  datatype End = Drained | NotConfigured | Unauthorized | WasCancelled

  /** Seconds to wait after so many failures in a row. */
  function BackoffAfter(failures: nat): nat {
    if failures == 0 then 2 else if 2 * BackoffAfter(failures - 1) < 300 then 2 * BackoffAfter(failures - 1) else 300
  }

  /** Everything but one recording is as the rest of the app left it. */
  predicate OthersElapsed(p: Phone, q: Phone, id: nat) {
    |p| <= |q| && forall o | 0 <= o < |p| && o != id :: Undisturbed(p[o], q[o])
  }

  predicate AllOnward(p: Phone, q: Phone) {
    |p| <= |q| && forall id | 0 <= id < |p| :: Onward(p[id], q[id])
  }

  /** Left to do when nothing new is handed on. */
  predicate Shrunk(a: Lane, b: Lane) {
    b.item.None? || (a.item.Some? && Left(b) < Left(a) + |b.item.value.segments| - |a.item.value.segments|)
  }

  /** Which refusals a step takes for done, as the last answer it gets. */
  datatype Leniency = Strict | CompleteAlready | Whatever

  predicate Taken(l: Leniency, a: Answer) {
    match l
    case Strict => a.Reply?
    case CompleteAlready => a.Reply? || a == Status(409)
    case Whatever => true
  }

  /** A recording without audio goes whatever the server says, any other once complete, if only from before. */
  function Excuses(was: Lane, now: Lane): Leniency {
    if was.item.Some? && was.item.value.finished && was.item.value.segments == [] then Whatever
    else if now.item.None? then CompleteAlready
    else Strict
  }

  ghost predicate Kicked(waits: seq<Turn>) {
    exists k :: 0 <= k < |waits| && waits[k].kicked
  }

  /**
   How a step ended, by the answers it got: every one but the last was a success. It threw the last one if that was
   none, or the cancellation if no answer was left; and a kick during a wait starts the count of failures over.
   */
  ghost predicate Asked(turns: seq<Turn>, ahead: seq<Turn>, r: Outcome, failures: nat, after: nat, l: Leniency) {
    && Suffix(ahead, turns)
    && var n := |turns| - |ahead|;
       && after == (if Kicked(turns[..n]) then 0 else failures)
       && (forall k | 0 <= k < n - 1 :: turns[k].answer.Reply?)
       && match r
          case Returned => n > 0 ==> Taken(l, turns[n - 1].answer)
          case Threw(why) =>
            && !why.Reply?
            && if n > 0 && !turns[n - 1].answer.Reply? then why == turns[n - 1].answer
               else why == Cancelled && ahead == []
  }

  /** The last answer was to a completion: accepted, or refused because it was complete already. */
  ghost predicate CompletionGot(turns: seq<Turn>, ahead: seq<Turn>) {
    && |ahead| < |turns|
    && var a := turns[|turns| - |ahead| - 1].answer; a.Reply? || a == Status(409)
  }

  lemma CompletionGotLater(turns: seq<Turn>, between: seq<Turn>, ahead: seq<Turn>)
    requires Suffix(between, turns) && Suffix(ahead, between) && CompletionGot(between, ahead)
    ensures CompletionGot(turns, ahead)
  {
    TailOfTail(turns, between, ahead);
  }

  lemma NothingAsked(turns: seq<Turn>, failures: nat, l: Leniency)
    ensures Asked(turns, turns, Returned, failures, failures, l)
  {
  }

  lemma OneAsked(turns: seq<Turn>, ahead: seq<Turn>, a: Answer, failures: nat, after: nat)
    requires if turns == [] then ahead == [] && a == Cancelled && after == failures
             else ahead == turns[1..] && a == turns[0].answer && after == if turns[0].kicked then 0 else failures
    ensures Asked(turns, ahead, if a.Reply? then Returned else Threw(a), failures, after, Strict)
    ensures CompletionAnswered(a) ==> Asked(turns, ahead, Returned, failures, after, CompleteAlready)
    ensures Asked(turns, ahead, Returned, failures, after, Whatever)
  {
    assert turns != [] ==> turns[..1][0] == turns[0];
  }

  lemma AskedAll(turns: seq<Turn>, between: seq<Turn>, ahead: seq<Turn>, r: Outcome, f: nat, g: nat, h: nat,
        l: Leniency)
    requires Asked(turns, between, Returned, f, g, Strict) && Asked(between, ahead, r, g, h, l)
    ensures Asked(turns, ahead, r, f, h, l)
  {
    var m, n := |turns| - |between|, |turns| - |ahead|;
    TailOfTail(turns, between, ahead);
    KickedAll(turns[..m], between[..n - m]);
    if n > m {
      assert turns[n - 1] == between[n - m - 1];
    }
    forall k | 0 <= k < n - 1
      ensures turns[k].answer.Reply?
    {
      if k >= m { assert turns[k] == between[k - m]; }
    }
  }

  lemma TailOfTail<T>(s: seq<T>, t: seq<T>, u: seq<T>)
    requires Suffix(t, s) && Suffix(u, t)
    ensures Suffix(u, s) && s[..|s| - |u|] == s[..|s| - |t|] + t[..|t| - |u|]
    ensures forall k | |s| - |t| <= k < |s| :: s[k] == t[k - (|s| - |t|)]
  {
  }

  lemma KickedAll(a: seq<Turn>, b: seq<Turn>)
    ensures Kicked(a + b) <==> Kicked(a) || Kicked(b)
  {
    if k :| 0 <= k < |b| && b[k].kicked { assert (a + b)[|a| + k].kicked; }
    if k :| 0 <= k < |a| && a[k].kicked { assert (a + b)[k].kicked; }
  }

  class UploadQueue {
    /** The recordings, as the list, the main thread and the disk have them. */
    var phone: Phone
    /** What will go on, and what the server will answer, at the coming waits. */
    var ahead: seq<Turn>
    var configured: bool
    var backoff: nat
    ghost var failures: nat

    constructor (phone: Phone, ahead: seq<Turn>, configured: bool)
      requires Valid(phone)
      ensures this.phone == phone && this.ahead == ahead && this.configured == configured
      ensures backoff == BackoffAfter(failures)
    {
      this.phone, this.ahead, this.configured := phone, ahead, configured;
      backoff, failures := 2, 0;
    }

    /** Waits for an answer while everything else goes on; with nothing ahead, the uploader is cancelled. */
    method Await() returns (a: Answer)
      requires Valid(phone) && backoff == BackoffAfter(failures)
      modifies this
      ensures configured == old(configured) && backoff == BackoffAfter(failures)
      ensures failures == if old(ahead) != [] && old(ahead)[0].kicked then 0 else old(failures)
      ensures Valid(phone) && Elapsed(old(phone), phone)
      ensures old(ahead) == [] ==> a == Cancelled && phone == old(phone) && ahead == []
      ensures old(ahead) != [] ==>
                ahead == old(ahead)[1..] && a == old(ahead)[0].answer
                    && phone == PassedAll(old(phone), old(ahead)[0].meanwhile)
    {
      if ahead == [] {
        return Cancelled;
      }
      var turn := ahead[0];
      PassedAllOk(phone, turn.meanwhile);
      phone := PassedAll(phone, turn.meanwhile);
      if turn.kicked {
        backoff, failures := 2, 0;
      }
      ahead := ahead[1..];
      a := turn.answer;
    }

    /** Whose turn it is: of the recordings with work left, the one created first. */
    method NextWork() returns (next: Option<nat>)
      ensures next.None? ==> forall id | 0 <= id < |phone| :: !HasWork(phone[id])
      ensures next.Some? ==> next.value < |phone| && HasWork(phone[next.value])
                             && forall id | 0 <= id < |phone| && HasWork(phone[id]) ::
                                  phone[next.value].item.value.createdAt <= phone[id].item.value.createdAt
    {
      next := None;
      for i := 0 to |phone|
        invariant next.None? ==> forall id | 0 <= id < i :: !HasWork(phone[id])
        invariant next.Some? ==> next.value < i && HasWork(phone[next.value])
                                 && forall id | 0 <= id < i && HasWork(phone[id]) ::
                                      phone[next.value].item.value.createdAt <= phone[id].item.value.createdAt
      {
        if HasWork(phone[i]) && (next.None? || phone[i].item.value.createdAt < phone[next.value].item.value.createdAt) {
          next := Some(i);
        }
      }
    }

    /** Sends one segment if its file is still there; either way it counts as done. */
    method Send(id: nat, number: nat) returns (r: Outcome)
      requires Valid(phone) && backoff == BackoffAfter(failures)
      requires id < |phone| && phone[id].item.Some? && Stored(phone[id].item.value.segments, number)
      modifies this
      ensures configured == old(configured) && backoff == BackoffAfter(failures)
      ensures Moved(old(phone), phone, old(ahead), ahead, id) && phone[id].item.Some?
      ensures if number in old(phone)[id].files
              then |old(ahead)| <= |ahead| + 1 && (r.Returned? <==> old(ahead) != [] && old(ahead)[0].answer.Reply?)
              else r.Returned? && ahead == old(ahead)
      ensures phone[id].acked == old(phone)[id].acked
                + (if r.Returned? && number in old(phone)[id].files then {number} else {})
      ensures r.Threw? ==> r.why == Cancelled || |ahead| < |old(ahead)|
      ensures Asked(old(ahead), ahead, r, old(failures), failures, Strict)
      ensures r.Returned? ==>
                && AllFlagged(phone[id].item.value.segments, number)
                && number !in phone[id].files && phone[id].item.value.lastError == None
    {
      ghost var was, turns, failed := phone, ahead, failures;
      MovedNowhere(phone, ahead, id);
      NothingAsked(ahead, failures, Strict);
      var there := number in phone[id].files;
      if there {
        var a := Await();
        WaitedIsMoved(was, phone, turns, ahead, id);
        OneAsked(turns, ahead, a, failed, failures);
        if !a.Reply? {
          return Threw(a);
        }
        StillStored(was[id].item.value.segments, phone[id].item.value.segments, number);
      }
      ghost var now := phone;
      Flag(id, number, there);
      ChangedIsMoved(now, phone[id], ahead, id);
      MovedAll(was, now, phone, turns, ahead, ahead, id);
      r := Returned;
    }

    method Flag(id: nat, number: nat, acked: bool)
      requires Valid(phone) && id < |phone| && phone[id].item.Some? && Stored(phone[id].item.value.segments, number)
      requires acked || number !in phone[id].files
      modifies this`phone
      ensures Valid(phone) && phone == old(phone)[id := Uploaded(old(phone)[id], number, acked)]
      ensures Onward(old(phone)[id], phone[id])
                && |phone[id].item.value.segments| == |old(phone)[id].item.value.segments|
      ensures phone[id].files == old(phone)[id].files - {number} && phone[id].item.value.lastError == None
      ensures phone[id].acked == old(phone)[id].acked + if acked then {number} else {}
      ensures AllFlagged(phone[id].item.value.segments, number)
    {
      UploadedOk(phone[id], number, acked);
      UploadedOnward(phone[id], number, acked);
      FlaggedIs(phone[id].item.value.segments, number);
      phone := phone[id := Uploaded(phone[id], number, acked)];
    }

    /** Creates the recording on the server, unless it is there already. */
    method Create(id: nat) returns (r: Outcome)
      requires Valid(phone) && backoff == BackoffAfter(failures) && id < |phone| && phone[id].item.Some?
      modifies this
      ensures configured == old(configured) && backoff == BackoffAfter(failures)
      ensures Moved(old(phone), phone, old(ahead), ahead, id) && phone[id].item.Some?
      ensures phone[id].acked == old(phone)[id].acked
      ensures r.Threw? ==> r.why == Cancelled || |ahead| < |old(ahead)|
      ensures Asked(old(ahead), ahead, r, old(failures), failures, Strict)
      ensures r.Returned? ==> phone[id].item.value.serverId.Some?
      ensures r.Returned? && old(phone)[id].item.value.serverId.None? ==>
                old(ahead) != [] && old(ahead)[0].answer == Reply(phone[id].item.value.serverId.value)
    {
      MovedNowhere(phone, ahead, id);
      NothingAsked(ahead, failures, Strict);
      if phone[id].item.value.serverId.None? {
        ghost var was, turns, failed := phone, ahead, failures;
        var a := Await();
        WaitedIsMoved(was, phone, turns, ahead, id);
        OneAsked(turns, ahead, a, failed, failures);
        if !a.Reply? {
          return Threw(a);
        }
        ghost var now := phone;
        phone := phone[id := Created(phone[id], a.id)];
        CreatedOk(now[id], a.id);
        ChangedIsMoved(now, phone[id], ahead, id);
        MovedAll(was, now, phone, turns, ahead, ahead, id);
      }
      r := Returned;
    }

    /** Sends what was pending in the entry as it was read, lowest number first. */
    method SendAll(id: nat, read: seq<Segment>) returns (r: Outcome)
      requires Valid(phone) && backoff == BackoffAfter(failures) && id < |phone| && phone[id].item.Some?
      requires SegmentsOnward(read, phone[id].item.value.segments)
      modifies this
      ensures configured == old(configured) && backoff == BackoffAfter(failures)
      ensures Moved(old(phone), phone, old(ahead), ahead, id) && phone[id].item.Some?
      ensures r.Threw? ==> r.why == Cancelled || |ahead| < |old(ahead)|
      ensures Asked(old(ahead), ahead, r, old(failures), failures, Strict)
      ensures |old(ahead)| - |ahead| <= Pending(read)
      ensures r.Returned? ==> SegmentsOnward(AllUploaded(read), phone[id].item.value.segments)
    {
      ghost var was, turns, failed := phone, ahead, failures;
      var left := set i | 0 <= i < |read| && !read[i].uploaded :: read[i].number;
      PendingCounted(read, left);
      MovedNowhere(phone, ahead, id);
      NothingAsked(ahead, failures, Strict);
      while left != {}
        invariant configured == old(configured) && backoff == BackoffAfter(failures) && id < |phone|
        invariant phone[id].item.Some? && SentButFor(read, phone[id].item.value.segments, left)
        invariant SoFar(was, phone, turns, ahead, Returned, failed, failures, id)
        invariant |turns| - |ahead| + |left| <= Pending(read)
      {
        ghost var before, ahead0, failures0 := phone, ahead, failures;
        var number;
        r, number := SendLowest(id, read, left);
        SoFarAll(was, before, phone, turns, ahead0, ahead, r, failed, failures0, failures, id);
        if r.Threw? {
          return;
        }
        left := left - {number};
      }
      r := Returned;
    }

    method Lowest(left: set<nat>) returns (number: nat)
      requires left != {}
      ensures number in left && forall n | n in left :: number <= n
    {
      var some :| some in left;
      LeastExists(left, some);
      number :| number in left && forall n | n in left :: number <= n;
    }

    method SendLowest(id: nat, read: seq<Segment>, left: set<nat>) returns (r: Outcome, number: nat)
      requires Valid(phone) && backoff == BackoffAfter(failures) && id < |phone| && phone[id].item.Some?
      requires left != {} && SentButFor(read, phone[id].item.value.segments, left)
      modifies this
      ensures configured == old(configured) && backoff == BackoffAfter(failures)
      ensures Moved(old(phone), phone, old(ahead), ahead, id) && phone[id].item.Some?
      ensures r.Threw? ==> r.why == Cancelled || |ahead| < |old(ahead)|
      ensures Asked(old(ahead), ahead, r, old(failures), failures, Strict)
      ensures number in left && (forall n | n in left :: number <= n) && |old(ahead)| <= |ahead| + 1
      ensures r.Returned? ==> SentButFor(read, phone[id].item.value.segments, left - {number})
    {
      number := Lowest(left);
      ghost var before := phone[id].item.value.segments;
      StillThere(read, before, left, number);
      r := Send(id, number);
      if r.Returned? {
        OneSent(read, before, phone[id].item.value.segments, left, number);
      }
    }

    /** Takes one recording as far as it will go. */
    method Process(id: nat) returns (r: Outcome)
      requires Valid(phone) && backoff == BackoffAfter(failures) && id < |phone|
      modifies this
      ensures configured == old(configured) && backoff == BackoffAfter(failures)
      ensures Moved(old(phone), phone, old(ahead), ahead, id)
      ensures r.Threw? ==> r.why == Cancelled || |ahead| < |old(ahead)|
      ensures Asked(old(ahead), ahead, r, old(failures), failures, Excuses(old(phone)[id], phone[id]))
      ensures r.Returned? && HasWork(old(phone)[id]) ==> Shrunk(old(phone)[id], phone[id])
      ensures old(phone)[id].item.Some? && phone[id].item.None? && phone[id].emitted > 0 ==>
                CompletionGot(old(ahead), ahead)
    {
      ghost var was, turns, failed := phone, ahead, failures;
      MovedNowhere(phone, ahead, id);
      NothingAsked(ahead, failures, Strict);
      if phone[id].item.None? {
        return Returned;
      }
      if phone[id].item.value.finished && phone[id].item.value.segments == [] {
        r := Discard(id);
        return;
      }
      r := SendAndComplete(id);
    }

    method SendAndComplete(id: nat) returns (r: Outcome)
      requires Valid(phone) && backoff == BackoffAfter(failures) && id < |phone| && phone[id].item.Some?
      modifies this
      ensures configured == old(configured) && backoff == BackoffAfter(failures)
      ensures Moved(old(phone), phone, old(ahead), ahead, id)
      ensures r.Threw? ==> r.why == Cancelled || |ahead| < |old(ahead)|
      ensures Asked(old(ahead), ahead, r, old(failures), failures,
                    if phone[id].item.None? then CompleteAlready else Strict)
      ensures r.Returned? && HasWork(old(phone)[id]) ==> Shrunk(old(phone)[id], phone[id])
      ensures phone[id].item.None? ==> CompletionGot(old(ahead), ahead)
    {
      ghost var was, turns, failed := phone, ahead, failures;
      r := CreateAndSend(id);
      if r.Threw? {
        return;
      }
      ghost var now, left, failed1 := phone, ahead, failures;
      LessLeft(was[id], phone[id]);
      r := Complete(id);
      MovedAll(was, now, phone, turns, left, ahead, id);
      AskedAll(turns, left, ahead, r, failed, failed1, failures,
               if phone[id].item.None? then CompleteAlready else Strict);
      if phone[id].item.None? { CompletionGotLater(turns, left, ahead); }
    }

    /** Creates the recording if need be and sends every segment pending in its entry as first read. */
    method CreateAndSend(id: nat) returns (r: Outcome)
      requires Valid(phone) && backoff == BackoffAfter(failures) && id < |phone| && phone[id].item.Some?
      modifies this
      ensures configured == old(configured) && backoff == BackoffAfter(failures)
      ensures Moved(old(phone), phone, old(ahead), ahead, id) && phone[id].item.Some?
      ensures r.Threw? ==> r.why == Cancelled || |ahead| < |old(ahead)|
      ensures Asked(old(ahead), ahead, r, old(failures), failures, Strict)
      ensures r.Returned? ==>
                && phone[id].item.value.serverId.Some?
                && SegmentsOnward(AllUploaded(old(phone)[id].item.value.segments), phone[id].item.value.segments)
    {
      ghost var was, turns, failed := phone, ahead, failures;
      var rec := phone[id].item.value;
      r := Create(id);
      if r.Threw? {
        return;
      }
      ghost var now, left, failed1 := phone, ahead, failures;
      r := SendAll(id, rec.segments);
      MovedAll(was, now, phone, turns, left, ahead, id);
      AskedAll(turns, left, ahead, r, failed, failed1, failures, Strict);
    }

    /** Stopped before any audio was captured: deleted on the server if it got there, and forgotten. */
    method Discard(id: nat) returns (r: Outcome)
      requires Valid(phone) && backoff == BackoffAfter(failures) && id < |phone| && phone[id].item.Some?
      requires phone[id].item.value.finished && phone[id].item.value.segments == []
      modifies this
      ensures configured == old(configured) && backoff == BackoffAfter(failures)
      ensures Moved(old(phone), phone, old(ahead), ahead, id)
      ensures Asked(old(ahead), ahead, r, old(failures), failures, Whatever)
      ensures |ahead| == |old(ahead)| - if old(phone)[id].item.value.serverId.Some? && old(ahead) != [] then 1 else 0
      ensures r.Returned? && phone[id].item.None? && phone[id].files == {} && phone[id].emitted == 0
    {
      ghost var was, turns, failed := phone, ahead, failures;
      MovedNowhere(phone, ahead, id);
      NothingAsked(ahead, failures, Whatever);
      if phone[id].item.value.serverId.Some? {
        var a := Await();
        WaitedIsMoved(was, phone, turns, ahead, id);
        OneAsked(turns, ahead, a, failed, failures);
      }
      ghost var now := phone;
      RemovedOk(phone[id], false);
      phone := phone[id := Removed(phone[id], false)];
      ChangedIsMoved(now, phone[id], ahead, id);
      MovedAll(was, now, phone, turns, ahead, ahead, id);
      NothingEmitted(now[id]);
      r := Returned;
    }

    /** Once it has stopped and everything is up, the server is told, and the phone's copy goes. */
    method Complete(id: nat) returns (r: Outcome)
      requires Valid(phone) && backoff == BackoffAfter(failures) && id < |phone| && phone[id].item.Some?
      modifies this
      ensures configured == old(configured) && backoff == BackoffAfter(failures)
      ensures Moved(old(phone), phone, old(ahead), ahead, id)
      ensures r.Threw? ==> r.why == Cancelled || |ahead| < |old(ahead)|
      ensures r.Threw? ==> r.why != Status(409)
      ensures Asked(old(ahead), ahead, r, old(failures), failures, if phone[id].item.None? then CompleteAlready else
                Strict)
      ensures r.Returned? ==> (phone[id].item.None? <==> ReadyToComplete(old(phone)[id]))
      ensures r.Returned? && phone[id].item.Some? ==> phone == old(phone)
      ensures phone[id].item.None? ==> phone[id].files == {} && phone[id].answered && CompletionGot(old(ahead), ahead)
    {
      ghost var was, turns, failed := phone, ahead, failures;
      MovedNowhere(phone, ahead, id);
      NothingAsked(ahead, failures, Strict);
      if !ReadyToComplete(phone[id]) {
        return Returned;
      }
      var a := Await();
      WaitedIsMoved(was, phone, turns, ahead, id);
      OneAsked(turns, ahead, a, failed, failures);
      if !CompletionAnswered(a) {
        return Threw(a);
      }
      ghost var now := phone;
      RemovedOk(phone[id], true);
      phone := phone[id := Removed(phone[id], true)];
      ChangedIsMoved(now, phone[id], ahead, id);
      MovedAll(was, now, phone, turns, ahead, ahead, id);
      r := Returned;
    }

    /**
     Works through the recordings, oldest first, until nothing is left or it cannot go on. `rounds` is the history: one
     entry for each recording taken up.
     */
    method Drain() returns (end: End, ghost rounds: seq<Round>)
      requires Valid(phone) && backoff == BackoffAfter(failures)
      modifies this
      ensures Finished(Moment(old(phone), old(ahead), old(failures)), rounds, end, Moment(phone, ahead, failures))
      ensures backoff == BackoffAfter(failures) && configured == old(configured) && (!configured ==> rounds == [])
      ensures end.Drained? ==> forall id | 0 <= id < |phone| :: OnlyBeingRecorded(phone[id])
      ensures end.NotConfigured? ==> !configured && exists id :: 0 <= id < |phone| && HasWork(phone[id])
    {
      ghost var start := Moment(phone, ahead, failures);
      rounds := [];
      while true
        invariant backoff == BackoffAfter(failures) && Going(start, rounds, Moment(phone, ahead, failures))
        invariant configured == old(configured) && (!configured ==> rounds == [])
        decreases |ahead|, Total(phone)
      {
        var over, next := Look();
        if over.Some? {
          StopsHere(start, rounds, over.value, Moment(phone, ahead, failures));
          return over.value, rounds;
        }
        var stop, round := Attempt(next);
        if stop.Some? {
          Stopped(start, rounds, round, stop.value, Moment(phone, ahead, failures));
          return stop.value, rounds + [round];
        }
        WentOn(start, rounds, round, Moment(phone, ahead, failures));
        rounds := rounds + [round];
      }
    }

    /** Is there anything left, and a server to send it to? */
    method Look() returns (over: Option<End>, next: nat)
      requires Valid(phone)
      ensures match over
              case None => configured && Chosen(phone, next)
              case Some(end) =>
                || (end.Drained? && forall id | 0 <= id < |phone| :: OnlyBeingRecorded(phone[id]))
                || (end.NotConfigured? && !configured && exists id :: 0 <= id < |phone| && HasWork(phone[id]))
    {
      var found := NextWork();
      if found.None? {
        return Some(Drained), 0;
      }
      if !configured {
        return Some(NotConfigured), 0;
      }
      return None, found.value;
    }

    /** One recording taken up: what came of it decides whether to go on, to back off first, or to stop. */
    method Attempt(id: nat) returns (stop: Option<End>, ghost round: Round)
      requires Valid(phone) && backoff == BackoffAfter(failures) && Chosen(phone, id)
      modifies this
      ensures configured == old(configured) && Valid(phone) && AllOnward(old(phone), phone)
      ensures backoff == BackoffAfter(failures) && Suffix(ahead, old(ahead))
      ensures IsRound(round) && round.from == Moment(old(phone), old(ahead), old(failures))
      ensures match stop
              case None => GoesOn(round, Moment(phone, ahead, failures))
              case Some(end) => StopsAs(round, end, Moment(phone, ahead, failures))
      ensures stop.None? ==> |ahead| < |old(ahead)| || (ahead == old(ahead) && Total(phone) < Total(old(phone)))
    {
      ghost var was, turns, failed := phone, ahead, failures;
      var r := Process(id);
      ghost var to := Moment(phone, ahead, failures);
      round := Round(id, Moment(was, turns, failed), to, r, 0);
      AllOnwardAll(was, was, was);
      MovedIsOnward(was, was, phone, turns, ahead, id);
      if r.Returned? {
        backoff, failures := 2, 0;
        TotalShrinks(was, phone, turns, ahead, id);
        return None, round;
      }
      if r.why == Cancelled {
        return Some(WasCancelled), round;
      }
      phone := phone[id := Noted(phone[id], r.why)];
      NotedOk(was, to.phone, id, r.why);
      if IsUnauthorized(r.why) {
        return Some(Unauthorized), round;
      }
      ghost var noted := phone;
      var waited := BackOff();
      round := round.(waited := waited);
      ElapsedIsOnward(was, noted, phone);
      stop := None;
    }

    /** Waits the back-off out, or until something kicks; the next wait is twice as long, up to five minutes. */
    method BackOff() returns (waited: nat)
      requires Valid(phone) && backoff == BackoffAfter(failures)
      modifies this
      ensures configured == old(configured) && Valid(phone) && Elapsed(old(phone), phone)
      ensures if old(ahead) == [] then phone == old(phone) && ahead == []
              else phone == PassedAll(old(phone), old(ahead)[0].meanwhile) && ahead == old(ahead)[1..]
      ensures waited == BackoffAfter(old(failures)) && backoff == BackoffAfter(failures)
      ensures failures == (if old(ahead) != [] && old(ahead)[0].kicked then 1 else old(failures) + 1)
    {
      waited := backoff;
      var _ := Await();
      backoff := if backoff * 2 < 300 then backoff * 2 else 300;
      failures := failures + 1;
    }
  }

  /** What remains once the queue is drained: recordings still under way, with all they have so far sent. */
  predicate OnlyBeingRecorded(l: Lane) {
    l.item.None? || (!l.item.value.finished && l.item.value.serverId.Some? && Pending(l.item.value.segments) == 0)
  }

  /** The failure is shown with the recording. */
  function Noted(l: Lane, a: Answer): Lane {
    if l.item.None? then l else l.(item := Some(l.item.value.(lastError := Some(a))))
  }

  // ---------------------------------------------------------------- rounds

  /** Where the uploader is: the recordings, the coming waits, the failures in a row. */
  datatype Moment = Moment(phone: Phone, ahead: seq<Turn>, failures: nat)

  /** A recording taken up, what came of it, and how long the uploader backed off after it, in seconds. */
  datatype Round = Round(id: nat, from: Moment, to: Moment, outcome: Outcome, waited: nat)

  /** The oldest recording with work left. */
  ghost predicate Chosen(p: Phone, id: nat) {
    && id < |p| && HasWork(p[id])
    && forall o | 0 <= o < |p| && HasWork(p[o]) :: p[id].item.value.createdAt <= p[o].item.value.createdAt
  }

  ghost predicate IsRound(rd: Round) {
    && Chosen(rd.from.phone, rd.id)
    && Moved(rd.from.phone, rd.to.phone, rd.from.ahead, rd.to.ahead, rd.id)
    && Asked(rd.from.ahead, rd.to.ahead, rd.outcome, rd.from.failures, rd.to.failures,
             Excuses(rd.from.phone[rd.id], rd.to.phone[rd.id]))
  }

  /**
   After success at once, after any failure but a cancellation or a rejection after a back-off, during which everything
   else goes on and a kick starts the count of failures over.
   */
  ghost predicate GoesOn(rd: Round, next: Moment)
    requires rd.id < |rd.to.phone|
  {
    var to := rd.to;
    match rd.outcome
    case Returned => rd.waited == 0 && next == to.(failures := 0)
    case Threw(why) =>
      var noted := to.phone[rd.id := Noted(to.phone[rd.id], why)];
      && why != Cancelled && why != Status(401) && why != Status(403)
      && rd.waited == BackoffAfter(to.failures)
      && (noted[rd.id].item.Some? ==> noted[rd.id].item.value.lastError == Some(why))
      && next == if to.ahead == [] then Moment(noted, [], to.failures + 1)
                 else Moment(PassedAll(noted, to.ahead[0].meanwhile), to.ahead[1..],
                             (if to.ahead[0].kicked then 0 else to.failures) + 1)
  }

  ghost predicate StopsAs(rd: Round, end: End, now: Moment)
    requires rd.id < |rd.to.phone|
  {
    var to := rd.to;
    match end
    case WasCancelled => rd.outcome == Threw(Cancelled) && now == to
    case Unauthorized =>
      && (rd.outcome == Threw(Status(401)) || rd.outcome == Threw(Status(403)))
      && now == to.(phone := to.phone[rd.id := Noted(to.phone[rd.id], rd.outcome.why)])
      && (now.phone[rd.id].item.Some? ==> now.phone[rd.id].item.value.lastError == Some(rd.outcome.why))
    case _ => false
  }

  /** Each round begins where the one before it left off. */
  ghost predicate Chain(rounds: seq<Round>, start: Moment, now: Moment) {
    if rounds == [] then now == start
    else
      var last := rounds[|rounds| - 1];
      Chain(rounds[..|rounds| - 1], start, last.from) && LeadsTo(last, now)
  }

  ghost predicate LeadsTo(rd: Round, next: Moment) {
    IsRound(rd) && GoesOn(rd, next)
  }

  ghost predicate Ended(rounds: seq<Round>, start: Moment, end: End, now: Moment) {
    if end.Drained? || end.NotConfigured? then Chain(rounds, start, now)
    else
      && rounds != []
      && var last := rounds[|rounds| - 1];
         IsRound(last) && Chain(rounds[..|rounds| - 1], start, last.from) && StopsAs(last, end, now)
  }

  /** What the end says of the last answer: rejected exactly by 401 or 403, or cancelled, or none was left. */
  ghost predicate EndsRightly(turns: seq<Turn>, end: End, ahead: seq<Turn>) {
    && Suffix(ahead, turns)
    && (end.Unauthorized? ==>
          && |ahead| < |turns|
          && var a := turns[|turns| - |ahead| - 1].answer; a == Status(401) || a == Status(403))
    && (end.WasCancelled? ==>
          ahead == [] || (|ahead| < |turns| && turns[|turns| - |ahead| - 1].answer == Cancelled))
  }

  lemma {:induction false} ChainUsesUp(rounds: seq<Round>, start: Moment, now: Moment)
    requires Chain(rounds, start, now)
    ensures Suffix(now.ahead, start.ahead)
  {
    if rounds != [] {
      var last := rounds[|rounds| - 1];
      ChainUsesUp(rounds[..|rounds| - 1], start, last.from);
      RoundUsesUp(last, now);
      TailOfTail(start.ahead, last.from.ahead, now.ahead);
    }
  }

  lemma RoundUsesUp(rd: Round, next: Moment)
    requires LeadsTo(rd, next)
    ensures Suffix(next.ahead, rd.from.ahead)
  {
    assert Suffix(next.ahead, rd.to.ahead);
    TailOfTail(rd.from.ahead, rd.to.ahead, next.ahead);
  }

  ghost predicate LastSaid(turns: seq<Turn>, ahead: seq<Turn>, why: Answer) {
    && Suffix(ahead, turns)
    && ((ahead == [] && why == Cancelled) || (|ahead| < |turns| && turns[|turns| - |ahead| - 1].answer == why))
  }

  lemma ThrowsWhatWasSaid(rd: Round)
    requires IsRound(rd) && rd.outcome.Threw?
    ensures LastSaid(rd.from.ahead, rd.to.ahead, rd.outcome.why)
  {
  }

  lemma SaidLater(turns: seq<Turn>, between: seq<Turn>, ahead: seq<Turn>, why: Answer)
    requires Suffix(between, turns) && LastSaid(between, ahead, why)
    ensures LastSaid(turns, ahead, why)
  {
    TailOfTail(turns, between, ahead);
  }

  /** Nothing went wrong, or something that a back-off may put right. */
  predicate Retried(rd: Round) {
    match rd.outcome
    case Returned => rd.waited == 0
    case Threw(why) =>
      (why == Offline || (why.Status? && why.code != 401 && why.code != 403))
      && rd.waited == BackoffAfter(rd.to.failures)
  }

  lemma LeadsOn(rd: Round, next: Moment)
    requires LeadsTo(rd, next)
    ensures Retried(rd)
  {
  }

  /** So far: the books are kept, nothing has gone back, and each round led to the next after any failure retried. */
  ghost predicate Going(start: Moment, rounds: seq<Round>, now: Moment) {
    && Valid(now.phone) && AllOnward(start.phone, now.phone) && Chain(rounds, start, now)
    && forall i | 0 <= i < |rounds| :: Retried(rounds[i])
  }

  ghost predicate Finished(start: Moment, rounds: seq<Round>, end: End, now: Moment) {
    && Valid(now.phone) && AllOnward(start.phone, now.phone)
    && Ended(rounds, start, end, now) && EndsRightly(start.ahead, end, now.ahead)
    && forall i | 0 <= i < |rounds| - (if end.Drained? || end.NotConfigured? then 0 else 1) :: Retried(rounds[i])
  }

  lemma WentOn(start: Moment, rounds: seq<Round>, rd: Round, now: Moment)
    requires Going(start, rounds, rd.from) && Valid(now.phone) && AllOnward(rd.from.phone, now.phone)
    requires LeadsTo(rd, now)
    ensures Going(start, rounds + [rd], now)
  {
    AllOnwardAll(start.phone, rd.from.phone, now.phone);
    LeadsOn(rd, now);
    assert (rounds + [rd])[..|rounds|] == rounds;
  }

  lemma StopsHere(start: Moment, rounds: seq<Round>, end: End, now: Moment)
    requires Going(start, rounds, now) && (end.Drained? || end.NotConfigured?)
    ensures Finished(start, rounds, end, now)
  {
    ChainUsesUp(rounds, start, now);
  }

  lemma Stopped(start: Moment, rounds: seq<Round>, rd: Round, end: End, now: Moment)
    requires Going(start, rounds, rd.from) && Valid(now.phone) && AllOnward(rd.from.phone, now.phone)
    requires IsRound(rd) && StopsAs(rd, end, now)
    ensures Finished(start, rounds + [rd], end, now)
  {
    AllOnwardAll(start.phone, rd.from.phone, now.phone);
    assert (rounds + [rd])[..|rounds|] == rounds;
    StopsRightly(rounds, start, rd, end, now);
  }

  lemma StopsRightly(rounds: seq<Round>, start: Moment, rd: Round, end: End, now: Moment)
    requires Chain(rounds, start, rd.from) && IsRound(rd) && StopsAs(rd, end, now)
    ensures EndsRightly(start.ahead, end, now.ahead)
  {
    ChainUsesUp(rounds, start, rd.from);
    ThrowsWhatWasSaid(rd);
    SaidLater(start.ahead, rd.from.ahead, rd.to.ahead, rd.outcome.why);
  }

  /** The round got this answer, the `k`-th, to creating, sending or completing: the key or login was rejected. */
  ghost predicate Rejected(rd: Round, k: nat) {
    && IsRound(rd) && !Excuses(rd.from.phone[rd.id], rd.to.phone[rd.id]).Whatever?
    && k < |rd.from.ahead| - |rd.to.ahead|
    && (rd.from.ahead[k].answer == Status(401) || rd.from.ahead[k].answer == Status(403))
  }

  lemma RejectedThrows(rd: Round, k: nat)
    requires Rejected(rd, k)
    ensures rd.outcome == Threw(rd.from.ahead[k].answer) && k == |rd.from.ahead| - |rd.to.ahead| - 1
  {
  }

  /**
   The uploader gives up exactly on the last round's rejection or cancellation, and every other
   failure is retried.
   */
  lemma OutcomesDecide(start: Moment, rounds: seq<Round>, end: End, now: Moment)
    requires Finished(start, rounds, end, now)
    ensures forall i | 0 <= i < |rounds| - 1 :: Retried(rounds[i])
    ensures end.Unauthorized? <==>
            rounds != [] && var last := rounds[|rounds| - 1].outcome;
                            last == Threw(Status(401)) || last == Threw(Status(403))
    ensures end.WasCancelled? <==> rounds != [] && rounds[|rounds| - 1].outcome == Threw(Cancelled)
    ensures end.Drained? || end.NotConfigured? <==> rounds == [] || Retried(rounds[|rounds| - 1])
  {
  }

  /** A rejected key or login, in answer to creating, sending or completing, ends it there and then. */
  lemma RejectionEnds(start: Moment, rounds: seq<Round>, end: End, now: Moment, i: nat, k: nat)
    requires Finished(start, rounds, end, now) && i < |rounds| && Rejected(rounds[i], k)
    ensures end == Unauthorized && i == |rounds| - 1 && k == |rounds[i].from.ahead| - |rounds[i].to.ahead| - 1
  {
    RejectedThrows(rounds[i], k);
    OutcomesDecide(start, rounds, end, now);
  }

  lemma AllOnwardAll(p: Phone, q: Phone, r: Phone)
    requires AllOnward(p, q) && AllOnward(q, r)
    ensures AllOnward(p, r)
  {
    forall id | 0 <= id < |p|
      ensures Onward(p[id], r[id])
    {
      OnwardAll(p[id], q[id], r[id]);
    }
  }

  lemma NotedOk(p: Phone, q: Phone, id: nat, a: Answer)
    requires id < |q| && Valid(q) && AllOnward(p, q)
    ensures Valid(q[id := Noted(q[id], a)]) && AllOnward(p, q[id := Noted(q[id], a)])
  {
    AllOnwardAll(p, q, q[id := Noted(q[id], a)]);
  }

  lemma ElapsedIsOnward(p: Phone, q: Phone, r: Phone)
    requires AllOnward(p, q) && Elapsed(q, r)
    ensures AllOnward(p, r)
  {
    forall id | 0 <= id < |q|
      ensures Onward(q[id], r[id])
    {
      UndisturbedIsOnward(q[id], r[id]);
    }
    AllOnwardAll(p, q, r);
  }

  lemma MovedIsOnward(p: Phone, q: Phone, r: Phone, turns: seq<Turn>, ahead: seq<Turn>, id: nat)
    requires AllOnward(p, q) && Moved(q, r, turns, ahead, id)
    ensures AllOnward(p, r)
  {
    forall o | 0 <= o < |q|
      ensures Onward(q[o], r[o])
    {
      if o != id { UndisturbedIsOnward(q[o], r[o]); }
    }
    AllOnwardAll(p, q, r);
  }

  function Total(p: Phone): nat {
    if p == [] then 0 else Left(p[0]) + Total(p[1..])
  }

  lemma {:induction false} TotalChange(p: Phone, id: nat, l: Lane)
    requires id < |p|
    ensures Total(p[id := l]) == Total(p) - Left(p[id]) + Left(l)
  {
    if id > 0 {
      TotalChange(p[1..], id - 1, l);
      assert p[id := l][1..] == p[1..][id - 1 := l];
    } else {
      assert p[0 := l][1..] == p[1..];
    }
  }

  /** A round without error and without waiting leaves less to do in all. */
  lemma TotalShrinks(p: Phone, q: Phone, turns: seq<Turn>, ahead: seq<Turn>, id: nat)
    requires Moved(p, q, turns, ahead, id) && HasWork(p[id]) && Shrunk(p[id], q[id])
    ensures |ahead| < |turns| || Total(q) < Total(p)
  {
    if |ahead| == |turns| { TotalChange(p, id, q[id]); }
  }

  /** Two seconds doubling to five minutes. */
  lemma {:induction false} BackoffDoubles(failures: nat)
    ensures BackoffAfter(failures) == if failures < 8 then Pow2(failures + 1) else 300
  {
    if failures > 0 { BackoffDoubles(failures - 1); }
    assert Pow2(8) == 256;
  }

  predicate ReadyToComplete(l: Lane) {
    l.item.Some? && l.item.value.finished && Pending(l.item.value.segments) == 0 && !l.item.value.completed
  }

  /** Accepted, or refused because it was complete already. */
  predicate CompletionAnswered(a: Answer) {
    a.Reply? || a == Status(409)
  }

  lemma NothingEmitted(l: Lane)
    requires LaneOk(l) && l.item.Some? && l.item.value.finished && l.item.value.segments == []
    ensures l.emitted == 0
  {
    assert !Waiting(l.queue, 0) && !Stored(l.item.value.segments, 0);
  }

  /** Created and sent, either less is left than before or nothing but completion. */
  lemma LessLeft(a: Lane, b: Lane)
    requires a.item.Some? && b.item.Some? && Onward(a, b) && b.item.value.serverId.Some?
    requires SegmentsOnward(AllUploaded(a.item.value.segments), b.item.value.segments)
    ensures HasWork(a) ==> Shrunk(a, b) || (ReadyToComplete(b) && Left(b) == Left(a))
  {
    var s, t := a.item.value.segments, b.item.value.segments;
    PendingOnward(s, t);
    NonePending(s);
    NonePending(t);
    assert forall i | 0 <= i < |s| :: AllUploaded(s)[i].uploaded && t[i].uploaded;
    if Pending(s) > 0 {
      var i :| 0 <= i < |s| && !s[i].uploaded;
      assert t[i].uploaded && !s[i].uploaded;
    }
  }

  function AllUploaded(segments: seq<Segment>): seq<Segment> {
    seq(|segments|, i requires 0 <= i < |segments| => segments[i].(uploaded := true))
  }

  /** Whatever was pending when read is uploaded, or still on the list. */
  ghost predicate SentButFor(read: seq<Segment>, now: seq<Segment>, left: set<nat>) {
    && SegmentsOnward(read, now)
    && (forall i | 0 <= i < |read| && !now[i].uploaded :: read[i].number in left)
    && forall n | n in left :: Stored(read, n)
  }

  /** What the uploader did to one recording since, and how it was answered. */
  ghost predicate SoFar(p: Phone, q: Phone, turns: seq<Turn>, ahead: seq<Turn>, r: Outcome, failed: nat, failures: nat,
        id: nat) {
    Moved(p, q, turns, ahead, id) && Asked(turns, ahead, r, failed, failures, Strict)
  }

  lemma SoFarAll(p: Phone, q: Phone, r: Phone, turns: seq<Turn>, between: seq<Turn>, ahead: seq<Turn>, o: Outcome,
        failed: nat, f: nat, failures: nat, id: nat)
    requires SoFar(p, q, turns, between, Returned, failed, f, id) && q[id].item.Some?
    requires SoFar(q, r, between, ahead, o, f, failures, id)
    ensures SoFar(p, r, turns, ahead, o, failed, failures, id)
  {
    MovedAll(p, q, r, turns, between, ahead, id);
    AskedAll(turns, between, ahead, o, failed, f, failures, Strict);
  }

  lemma {:induction false} PendingCounted(read: seq<Segment>, left: set<nat>)
    requires left == set i | 0 <= i < |read| && !read[i].uploaded :: read[i].number
    ensures |left| <= Pending(read)
  {
    if read != [] {
      var rest := read[1..];
      var others := set i | 0 <= i < |rest| && !rest[i].uploaded :: rest[i].number;
      PendingCounted(rest, others);
      assert forall i | 0 < i < |read| :: read[i] == rest[i - 1];
      assert left <= others + (if read[0].uploaded then {} else {read[0].number});
      SubsetIsSmaller(left, others + (if read[0].uploaded then {} else {read[0].number}));
    }
  }

  lemma SubsetIsSmaller<T>(a: set<T>, b: set<T>)
    requires a <= b
    ensures |a| <= |b|
  {
    if a != {} {
      var x :| x in a;
      SubsetIsSmaller(a - {x}, b - {x});
    }
  }

  lemma StillThere(read: seq<Segment>, now: seq<Segment>, left: set<nat>, number: nat)
    requires SentButFor(read, now, left) && number in left
    ensures Stored(now, number)
  {
    var i :| 0 <= i < |read| && read[i].number == number;
    assert now[i].number == number;
  }

  lemma OneSent(read: seq<Segment>, before: seq<Segment>, now: seq<Segment>, left: set<nat>, number: nat)
    requires SentButFor(read, before, left) && SegmentsOnward(before, now) && AllFlagged(now, number)
    ensures SentButFor(read, now, left - {number})
  {
  }

  lemma LeastExists(s: set<nat>, n: nat)
    requires n in s
    ensures exists least :: least in s && forall m | m in s :: least <= m
    decreases n
  {
    if m :| m in s && m < n { LeastExists(s, m); }
  }

  /** One recording moved on while the uploader worked; the rest only saw time pass. */
  ghost predicate Moved(p: Phone, q: Phone, turns: seq<Turn>, ahead: seq<Turn>, id: nat) {
    && id < |p| && Valid(q) && OthersElapsed(p, q, id) && Onward(p[id], q[id]) && Suffix(ahead, turns)
    && (|ahead| == |turns| ==>
          && q == p[id := q[id]]
          && (p[id].item.Some? && q[id].item.Some? ==> |q[id].item.value.segments| == |p[id].item.value.segments|))
  }

  lemma MovedNowhere(p: Phone, turns: seq<Turn>, id: nat)
    requires id < |p| && Valid(p)
    ensures Moved(p, p, turns, turns, id)
  {
  }

  lemma WaitedIsMoved(p: Phone, q: Phone, turns: seq<Turn>, ahead: seq<Turn>, id: nat)
    requires id < |p| && Valid(q) && Elapsed(p, q)
    requires if turns == [] then q == p && ahead == [] else ahead == turns[1..]
    ensures Moved(p, q, turns, ahead, id)
  {
    UndisturbedIsOnward(p[id], q[id]);
  }

  lemma ChangedIsMoved(p: Phone, l: Lane, ahead: seq<Turn>, id: nat)
    requires id < |p| && Valid(p) && LaneOk(l) && Onward(p[id], l)
    requires p[id].item.Some? && l.item.Some? ==> |l.item.value.segments| == |p[id].item.value.segments|
    ensures Moved(p, p[id := l], ahead, ahead, id)
  {
  }

  lemma MovedAll(p: Phone, q: Phone, r: Phone, turns: seq<Turn>, between: seq<Turn>, ahead: seq<Turn>, id: nat)
    requires Moved(p, q, turns, between, id) && Moved(q, r, between, ahead, id) && q[id].item.Some?
    ensures Moved(p, r, turns, ahead, id)
  {
    OnwardAll(p[id], q[id], r[id]);
    assert ahead == turns[|turns| - |ahead|..];
  }

  predicate AllFlagged(segments: seq<Segment>, number: nat) {
    forall i | 0 <= i < |segments| && segments[i].number == number :: segments[i].uploaded
  }

  ghost predicate Suffix<T>(s: seq<T>, whole: seq<T>) {
    |s| <= |whole| && s == whole[|whole| - |s|..]
  }

  lemma StillStored(a: seq<Segment>, b: seq<Segment>, number: nat)
    requires Stored(a, number) && a <= b
    ensures Stored(b, number)
  {
    var i :| 0 <= i < |a| && a[i].number == number;
    assert b[i].number == number;
  }

  lemma UploadedOnward(l: Lane, number: nat, acked: bool)
    requires LaneOk(l) && l.item.Some?
    ensures Onward(l, Uploaded(l, number, acked))
  {
    FlaggedIs(l.item.value.segments, number);
  }

  /** `finished` set at once, the saves still queued. */
  function Rushed(l: Lane): Lane {
    if l.item.None? then l else l.(stopped := true, item := Some(l.item.value.(finished := true)))
  }

  /**
   Were `finished` set at once and not queued behind the saves, a recording with
   nothing pending would be completed and removed; audio is then lost exactly when a
   save was still queued for a segment whose file is there.
   */
  lemma RushedFinishIsSafeIff(l: Lane)
    requires LaneOk(l) && l.item.Some? && Pending(l.item.value.segments) == 0
    ensures ReadyToComplete(Rushed(l))
    ensures SafelyUp(Removed(Rushed(l), true)) <==> forall n | Waiting(l.queue, n) :: n in l.lost
  {
    var segments := l.item.value.segments;
    NonePending(segments);
    forall n: nat | n < l.emitted && !Waiting(l.queue, n)
      ensures n in l.acked || n in l.lost
    {
      assert Stored(segments, n);
    }
    forall n: nat | Waiting(l.queue, n)
      ensures n < l.emitted && n !in l.acked
    {
      assert n in l.acked ==> Stored(segments, n);
    }
  }

  /** Such a save is queued after two rotations in quick succession. */
  lemma RushedFinishLosesTail(createdAt: int) returns (l: Lane)
    ensures LaneOk(l) && l.item.Some? && Pending(l.item.value.segments) == 0
    ensures !SafelyUp(Removed(Rushed(l), true))
  {
    var up := Created(Emitted(NewLane(createdAt), true), 1);
    EmittedAtOnceOk(NewLane(createdAt));
    assert up.item.value.segments[0].number == 0;
    UploadedOk(up, 0, true);
    var first := Uploaded(up, 0, true);
    l := Emitted(first, false);
    EmittedLaterOk(first);
    NonePending(l.item.value.segments);
    RushedFinishIsSafeIff(l);
    assert l.queue[0] == Append(1);
  }
}
