/** A running stage against the closing window: the grace loop, and the job it puts down. */
module StageWindow {
  import opened Arithmetic
  import opened Types
  import opened JobTable
  import opened Schedule
  import opened ScheduleProofs

  const MIN_DEFER: nat := 60
  const FALLBACK_DEFER: nat := 3600

  /** One instant, as the wall clock reads it and in UTC. */
  datatype Instant = Instant(local: int, utc: int)

  /** The wall clock runs with UTC (it is not set in between). */
  predicate InStep(a: Instant, b: Instant) {
    b.local - a.local == b.utc - a.utc
  }

  /** What the loop wakes for: the stage's end, or a look at the window at an instant. */
  datatype Event = StageEnds(ok: bool) | Check(at: Instant)

  /** `StillRunning`: the events so far decide nothing. */
  datatype StageOutcome = Finished(ok: bool) | WindowClosed(at: Instant, retryIn: nat) | StillRunning

  function DecisionAt(p: Policy, at: Instant): Decision
    requires |p.days| == 7
  {
    Decide(p, at.local, at.utc)
  }

  /** Wait until the next opening, but neither spin on a near one nor sleep for ever without one. */
  function RetryDelay(d: Decision): (delay: nat)
    ensures 60 <= delay
    ensures d.nextChange.Some? && d.nextChange.value > 0 ==>
              d.nextChange.value <= delay && (delay == d.nextChange.value || delay == 60)
    ensures d.nextChange.None? || d.nextChange.value <= 0 ==> delay == 3600
  {
    match d.nextChange
    case Some(secs) => if secs > 0 then Max(secs, MIN_DEFER) else FALLBACK_DEFER
    case None => FALLBACK_DEFER
  }

  ghost predicate Ordered(events: seq<Event>) {
    forall i, j | 0 <= i < j < |events| && events[i].Check? && events[j].Check? :: events[i].at.utc <= events[j].at.utc
  }

  ghost predicate ClosedCheck(p: Policy, e: Event)
    requires |p.days| == 7
  {
    e.Check? && !DecisionAt(p, e.at).allowed
  }

  /** Checks `lo` to `hi` all found the window closed. */
  ghost predicate ClosedRun(p: Policy, events: seq<Event>, lo: int, hi: int)
    requires |p.days| == 7
  {
    0 <= lo <= hi < |events| && forall k | lo <= k <= hi :: ClosedCheck(p, events[k])
  }

  /** At check `i`, an unbroken run of closed checks spans the grace period. */
  ghost predicate Overrun(p: Policy, events: seq<Event>, i: int)
    requires |p.days| == 7
  {
    exists lo :: ClosedRun(p, events, lo, i) && events[i].at.utc - events[lo].at.utc >= p.graceMinutes * 60
  }

  ghost predicate NoneEndsBefore(events: seq<Event>, n: int) {
    forall k | 0 <= k < n && k < |events| :: events[k].Check?
  }

  /** The loop goes past event `i` undecided. */
  ghost predicate Undecided(p: Policy, events: seq<Event>, i: int)
    requires |p.days| == 7 && 0 <= i < |events|
  {
    events[i].Check? && !Overrun(p, events, i)
  }

  /**
   The stage races the checks. It is abandoned exactly at the first check whose
   unbroken closed run spans the grace period, if it has not ended before.
   */
  method RunWithinWindow(p: Policy, kind: JobKind, events: seq<Event>) returns (o: StageOutcome)
    requires Normalized(p) && Ordered(events)
    ensures BypassesSchedule(kind) ==>
              && !o.WindowClosed?
              && (o.Finished? ==> exists i ::
                  0 <= i < |events| && events[i] == StageEnds(o.ok) && NoneEndsBefore(events, i))
              && (o.StillRunning? ==> NoneEndsBefore(events, |events|))
    ensures !BypassesSchedule(kind) && o.WindowClosed? ==>
              exists i :: 0 <= i < |events| && Overrun(p, events, i)
                          && (forall k | 0 <= k < i :: Undecided(p, events, k))
                          && o == WindowClosed(events[i].at, RetryDelay(DecisionAt(p, events[i].at)))
    ensures !BypassesSchedule(kind) && o.Finished? ==>
              exists i :: 0 <= i < |events| && events[i] == StageEnds(o.ok)
                          && forall k | 0 <= k < i :: Undecided(p, events, k)
    ensures !BypassesSchedule(kind) && o.StillRunning? ==>
              forall k | 0 <= k < |events| :: Undecided(p, events, k)
  {
    var i := 0;
    if BypassesSchedule(kind) {
      while i < |events| && !events[i].StageEnds?
        invariant 0 <= i <= |events| && NoneEndsBefore(events, i)
      {
        i := i + 1;
      }
      return if i < |events| then Finished(events[i].ok) else StillRunning;
    }
    var closedSince: Option<int> := None;
    ghost var lo := 0;
    while i < |events|
      invariant 0 <= lo <= i <= |events|
      invariant forall k | 0 <= k < i :: Undecided(p, events, k)
      invariant closedSince.None? <==> lo == i
      invariant closedSince.Some? ==> ClosedRun(p, events, lo, i - 1) && closedSince.value == events[lo].at.utc
      invariant lo > 0 ==> !ClosedCheck(p, events[lo - 1])
    {
      if events[i].StageEnds? {
        return Finished(events[i].ok);
      }
      var at := events[i].at;
      var decision := DecisionAt(p, at);
      if decision.allowed {
        closedSince := None;
        i := i + 1;
        lo := i;
      } else {
        var since := if closedSince.Some? then closedSince.value else at.utc;
        closedSince := Some(since);
        assert ClosedRun(p, events, lo, i);
        if at.utc - since >= p.graceMinutes * 60 {
          assert Overrun(p, events, i);
          return WindowClosed(at, RetryDelay(decision));
        }
        NoOverrunYet(p, events, lo, i);
        i := i + 1;
      }
    }
    return StillRunning;
  }

  /** The longest closed run ending here decides. */
  lemma NoOverrunYet(p: Policy, events: seq<Event>, lo: int, i: int)
    requires |p.days| == 7 && Ordered(events) && ClosedRun(p, events, lo, i)
    requires lo > 0 ==> !ClosedCheck(p, events[lo - 1])
    requires events[i].at.utc - events[lo].at.utc < p.graceMinutes * 60
    ensures !Overrun(p, events, i)
  {
    forall j | ClosedRun(p, events, j, i)
      ensures events[i].at.utc - events[j].at.utc < p.graceMinutes * 60
    {
      assert lo <= j;
      assert lo < j ==> events[lo].at.utc <= events[j].at.utc;
    }
  }

  /** `u` comes before the change reported at `at`. */
  ghost predicate BeforeChange(p: Policy, at: Instant, u: Instant)
    requires |p.days| == 7
  {
    DecisionAt(p, at).nextChange.None? || u.local - at.local < DecisionAt(p, at).nextChange.value
  }

  /** The job of a stage put down at `at`, deferred at `now`, is there to be claimed at `claimAt`. */
  ghost predicate ClaimableAgain(p: Policy, at: Instant, j: Job, now: int, claimAt: Instant, configured: seq<JobKind>)
    requires |p.days| == 7
  {
    var kinds := ClaimableKinds(configured, DecisionAt(p, claimAt));
    Claimable(DeferRow(j, RetryDelay(DecisionAt(p, at)), now), (set k | k in kinds), claimAt.utc)
  }

  /**
   A stage abandoned at `at` goes back with its attempts and is claimable exactly
   under an open verdict from the end of its delay on, never before the verdict changes.
   */
  lemma PutDownUntilReopening(p: Policy, at: Instant, j: Job, now: int, claimAt: Instant, configured: seq<JobKind>)
    requires Normalized(p) && at.utc <= now && InStep(at, claimAt) && !BypassesSchedule(j.kind)
    ensures DeferRow(j, RetryDelay(DecisionAt(p, at)), now).attempts == j.attempts
    ensures ClaimableAgain(p, at, j, now, claimAt, configured)
            <==> j.kind in configured && DecisionAt(p, claimAt).allowed
                 && now + RetryDelay(DecisionAt(p, at)) <= claimAt.utc
    ensures !DecisionAt(p, at).allowed && ClaimableAgain(p, at, j, now, claimAt, configured) ==>
              && at.utc + MIN_DEFER <= claimAt.utc && DecisionAt(p, claimAt).allowed
              && !BeforeChange(p, at, claimAt)
    ensures !DecisionAt(p, at).allowed ==>
              forall u | InStep(at, u) && at.utc <= u.utc && BeforeChange(p, at, u) :: !DecisionAt(p, u).allowed
  {
    if !DecisionAt(p, at).allowed {
      forall u | InStep(at, u) && at.utc <= u.utc && BeforeChange(p, at, u)
        ensures !DecisionAt(p, u).allowed
      {
        VerdictHoldsUntilChange(p, at.local, at.utc, u.local, u.utc);
      }
      if ClaimableAgain(p, at, j, now, claimAt, configured) {
        OpenAtClaim(j, now, claimAt.utc, configured, DecisionAt(p, at), DecisionAt(p, claimAt));
      }
    }
  }

  /** Only an open verdict lets a worker claim a kind that obeys the schedule. */
  lemma OpenAtClaim(j: Job, now: int, claimAt: int, configured: seq<JobKind>, closing: Decision, claiming: Decision)
    requires !BypassesSchedule(j.kind)
    requires Claimable(DeferRow(j, RetryDelay(closing), now), (set k | k in ClaimableKinds(configured, claiming)),
              claimAt)
    ensures claiming.allowed && now + RetryDelay(closing) <= claimAt
  {
  }
}
