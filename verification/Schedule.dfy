/**
 The processing schedule. Times are whole seconds; day 0 is a Monday, so day `d`
 is weekday `d % 7`. The fast form expands nine days of windows, sorts and merges
 them and looks the instant up.
 */
module Schedule {
  import opened Arithmetic
  import opened Types

  const MINUTES_PER_DAY: nat := 1440
  const LOOKAHEAD_DAYS: int := 8

  /** Edges in minutes after midnight; `end <= start` wraps into the next day. */
  datatype DayWindow = DayWindow(enabled: bool, start: nat, end: nat)

  const OFF := DayWindow(false, 540, 1020)

  function LengthMinutes(w: DayWindow): int {
    if w.end > w.start then w.end - w.start else MINUTES_PER_DAY - w.start + w.end
  }

  datatype OverrideMode = Run | Pause

  datatype Override = Override(mode: OverrideMode, until: int)

  /** The policy as a value; `ProcessingSchedule` below is the object that holds it. */
  datatype Policy = Policy(enabled: bool, days: seq<DayWindow>, graceMinutes: nat, active: Option<Override>)

  datatype Reason = Disabled | InWindow | OutsideWindow | OverrideRun | OverridePause

  datatype Decision = Decision(allowed: bool, reason: Reason, nextChange: Option<int>)

  /** A stretch of time, half open. */
  datatype Window = Window(start: int, end: int)

  // ---------------------------------------------------- normalized policies

  predicate Normalized(p: Policy) {
    && |p.days| == 7
    && (forall i | 0 <= i < 7 :: p.days[i].start <= MINUTES_PER_DAY && p.days[i].end <= MINUTES_PER_DAY)
    && p.graceMinutes <= 24 * 60
  }

  function Clamped(w: DayWindow): DayWindow {
    w.(start := Min(w.start, MINUTES_PER_DAY), end := Min(w.end, MINUTES_PER_DAY))
  }

  /** Day `i` of the normalized week: the stored one clamped, or an off day. */
  function NormalDay(days: seq<DayWindow>, i: nat): DayWindow {
    if i < |days| then Clamped(days[i]) else OFF
  }

  function NormalizedPolicy(p: Policy, now: int): Policy {
    Policy(p.enabled,
           seq(7, i requires 0 <= i < 7 => NormalDay(p.days, i)),
           Min(p.graceMinutes, 24 * 60),
           if p.active.Some? && p.active.value.until <= now then None else p.active)
  }

  // ------------------------------------------------------ concrete windows

  function Midnight(d: int): int {
    d * 86400
  }

  function DayOf(t: int): int {
    t / 86400
  }

  function DayAt(days: seq<DayWindow>, d: int): DayWindow
    requires |days| == 7
  {
    days[d % 7]
  }

  function ConcreteWindow(w: DayWindow, d: int): Window {
    var start := Midnight(d) + w.start * 60;
    Window(start, start + LengthMinutes(w) * 60)
  }

  /** The windows of the enabled days `lo <= d < hi`, in order. */
  function RawWindows(days: seq<DayWindow>, lo: int, hi: int): seq<Window>
    requires |days| == 7
    decreases hi - lo
  {
    if lo >= hi then []
    else
      var earlier := RawWindows(days, lo, hi - 1);
      if DayAt(days, hi - 1).enabled then earlier + [ConcreteWindow(DayAt(days, hi - 1), hi - 1)] else earlier
  }

  /** Stable insertion by start. */
  function InsertByStart(sorted: seq<Window>, w: Window): seq<Window> {
    if sorted == [] then [w]
    else if sorted[|sorted| - 1].start <= w.start then sorted + [w]
    else InsertByStart(sorted[..|sorted| - 1], w) + [sorted[|sorted| - 1]]
  }

  function SortByStart(ws: seq<Window>): seq<Window> {
    if ws == [] then [] else InsertByStart(SortByStart(ws[..|ws| - 1]), ws[|ws| - 1])
  }

  function MergeInto(merged: seq<Window>, w: Window): seq<Window> {
    if merged != [] && w.start <= merged[|merged| - 1].end then
      var last := merged[|merged| - 1];
      merged[..|merged| - 1] + [Window(last.start, Max(last.end, w.end))]
    else merged + [w]
  }

  function MergeAll(ws: seq<Window>): seq<Window> {
    if ws == [] then [] else MergeInto(MergeAll(ws[..|ws| - 1]), ws[|ws| - 1])
  }

  lemma MergeOneMore(ws: seq<Window>, i: nat)
    requires i < |ws|
    ensures MergeAll(ws[..i + 1]) == MergeInto(MergeAll(ws[..i]), ws[i])
  {
    assert ws[..i + 1][..i] == ws[..i];
  }

  function MergedWindows(days: seq<DayWindow>, anchor: int): seq<Window>
    requires |days| == 7
  {
    MergeAll(SortByStart(RawWindows(days, anchor - 1, anchor + LOOKAHEAD_DAYS)))
  }

  // -------------------------------------------------------------- decision

  predicate Contains(w: Window, t: int) {
    w.start <= t < w.end
  }

  function FirstContaining(ws: seq<Window>, t: int): Option<Window> {
    if ws == [] then None else if Contains(ws[0], t) then Some(ws[0]) else FirstContaining(ws[1..], t)
  }

  function FirstAfter(ws: seq<Window>, t: int): Option<Window> {
    if ws == [] then None else if ws[0].start > t then Some(ws[0]) else FirstAfter(ws[1..], t)
  }

  predicate LiveOverride(p: Policy, utc: int) {
    p.active.Some? && p.active.value.until > utc
  }

  /** `local` is the wall clock the windows are written in, `utc` the same instant for the override. */
  function Decide(p: Policy, local: int, utc: int): Decision
    requires |p.days| == 7
  {
    if LiveOverride(p, utc) then
      var run := p.active.value.mode.Run?;
      Decision(run, if run then OverrideRun else OverridePause, Some(Max(p.active.value.until - utc, 0)))
    else if !p.enabled then Decision(true, Disabled, None)
    else LookUp(MergedWindows(p.days, DayOf(local)), local)
  }

  /** Where the instant sits relative to the merged windows. */
  function LookUp(windows: seq<Window>, local: int): Decision {
    match FirstContaining(windows, local)
    case Some(w) => Decision(true, InWindow, Some(Max(w.end - local, 0)))
    case None =>
      var next := FirstAfter(windows, local);
      Decision(false, OutsideWindow, if next.Some? then Some(Max(next.value.start - local, 0)) else None)
  }

  /** The kinds a worker may claim under a decision, of those it is configured for. */
  function ClaimableKinds(configured: seq<JobKind>, d: Decision): (kinds: seq<JobKind>)
    ensures forall k :: k in kinds <==> k in configured && (d.allowed || BypassesSchedule(k))
  {
    if d.allowed then configured
    else if configured == [] then []
    else (if BypassesSchedule(configured[0]) then [configured[0]] else []) + ClaimableKinds(configured[1..], d)
  }

  // ---------------------------------------------------- the schedule object

  class ProcessingSchedule {
    var enabled: bool
    var days: seq<DayWindow>
    var graceMinutes: nat
    var activeOverride: Option<Override>

    function AsPolicy(): Policy
      reads this
    {
      Policy(enabled, days, graceMinutes, activeOverride)
    }

    constructor (p: Policy)
      ensures AsPolicy() == p
    {
      enabled, days, graceMinutes, activeOverride := p.enabled, p.days, p.graceMinutes, p.active;
    }

    /** Cut or padded to seven days with every edge within the day, the grace capped, an override over dropped. */
    method Normalize(now: int)
      modifies this
      ensures AsPolicy() == NormalizedPolicy(old(AsPolicy()), now)
      ensures enabled == old(enabled) && |days| == 7
      ensures forall i | 0 <= i < 7 ::
                if i < |old(days)| then
                  && days[i].enabled == old(days)[i].enabled
                  && days[i].start == (if old(days)[i].start > 1440 then 1440 else old(days)[i].start)
                  && days[i].end == (if old(days)[i].end > 1440 then 1440 else old(days)[i].end)
                else days[i] == DayWindow(false, 540, 1020)
      ensures graceMinutes == if old(graceMinutes) > 1440 then 1440 else old(graceMinutes)
      ensures activeOverride == if old(activeOverride).Some? && old(activeOverride).value.until <= now then None
                                else old(activeOverride)
    {
      ghost var was := days;
      days := if |days| > 7 then days[..7] else days;
      while |days| < 7
        invariant |days| <= 7 && Min(|was|, 7) <= |days|
        invariant forall i | 0 <= i < |days| :: days[i] == if i < |was| then was[i] else OFF
        invariant enabled == old(enabled) && graceMinutes == old(graceMinutes) && activeOverride == old(activeOverride)
      {
        days := days + [OFF];
      }
      var i := 0;
      while i < 7
        invariant 0 <= i <= 7 && |days| == 7
        invariant forall k | 0 <= k < i :: days[k] == NormalDay(was, k)
        invariant forall k | i <= k < 7 :: days[k] == if k < |was| then was[k] else OFF
        invariant enabled == old(enabled) && graceMinutes == old(graceMinutes) && activeOverride == old(activeOverride)
      {
        days := days[i := Clamped(days[i])];
        i := i + 1;
      }
      assert days == NormalizedPolicy(old(AsPolicy()), now).days;
      graceMinutes := Min(graceMinutes, 24 * 60);
      if activeOverride.Some? && activeOverride.value.until <= now {
        activeOverride := None;
      }
    }

    /** The loops: nine days pushed in order, sorted, merged into a growing list. */
    method Merged(anchor: int) returns (merged: seq<Window>)
      requires |days| == 7
      ensures merged == MergedWindows(days, anchor)
    {
      var out := Expanded(anchor);
      var sorted := SortByStart(out);
      merged := Joined(sorted);
    }

    method Expanded(anchor: int) returns (out: seq<Window>)
      requires |days| == 7
      ensures out == RawWindows(days, anchor - 1, anchor + LOOKAHEAD_DAYS)
    {
      out := [];
      var offset := -1;
      while offset < LOOKAHEAD_DAYS
        invariant -1 <= offset <= LOOKAHEAD_DAYS
        invariant out == RawWindows(days, anchor - 1, anchor + offset)
      {
        var day := days[(anchor + offset) % 7];
        if day.enabled {
          var start := Midnight(anchor + offset) + day.start * 60;
          out := out + [Window(start, start + LengthMinutes(day) * 60)];
        }
        offset := offset + 1;
      }
    }

    static method Joined(sorted: seq<Window>) returns (merged: seq<Window>)
      ensures merged == MergeAll(sorted)
    {
      merged := [];
      for i := 0 to |sorted|
        invariant merged == MergeAll(sorted[..i])
      {
        var w := sorted[i];
        MergeOneMore(sorted, i);
        assert MergeAll(sorted[..i + 1]) == MergeInto(merged, w);
        if merged != [] && w.start <= merged[|merged| - 1].end {
          var last := merged[|merged| - 1];
          merged := merged[|merged| - 1 := Window(last.start, Max(last.end, w.end))];
        } else {
          merged := merged + [w];
        }
      }
      assert sorted[..|sorted|] == sorted;
    }

    /** A live override decides alone; without one, a schedule that is off allows everything. */
    method DecideAt(local: int, utc: int) returns (d: Decision)
      requires |days| == 7
      ensures d == Decide(AsPolicy(), local, utc)
      ensures activeOverride.Some? && utc < activeOverride.value.until ==>
                && (d.allowed <==> activeOverride.value.mode == Run)
                && (d.reason == OverrideRun <==> activeOverride.value.mode == Run)
                && (d.reason == OverridePause <==> activeOverride.value.mode == Pause)
                && d.nextChange == Some(activeOverride.value.until - utc)
      ensures activeOverride.None? || activeOverride.value.until <= utc ==>
                && (!enabled ==> d.allowed && d.reason == Disabled && d.nextChange == None)
                && (enabled ==> d.reason == if d.allowed then InWindow else OutsideWindow)
    {
      if activeOverride.Some? && activeOverride.value.until > utc {
        var run := activeOverride.value.mode.Run?;
        return Decision(run, if run then OverrideRun else OverridePause,
                        Some(Max(activeOverride.value.until - utc, 0)));
      }
      if !enabled {
        return Decision(true, Disabled, None);
      }
      var windows := Merged(DayOf(local));
      d := LookedUp(windows, local);
    }

    static method LookedUp(windows: seq<Window>, local: int) returns (d: Decision)
      ensures d == LookUp(windows, local)
    {
      var inside := FirstContaining(windows, local);
      if inside.Some? {
        return Decision(true, InWindow, Some(Max(inside.value.end - local, 0)));
      }
      var next := FirstAfter(windows, local);
      return Decision(false, OutsideWindow, if next.Some? then Some(Max(next.value.start - local, 0)) else None);
    }
  }
}
