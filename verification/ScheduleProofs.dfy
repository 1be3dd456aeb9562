/** The fast schedule agrees with its plain meaning over the whole calendar, and its countdown is exact. */
module ScheduleProofs {
  import opened Arithmetic
  import opened Types
  import opened Schedule

  // ------------------------------------------------------ the plain meaning

  /** The window of calendar day `d` is on and contains `t`. */
  ghost predicate Covers(days: seq<DayWindow>, d: int, t: int)
    requires |days| == 7
  {
    DayAt(days, d).enabled && Contains(ConcreteWindow(DayAt(days, d), d), t)
  }

  /** Some day of the unbounded calendar covers `t`. */
  ghost predicate AllowedAt(days: seq<DayWindow>, t: int)
    requires |days| == 7
  {
    exists d: int :: Covers(days, d, t)
  }

  /** On day `d` from its start to its end, which is on the next day when it is no later than the start. */
  lemma CoversIff(days: seq<DayWindow>, d: int, t: int)
    requires |days| == 7
    ensures var w := days[d % 7];
            Covers(days, d, t) <==>
              && w.enabled && 86400 * d + 60 * w.start <= t
              && t < 86400 * (if w.end > w.start then d else d + 1) + 60 * w.end
  {
  }

  /** The clock reads `t` within today's window, or within what is left of one begun yesterday. */
  predicate AllowedByClock(days: seq<DayWindow>, t: int)
    requires |days| == 7
  {
    var second := t % 86400;
    var today, yesterday := days[(t / 86400) % 7], days[(t / 86400 - 1) % 7];
    || (today.enabled && 60 * today.start <= second && (second < 60 * today.end || today.end <= today.start))
    || (yesterday.enabled && yesterday.end <= yesterday.start && second < 60 * yesterday.end)
  }

  /** The unbounded calendar, read off the clock. */
  lemma AllowedIff(days: seq<DayWindow>, t: int)
    requires Week(days)
    ensures AllowedAt(days, t) <==> AllowedByClock(days, t)
  {
    var d := t / 86400;
    CoversIff(days, d, t);
    CoversIff(days, d - 1, t);
    if e: int :| Covers(days, e, t) {
      CoveredByRecentDay(days, e, t);
    }
    assert AllowedByClock(days, t) ==> Covers(days, d, t) || Covers(days, d - 1, t);
  }

  ghost predicate InSome(ws: seq<Window>, t: int) {
    exists w :: w in ws && Contains(w, t)
  }

  // ------------------------------------------------------------ normalizing

  lemma NormalizeNormalizes(p: Policy, now: int)
    ensures Normalized(NormalizedPolicy(p, now))
    ensures NormalizedPolicy(NormalizedPolicy(p, now), now) == NormalizedPolicy(p, now)
    ensures Normalized(p) && (p.active.None? || LiveOverride(p, now)) ==> NormalizedPolicy(p, now) == p
  {
    var q := NormalizedPolicy(p, now);
    assert NormalizedPolicy(q, now).days == q.days;
    if Normalized(p) {
      assert q.days == p.days;
    }
  }

  // ---------------------------------------------------------------- sorting

  ghost predicate Sorted(ws: seq<Window>) {
    forall i, j | 0 <= i < j < |ws| :: ws[i].start <= ws[j].start
  }

  lemma {:induction false} InsertKeeps(sorted: seq<Window>, w: Window, x: Window)
    ensures x in InsertByStart(sorted, w) <==> x in sorted || x == w
  {
    if sorted != [] && sorted[|sorted| - 1].start > w.start {
      var front := sorted[..|sorted| - 1];
      InsertKeeps(front, w, x);
      assert sorted == front + [sorted[|sorted| - 1]];
    }
  }

  lemma {:induction false} InsertSorts(sorted: seq<Window>, w: Window)
    requires Sorted(sorted)
    ensures Sorted(InsertByStart(sorted, w))
  {
    if sorted != [] && sorted[|sorted| - 1].start > w.start {
      var front := sorted[..|sorted| - 1];
      InsertSorts(front, w);
      forall x | x in InsertByStart(front, w)
        ensures x.start <= sorted[|sorted| - 1].start
      {
        InsertKeeps(front, w, x);
      }
    }
  }

  lemma {:induction false} SortSorts(ws: seq<Window>)
    ensures Sorted(SortByStart(ws))
    ensures forall x :: x in SortByStart(ws) <==> x in ws
  {
    if ws != [] {
      var front := ws[..|ws| - 1];
      SortSorts(front);
      InsertSorts(SortByStart(front), ws[|ws| - 1]);
      assert ws == front + [ws[|ws| - 1]];
      forall x
        ensures x in SortByStart(ws) <==> x in ws
      {
        InsertKeeps(SortByStart(front), ws[|ws| - 1], x);
      }
    }
  }

  // ---------------------------------------------------------------- merging

  /** In order, with a gap between any two. */
  ghost predicate Separated(ws: seq<Window>) {
    && (forall i | 0 <= i < |ws| :: ws[i].start <= ws[i].end)
    && (forall i, j | 0 <= i < j < |ws| :: ws[i].end < ws[j].start)
  }

  ghost predicate Proper(ws: seq<Window>) {
    forall w | w in ws :: w.start <= w.end
  }

  /** Each window lies within one of the merged ones. */
  ghost predicate Absorbed(ws: seq<Window>, merged: seq<Window>) {
    forall w | w in ws :: exists m :: m in merged && m.start <= w.start && w.end <= m.end
  }

  /** Every merged window starts where one of the originals does. */
  ghost predicate StartsFrom(m: seq<Window>, ws: seq<Window>) {
    forall x | x in m :: exists w :: w in ws && w.start == x.start
  }

  ghost predicate SameUnion(ws: seq<Window>, m: seq<Window>) {
    forall t :: InSome(ws, t) <==> InSome(m, t)
  }

  /** Merging introduces no later start. */
  lemma {:induction false} MergeStartsBy(ws: seq<Window>, bound: int)
    requires forall w | w in ws :: w.start <= bound
    ensures forall x | x in MergeAll(ws) :: x.start <= bound
  {
    if ws != [] {
      var w := ws[|ws| - 1];
      var front := ws[..|ws| - 1];
      MergeStartsBy(front, bound);
      var m := MergeAll(front);
      if m != [] { assert m[|m| - 1] in m; }
      assert w in ws;
    }
  }

  /** What is known of the list before its last window is merged in. */
  lemma LastStartsLast(ws: seq<Window>)
    requires Sorted(ws) && ws != []
    ensures ws == ws[..|ws| - 1] + [ws[|ws| - 1]] && Sorted(ws[..|ws| - 1])
    ensures forall x | x in MergeAll(ws[..|ws| - 1]) :: x.start <= ws[|ws| - 1].start
  {
    MergeStartsBy(ws[..|ws| - 1], ws[|ws| - 1].start);
  }

  lemma {:induction false} MergeSeparates(ws: seq<Window>)
    requires Sorted(ws) && Proper(ws)
    ensures Separated(MergeAll(ws))
  {
    if ws != [] {
      LastStartsLast(ws);
      MergeSeparates(ws[..|ws| - 1]);
      assert ws[|ws| - 1] in ws;
      MergeStaysSeparated(MergeAll(ws[..|ws| - 1]), ws[|ws| - 1]);
    }
  }

  /** Merging a sorted list loses no instant and adds none. */
  lemma {:induction false} MergeKeepsUnion(ws: seq<Window>)
    requires Sorted(ws)
    ensures SameUnion(ws, MergeAll(ws))
  {
    if ws != [] {
      LastStartsLast(ws);
      MergeKeepsUnion(ws[..|ws| - 1]);
      MergeUnites(ws[..|ws| - 1], MergeAll(ws[..|ws| - 1]), ws[|ws| - 1]);
    }
  }

  lemma {:induction false} MergeAbsorbsAll(ws: seq<Window>)
    requires Sorted(ws)
    ensures Absorbed(ws, MergeAll(ws)) && StartsFrom(MergeAll(ws), ws)
  {
    if ws != [] {
      LastStartsLast(ws);
      MergeAbsorbsAll(ws[..|ws| - 1]);
      MergeAbsorbs(ws[..|ws| - 1], MergeAll(ws[..|ws| - 1]), ws[|ws| - 1]);
      MergeStarts(ws[..|ws| - 1], MergeAll(ws[..|ws| - 1]), ws[|ws| - 1]);
    }
  }

  lemma MergeUnites(front: seq<Window>, m: seq<Window>, w: Window)
    requires SameUnion(front, m) && forall x | x in m :: x.start <= w.start
    ensures SameUnion(front + [w], MergeInto(m, w))
  {
    forall t
      ensures InSome(front + [w], t) <==> InSome(MergeInto(m, w), t)
    {
      MergePointwise(m, w, t);
      InSomeAppend(front, w, t);
    }
  }

  lemma InSomeAppend(front: seq<Window>, w: Window, t: int)
    ensures InSome(front + [w], t) <==> InSome(front, t) || Contains(w, t)
  {
    assert w in front + [w];
    if x :| x in front && Contains(x, t) { assert x in front + [w]; }
  }

  lemma MergeStarts(front: seq<Window>, m: seq<Window>, w: Window)
    requires StartsFrom(m, front)
    ensures StartsFrom(MergeInto(m, w), front + [w])
  {
    var m' := MergeInto(m, w);
    assert w in front + [w];
    forall x | x in m'
      ensures exists o :: o in front + [w] && o.start == x.start
    {
      if x.start != w.start {
        var y :| y in m && y.start == x.start;
        var o :| o in front && o.start == y.start;
        assert o in front + [w];
      }
    }
  }

  lemma MergeStaysSeparated(m: seq<Window>, w: Window)
    requires Separated(m) && w.start <= w.end && forall x | x in m :: x.start <= w.start
    ensures Separated(MergeInto(m, w))
  {
    if m != [] { assert m[|m| - 1] in m; }
  }

  lemma MergeAbsorbs(front: seq<Window>, m: seq<Window>, w: Window)
    requires Absorbed(front, m) && forall x | x in m :: x.start <= w.start
    ensures Absorbed(front + [w], MergeInto(m, w))
  {
    var m' := MergeInto(m, w);
    var last' := m'[|m'| - 1];
    assert last' in m';
    forall x | x in front + [w]
      ensures exists y :: y in m' && y.start <= x.start && x.end <= y.end
    {
      if x in front {
        var y :| y in m && y.start <= x.start && x.end <= y.end;
        var i :| 0 <= i < |m| && m[i] == y;
        if i < |m| - 1 { assert m'[i] == y; } else { assert m'[i].start == y.start; assert m'[i] in m'; }
      } else if m != [] {
        assert m[|m| - 1] in m;
      }
    }
  }

  lemma MergePointwise(m: seq<Window>, w: Window, t: int)
    requires forall x | x in m :: x.start <= w.start
    ensures InSome(MergeInto(m, w), t) <==> InSome(m, t) || Contains(w, t)
  {
    var m' := MergeInto(m, w);
    if m != [] && w.start <= m[|m| - 1].end {
      var last := m[|m| - 1];
      var both := Window(last.start, Max(last.end, w.end));
      assert last in m && both in m';
      assert Contains(both, t) <==> Contains(last, t) || Contains(w, t);
      forall x | x in m && x != last
        ensures x in m'
      {
        var i :| 0 <= i < |m| && m[i] == x;
        assert m'[i] == x;
      }
      forall x | x in m' && x != both
        ensures x in m
      {
        var i :| 0 <= i < |m'| && m'[i] == x;
        assert m[i] == x;
      }
    } else {
      assert w in m';
      assert forall x :: x in m' <==> x in m || x == w;
    }
  }

  // ----------------------------------------------------- nine days suffice

  ghost predicate Week(days: seq<DayWindow>) {
    |days| == 7 && forall i | 0 <= i < 7 :: days[i].start <= MINUTES_PER_DAY && days[i].end <= MINUTES_PER_DAY
  }

  /** `w` is the window of calendar day `d`, which is on. */
  ghost predicate IsWindowOf(days: seq<DayWindow>, d: int, w: Window)
    requires |days| == 7
  {
    DayAt(days, d).enabled && w == ConcreteWindow(DayAt(days, d), d)
  }

  lemma {:induction false} RawIsVisited(days: seq<DayWindow>, lo: int, hi: int, w: Window)
    requires |days| == 7
    ensures w in RawWindows(days, lo, hi) <==> (exists d: int :: lo <= d < hi && IsWindowOf(days, d, w))
    decreases hi - lo
  {
    if lo < hi {
      RawIsVisited(days, lo, hi - 1, w);
      if d: int :| lo <= d < hi && IsWindowOf(days, d, w) {
        assert d < hi - 1 || d == hi - 1;
      }
      assert IsWindowOf(days, hi - 1, w) ==> lo <= hi - 1 < hi;
    }
  }

  /** Where a day's window can lie. */
  lemma WindowBounds(days: seq<DayWindow>, d: int)
    requires Week(days)
    ensures var w := ConcreteWindow(DayAt(days, d), d);
            && Midnight(d) <= w.start <= Midnight(d + 1)
            && w.start <= w.end <= Midnight(d + 2) && w.end <= w.start + 86400
  {
  }

  /** Only yesterday's and today's windows can contain `t`. */
  lemma CoveredByRecentDay(days: seq<DayWindow>, d: int, t: int)
    requires Week(days) && Covers(days, d, t)
    ensures DayOf(t) - 1 <= d <= DayOf(t)
  {
    WindowBounds(days, d);
  }

  ghost predicate CoveredWithin(days: seq<DayWindow>, lo: int, hi: int, t: int)
    requires |days| == 7
  {
    exists d: int :: lo <= d < hi && Covers(days, d, t)
  }

  /**
   `m` is a faithful table of the days from yesterday to a week from now: ordered, strictly apart,
   the same instants.
   */
  ghost predicate Faithful(days: seq<DayWindow>, anchor: int, m: seq<Window>)
    requires |days| == 7
  {
    && Separated(m)
    && forall t :: InSome(m, t) <==> CoveredWithin(days, anchor - 1, anchor + LOOKAHEAD_DAYS, t)
  }

  /** Each window of a day visited lies within one of `m` … */
  ghost predicate HoldsDays(days: seq<DayWindow>, anchor: int, m: seq<Window>)
    requires |days| == 7
  {
    forall d: int, w | Visited(anchor, d) && IsWindowOf(days, d, w) :: Within(m, w)
  }

  /** … and each of `m` starts with one of a day. */
  ghost predicate StartsInDays(days: seq<DayWindow>, anchor: int, m: seq<Window>)
    requires |days| == 7
  {
    forall x | x in m :: StartsADay(days, anchor, x)
  }

  ghost predicate Within(m: seq<Window>, w: Window) {
    exists x :: x in m && x.start <= w.start && w.end <= x.end
  }

  ghost predicate StartsADay(days: seq<DayWindow>, anchor: int, x: Window)
    requires |days| == 7
  {
    exists d: int, w :: Visited(anchor, d) && IsWindowOf(days, d, w) && w.start == x.start
  }

  predicate Visited(anchor: int, d: int) {
    anchor - 1 <= d < anchor + LOOKAHEAD_DAYS
  }

  /** The list holds exactly the windows of the days visited. */
  ghost predicate ListsVisited(days: seq<DayWindow>, anchor: int, ws: seq<Window>)
    requires |days| == 7
  {
    forall w :: w in ws <==> exists d: int :: Visited(anchor, d) && IsWindowOf(days, d, w)
  }

  /** What the loops compute is such a table. */
  lemma MergedIsFaithful(days: seq<DayWindow>, anchor: int)
    requires Week(days)
    ensures var m := MergedWindows(days, anchor);
            Faithful(days, anchor, m) && HoldsDays(days, anchor, m) && StartsInDays(days, anchor, m)
  {
    var raw := RawWindows(days, anchor - 1, anchor + LOOKAHEAD_DAYS);
    RawListsVisited(days, anchor, raw);
    SortSorts(raw);
    MergeIsFaithful(days, anchor, SortByStart(raw));
  }

  lemma RawListsVisited(days: seq<DayWindow>, anchor: int, raw: seq<Window>)
    requires Week(days) && raw == RawWindows(days, anchor - 1, anchor + LOOKAHEAD_DAYS)
    ensures ListsVisited(days, anchor, raw)
  {
    forall w
      ensures w in raw <==> exists d: int :: Visited(anchor, d) && IsWindowOf(days, d, w)
    {
      RawIsVisited(days, anchor - 1, anchor + LOOKAHEAD_DAYS, w);
      if d: int :| anchor - 1 <= d < anchor + LOOKAHEAD_DAYS && IsWindowOf(days, d, w) { assert Visited(anchor, d); }
    }
  }

  lemma MergeIsFaithful(days: seq<DayWindow>, anchor: int, ws: seq<Window>)
    requires Week(days) && Sorted(ws) && ListsVisited(days, anchor, ws)
    ensures var m := MergeAll(ws);
            Faithful(days, anchor, m) && HoldsDays(days, anchor, m) && StartsInDays(days, anchor, m)
  {
    VisitedAreProper(days, anchor, ws);
    MergeSeparates(ws);
    MergeKeepsUnion(ws);
    MergeAbsorbsAll(ws);
    FaithfulFrom(days, anchor, ws, MergeAll(ws));
    HoldsFrom(days, anchor, ws, MergeAll(ws));
    StartsInFrom(days, anchor, ws, MergeAll(ws));
  }

  lemma VisitedAreProper(days: seq<DayWindow>, anchor: int, ws: seq<Window>)
    requires Week(days) && ListsVisited(days, anchor, ws)
    ensures Proper(ws)
  {
    forall w | w in ws
      ensures w.start <= w.end
    {
      var d: int :| Visited(anchor, d) && IsWindowOf(days, d, w);
      WindowBounds(days, d);
    }
  }

  lemma FaithfulFrom(days: seq<DayWindow>, anchor: int, ws: seq<Window>, m: seq<Window>)
    requires Week(days) && ListsVisited(days, anchor, ws) && Separated(m) && SameUnion(ws, m)
    ensures Faithful(days, anchor, m)
  {
    forall t
      ensures InSome(m, t) <==> CoveredWithin(days, anchor - 1, anchor + LOOKAHEAD_DAYS, t)
    {
      VisitedPointwise(days, anchor, ws, t);
    }
  }

  lemma HoldsFrom(days: seq<DayWindow>, anchor: int, ws: seq<Window>, m: seq<Window>)
    requires Week(days) && ListsVisited(days, anchor, ws) && Absorbed(ws, m)
    ensures HoldsDays(days, anchor, m)
  {
    forall d: int, w | Visited(anchor, d) && IsWindowOf(days, d, w)
      ensures Within(m, w)
    {
      assert w in ws;
    }
  }

  lemma StartsInFrom(days: seq<DayWindow>, anchor: int, ws: seq<Window>, m: seq<Window>)
    requires Week(days) && ListsVisited(days, anchor, ws) && StartsFrom(m, ws)
    ensures StartsInDays(days, anchor, m)
  {
    forall x | x in m
      ensures StartsADay(days, anchor, x)
    {
      var w :| w in ws && w.start == x.start;
      var d: int :| Visited(anchor, d) && IsWindowOf(days, d, w);
    }
  }

  lemma VisitedPointwise(days: seq<DayWindow>, anchor: int, ws: seq<Window>, t: int)
    requires |days| == 7 && ListsVisited(days, anchor, ws)
    ensures InSome(ws, t) <==> CoveredWithin(days, anchor - 1, anchor + LOOKAHEAD_DAYS, t)
  {
    if InSome(ws, t) {
      var w :| w in ws && Contains(w, t);
      var d: int :| Visited(anchor, d) && IsWindowOf(days, d, w);
      assert Covers(days, d, t);
    }
    if d: int :| anchor - 1 <= d < anchor + LOOKAHEAD_DAYS && Covers(days, d, t) {
      assert Visited(anchor, d) && IsWindowOf(days, d, ConcreteWindow(DayAt(days, d), d));
    }
  }

  // ---------------------------------------------------------------- lookup

  lemma {:induction false} FirstContainingFinds(ws: seq<Window>, t: int)
    ensures FirstContaining(ws, t).Some? <==> InSome(ws, t)
    ensures FirstContaining(ws, t).Some? ==>
              FirstContaining(ws, t).value in ws && Contains(FirstContaining(ws, t).value, t)
  {
    if ws != [] {
      FirstContainingFinds(ws[1..], t);
      assert forall w :: w in ws <==> w == ws[0] || w in ws[1..];
    }
  }

  lemma {:induction false} FirstAfterFinds(ws: seq<Window>, t: int)
    requires Separated(ws)
    ensures FirstAfter(ws, t).None? <==> forall w | w in ws :: w.start <= t
    ensures FirstAfter(ws, t).Some? ==>
              var n := FirstAfter(ws, t).value;
              n in ws && n.start > t && forall w | w in ws :: w.start <= t || n.start <= w.start
  {
    if ws != [] {
      FirstAfterFinds(ws[1..], t);
      assert forall w :: w in ws <==> w == ws[0] || w in ws[1..];
    }
  }

  // ---------------------------------------- facts of a faithful table

  /** Nothing touches the end of a separated window. */
  lemma EndIsOutside(ws: seq<Window>, w: Window)
    requires Separated(ws) && w in ws
    ensures !InSome(ws, w.end)
  {
    forall x | x in ws
      ensures !Contains(x, w.end)
    {
      var i :| 0 <= i < |ws| && ws[i] == w;
      var j :| 0 <= j < |ws| && ws[j] == x;
      assert i < j ==> w.end < x.start;
      assert j < i ==> x.end < w.start <= w.end;
    }
  }

  /** The table answers for the whole calendar from its anchor day to the last day it visits. */
  lemma TableAnswers(days: seq<DayWindow>, anchor: int, m: seq<Window>, t: int)
    requires Week(days) && Faithful(days, anchor, m)
    requires Midnight(anchor) <= t < Midnight(anchor + LOOKAHEAD_DAYS)
    ensures AllowedAt(days, t) <==> InSome(m, t)
  {
    if d: int :| Covers(days, d, t) {
      CoveredByRecentDay(days, d, t);
      assert CoveredWithin(days, anchor - 1, anchor + LOOKAHEAD_DAYS, t);
    }
  }

  /** No window of the table reaches past the second midnight after the last day visited. */
  lemma TableEndsSoon(days: seq<DayWindow>, anchor: int, m: seq<Window>, w: Window)
    requires Week(days) && Faithful(days, anchor, m) && StartsInDays(days, anchor, m) && w in m
    ensures w.end <= Midnight(anchor + LOOKAHEAD_DAYS + 1)
    ensures w.start <= Midnight(anchor + LOOKAHEAD_DAYS)
  {
    assert StartsADay(days, anchor, w);
    var d: int, x :| Visited(anchor, d) && IsWindowOf(days, d, x) && x.start == w.start;
    WindowBounds(days, d);
    assert w.start <= w.end;
    if w.start < w.end {
      assert Contains(w, w.end - 1);
      assert InSome(m, w.end - 1);
      var e: int :| anchor - 1 <= e < anchor + LOOKAHEAD_DAYS && Covers(days, e, w.end - 1);
      WindowBounds(days, e);
    }
  }

  /** At the end of a window the calendar is shut, but for the first days not visited. */
  lemma EndOfTableWindow(days: seq<DayWindow>, anchor: int, m: seq<Window>, w: Window)
    requires Week(days) && Faithful(days, anchor, m) && StartsInDays(days, anchor, m) && w in m
              && Midnight(anchor) <= w.end
    ensures var edge := anchor + LOOKAHEAD_DAYS;
            && (AllowedAt(days, w.end) <==> Covers(days, edge, w.end) || Covers(days, edge + 1, w.end))
            && (AllowedAt(days, w.end) ==> Midnight(edge) <= w.end)
  {
    EndIsOutside(m, w);
    TableEndsSoon(days, anchor, m, w);
    if d: int :| Covers(days, d, w.end) {
      assert !CoveredWithin(days, anchor - 1, anchor + LOOKAHEAD_DAYS, w.end);
      BeyondTable(days, anchor, d, w.end);
    }
  }

  lemma BeyondTable(days: seq<DayWindow>, anchor: int, d: int, t: int)
    requires Week(days) && Covers(days, d, t) && !(anchor - 1 <= d < anchor + LOOKAHEAD_DAYS)
    requires Midnight(anchor) <= t <= Midnight(anchor + LOOKAHEAD_DAYS + 1)
    ensures d == anchor + LOOKAHEAD_DAYS || d == anchor + LOOKAHEAD_DAYS + 1
    ensures Midnight(anchor + LOOKAHEAD_DAYS) <= t
  {
    CoveredByRecentDay(days, d, t);
  }

  /** On, and of no length: from the last minute of the day to its first. */
  predicate Vanishing(w: DayWindow) {
    w.enabled && w.start == MINUTES_PER_DAY && w.end == 0
  }

  /** A midnight at which only the day before "opens", with a window of no length. */
  predicate FalseOpening(days: seq<DayWindow>, t: int)
    requires |days| == 7
  {
    var d := DayOf(t);
    t == Midnight(d) && Vanishing(DayAt(days, d - 1)) && !(DayAt(days, d).enabled && DayAt(days, d).start == 0)
  }

  /** Where some day's window starts, the calendar is open exactly when that is no false opening. */
  lemma StartOpensIff(days: seq<DayWindow>, d: int, w: Window)
    requires Week(days) && IsWindowOf(days, d, w)
    ensures AllowedAt(days, w.start) <==> !FalseOpening(days, w.start)
  {
    ZeroLengthIff(DayAt(days, d));
    if !AllowedAt(days, w.start) {
      assert !Covers(days, d, w.start);
      assert w.start == Midnight(d + 1) && DayOf(w.start) == d + 1;
      ZeroLengthIff(DayAt(days, d + 1));
      assert !Covers(days, d + 1, w.start);
    } else if FalseOpening(days, w.start) {
      NothingOpensFalsely(days, w.start);
    }
  }

  lemma NothingOpensFalsely(days: seq<DayWindow>, t: int)
    requires Week(days) && FalseOpening(days, t)
    ensures !AllowedAt(days, t)
  {
    if d: int :| Covers(days, d, t) { CoveredByRecentDay(days, d, t); }
  }

  /**
   The next start after an uncovered instant: nothing opens before it, and the calendar opens at it
   unless falsely.
   */
  lemma NextStart(days: seq<DayWindow>, anchor: int, m: seq<Window>, t: int, next: Window, u: int)
    requires Week(days) && Faithful(days, anchor, m) && StartsInDays(days, anchor, m) && DayOf(t) == anchor
              && !InSome(m, t)
    requires next in m && next.start > t && forall w | w in m :: w.start <= t || next.start <= w.start
    ensures t <= u < next.start ==> !AllowedAt(days, u)
    ensures AllowedAt(days, next.start) <==> !FalseOpening(days, next.start)
  {
    TableEndsSoon(days, anchor, m, next);
    if t <= u < next.start {
      TableAnswers(days, anchor, m, u);
      if w :| w in m && Contains(w, u) { assert Contains(w, t); }
    }
    assert StartsADay(days, anchor, next);
    var d: int, w :| Visited(anchor, d) && IsWindowOf(days, d, w) && w.start == next.start;
    StartOpensIff(days, d, w);
  }

  /** A window that starts later belongs to a day that is on … */
  lemma LaterStartHasDay(days: seq<DayWindow>, anchor: int, m: seq<Window>, w: Window)
    requires Week(days) && StartsInDays(days, anchor, m) && w in m
    ensures exists i :: 0 <= i < 7 && days[i].enabled
  {
    assert StartsADay(days, anchor, w);
    var d: int, x :| Visited(anchor, d) && IsWindowOf(days, d, x) && x.start == w.start;
    assert 0 <= d % 7 < 7 && days[d % 7] == DayAt(days, d);
  }

  /** … and every day that is on comes up, later, within the days visited. */
  lemma DayHasLaterStart(days: seq<DayWindow>, anchor: int, m: seq<Window>, t: int, i: nat)
    requires Week(days) && HoldsDays(days, anchor, m) && DayOf(t) == anchor && !InSome(m, t)
    requires i < 7 && days[i].enabled
    ensures exists w :: w in m && w.start > t
  {
    var d := WeekdayComesUp(anchor, i);
    WindowBounds(days, d);
    var w := ConcreteWindow(DayAt(days, d), d);
    assert Visited(anchor, d) && IsWindowOf(days, d, w);
    assert Within(m, w);
    var x :| x in m && x.start <= w.start && w.end <= x.end;
    assert x.start <= t ==> Contains(x, t);
  }

  lemma WeekdayComesUp(anchor: int, i: nat) returns (d: int)
    requires i < 7
    ensures anchor < d <= anchor + 7 && d % 7 == i
  {
    d := anchor + 1 + (i - (anchor + 1)) % 7;
  }

  /** The only window of no length, although it is a valid setting. */
  lemma ZeroLengthIff(w: DayWindow)
    requires w.start <= MINUTES_PER_DAY && w.end <= MINUTES_PER_DAY
    ensures LengthMinutes(w) == 0 <==> w.start == MINUTES_PER_DAY && w.end == 0
    ensures 0 <= LengthMinutes(w) <= MINUTES_PER_DAY
  {
  }

  // -------------------------------------------------------------- theorems

  lemma LookUpFinds(m: seq<Window>, local: int)
    requires Separated(m)
    ensures var d := LookUp(m, local);
            && (d.allowed <==> InSome(m, local))
            && (d.allowed ==> exists w :: w in m && Contains(w, local) && d.nextChange == Some(w.end - local))
            && (!d.allowed && d.nextChange.None? ==> forall w | w in m :: w.start <= local)
            && (!d.allowed && d.nextChange.Some? ==>
                  exists n :: n in m && n.start > local && d.nextChange == Some(n.start - local)
                              && forall w | w in m :: w.start <= local || n.start <= w.start)
  {
    FirstContainingFinds(m, local);
    FirstAfterFinds(m, local);
  }

  /** The table a decision looks the instant up in. */
  lemma DecideLooksUp(p: Policy, local: int, utc: int) returns (m: seq<Window>)
    requires Normalized(p) && p.enabled && !LiveOverride(p, utc)
    ensures m == MergedWindows(p.days, DayOf(local)) && Decide(p, local, utc) == LookUp(m, local)
    ensures Faithful(p.days, DayOf(local), m) && StartsInDays(p.days, DayOf(local), m)
  {
    m := MergedWindows(p.days, DayOf(local));
    MergedIsFaithful(p.days, DayOf(local));
  }

  /** With the schedule on and no live override, the verdict is the plain meaning. */
  lemma DecideMeansCovered(p: Policy, local: int, utc: int)
    requires Normalized(p) && p.enabled && !LiveOverride(p, utc)
    ensures Decide(p, local, utc).allowed <==> AllowedAt(p.days, local)
  {
    var m := DecideLooksUp(p, local, utc);
    LookUpFinds(m, local);
    TableAnswers(p.days, DayOf(local), m, local);
  }

  /** The whole decision: a live override outranks the schedule, and a schedule that is off allows everything. */
  lemma DecisionIs(p: Policy, local: int, utc: int)
    requires Normalized(p)
    ensures var d := Decide(p, local, utc);
            if p.active.Some? && utc < p.active.value.until then
              && (d.allowed <==> p.active.value.mode == Run)
              && d.reason == (match p.active.value.mode case Run => OverrideRun case Pause => OverridePause)
              && d.nextChange == Some(p.active.value.until - utc)
            else if !p.enabled then d == Decision(true, Disabled, None)
            else (d.allowed <==> AllowedByClock(p.days, local))
                 && d.reason == if AllowedByClock(p.days, local) then InWindow else OutsideWindow
  {
    if !LiveOverride(p, utc) && p.enabled {
      DecideMeansCovered(p, local, utc);
      AllowedIff(p.days, local);
    }
  }

  /** From the end of an override on, the policy decides as if it had never been set. */
  lemma OverrideLapses(p: Policy, local: int, utc: int, o: Override)
    requires Normalized(p) && p.active == Some(o) && o.until <= utc
    ensures Decide(p, local, utc) == Decide(p.(active := None), local, utc)
  {
  }

  /** Everything a countdown from an open instant promises. */
  ghost predicate OpenUntil(days: seq<DayWindow>, local: int, change: int)
    requires |days| == 7
  {
    var edge := DayOf(local) + 8;
    && local < change
    && (forall u | local <= u < change :: AllowedAt(days, u))
    && (AllowedAt(days, change) <==> Covers(days, edge, change) || Covers(days, edge + 1, change))
    && (AllowedAt(days, change) ==> Midnight(edge) <= change)
  }

  lemma TableWindowOpenUntil(days: seq<DayWindow>, local: int, m: seq<Window>, w: Window)
    requires Week(days) && Faithful(days, DayOf(local), m) && StartsInDays(days, DayOf(local), m) && w in m
              && Contains(w, local)
    ensures OpenUntil(days, local, w.end)
  {
    forall u | local <= u < w.end
      ensures AllowedAt(days, u)
    {
      assert Contains(w, u);
      assert InSome(m, u);
    }
    EndOfTableWindow(days, DayOf(local), m, w);
  }

  /**
   Open: allowed until the reported change; and at it closed, unless the merged
   window ran to the edge of the days visited and the first day beyond carries on.
   */
  lemma OpenCountdown(p: Policy, local: int, utc: int)
    requires Normalized(p) && p.enabled && !LiveOverride(p, utc) && Decide(p, local, utc).allowed
    ensures Decide(p, local, utc).nextChange.Some?
    ensures OpenUntil(p.days, local, local + Decide(p, local, utc).nextChange.value)
  {
    var m := DecideLooksUp(p, local, utc);
    LookUpFinds(m, local);
    var w :| w in m && Contains(w, local) && LookUp(m, local).nextChange == Some(w.end - local);
    TableWindowOpenUntil(p.days, local, m, w);
  }

  lemma EnabledDayComesUp(p: Policy, local: int, m: seq<Window>, i: nat)
    requires Normalized(p) && i < 7 && p.days[i].enabled
    requires m == MergedWindows(p.days, DayOf(local)) && !InSome(m, local)
    ensures exists w :: w in m && w.start > local
  {
    MergedIsFaithful(p.days, DayOf(local));
    DayHasLaterStart(p.days, DayOf(local), m, local, i);
  }

  /** Closed: the countdown is missing exactly when no day is on. */
  lemma ClosedForGoodIff(p: Policy, local: int, utc: int)
    requires Normalized(p) && p.enabled && !LiveOverride(p, utc) && !Decide(p, local, utc).allowed
    ensures Decide(p, local, utc).nextChange.None? <==> forall i | 0 <= i < 7 :: !p.days[i].enabled
    ensures Decide(p, local, utc).nextChange.None? ==> forall u :: !AllowedAt(p.days, u)
  {
    var m := DecideLooksUp(p, local, utc);
    LookUpFinds(m, local);
    if w :| w in m && w.start > local {
      LaterStartHasDay(p.days, DayOf(local), m, w);
    } else if i :| 0 <= i < 7 && p.days[i].enabled {
      EnabledDayComesUp(p, local, m, i);
    }
  }

  /** Closed: closed until the reported change, and then open, exactly unless that is a false opening. */
  lemma ClosedCountdown(p: Policy, local: int, utc: int)
    requires Normalized(p) && p.enabled && !LiveOverride(p, utc) && !Decide(p, local, utc).allowed
    requires Decide(p, local, utc).nextChange.Some?
    ensures var n := Decide(p, local, utc).nextChange.value;
            && n > 0
            && (forall u | local <= u < local + n :: !AllowedAt(p.days, u))
            && (!AllowedAt(p.days, local + n) <==> FalseOpening(p.days, local + n))
  {
    var d := Decide(p, local, utc);
    var m := DecideLooksUp(p, local, utc);
    LookUpFinds(m, local);
    var next :| next in m && next.start > local && d.nextChange == Some(next.start - local)
                && forall w | w in m :: w.start <= local || next.start <= w.start;
    forall u | local <= u < next.start
      ensures !AllowedAt(p.days, u)
    {
      NextStart(p.days, DayOf(local), m, local, next, u);
    }
    NextStart(p.days, DayOf(local), m, local, next, local);
  }

  /** A Monday set to start at its last minute and end at its first: its opening is false, and no other ever comes. */
  lemma ZeroLengthBreaksCountdown()
    ensures var p := Policy(true, [DayWindow(true, 1440, 0), OFF, OFF, OFF, OFF, OFF, OFF], 10, None);
            && Normalized(p) && !Decide(p, 0, 0).allowed && Decide(p, 0, 0).nextChange.Some?
            && FalseOpening(p.days, Decide(p, 0, 0).nextChange.value)
            && forall u :: !AllowedAt(p.days, u)
  {
    var p := Policy(true, [DayWindow(true, 1440, 0), OFF, OFF, OFF, OFF, OFF, OFF], 10, None);
    forall u
      ensures !AllowedAt(p.days, u)
    {
    }
    DecideMeansCovered(p, 0, 0);
    ClosedForGoodIff(p, 0, 0);
    assert p.days[0].enabled;
    ClosedCountdown(p, 0, 0);
  }

  /** The verdict of any policy holds, unchanged, until the change it reports. */
  lemma VerdictHoldsUntilChange(p: Policy, local: int, utc: int, localLater: int, utcLater: int)
    requires Normalized(p) && localLater - local == utcLater - utc >= 0
    requires var d := Decide(p, local, utc); d.nextChange.None? || localLater < local + d.nextChange.value
    ensures Decide(p, localLater, utcLater).allowed == Decide(p, local, utc).allowed
  {
    var d := Decide(p, local, utc);
    if !LiveOverride(p, utc) && p.enabled {
      DecideMeansCovered(p, local, utc);
      DecideMeansCovered(p, localLater, utcLater);
      if d.allowed {
        OpenCountdown(p, local, utc);
      } else {
        ClosedForGoodIff(p, local, utc);
        if d.nextChange.Some? { ClosedCountdown(p, local, utc); }
      }
    }
  }
}
