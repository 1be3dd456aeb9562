/** Sequences of actions, within the premises (runs) or whatever they are (paths). */
module ProtocolPaths {
  import opened Types
  import opened JobTable
  import opened Protocol

  /** Enabled actions, whether or not the premises hold. */
  predicate IsPath(c: Config, s: State, path: seq<Action>)
    decreases |path|
  {
    path == [] || (Enabled(c, s, path[0]) && IsPath(c, Apply(c, s, path[0]), path[1..]))
  }

  function Along(c: Config, s: State, path: seq<Action>): State
    requires IsPath(c, s, path)
    decreases |path|
  {
    if path == [] then s else Along(c, Apply(c, s, path[0]), path[1..])
  }

  lemma OneStep(c: Config, s: State, a: Action)
    ensures IsPath(c, s, [a]) <==> Enabled(c, s, a)
    ensures Enabled(c, s, a) ==> Along(c, s, [a]) == Apply(c, s, a)
  {
    assert [a][1..] == [];
  }

  lemma TwoSteps(c: Config, s: State, a: Action, b: Action)
    ensures IsPath(c, s, [a, b]) <==> Enabled(c, s, a) && Enabled(c, Apply(c, s, a), b)
    ensures IsPath(c, s, [a, b]) ==> Along(c, s, [a, b]) == Apply(c, Apply(c, s, a), b)
  {
    assert [a, b][1..] == [b];
    if Enabled(c, s, a) { OneStep(c, Apply(c, s, a), b); }
  }

  lemma ThreeSteps(c: Config, s: State, a: Action, b: Action, d: Action)
    ensures IsPath(c, s, [a, b, d]) <==>
            Enabled(c, s, a) && Enabled(c, Apply(c, s, a), b) && Enabled(c, Apply(c, Apply(c, s, a), b), d)
    ensures IsPath(c, s, [a, b, d]) ==> Along(c, s, [a, b, d]) == Apply(c, Apply(c, Apply(c, s, a), b), d)
  {
    assert [a, b, d][1..] == [b, d];
    if Enabled(c, s, a) { TwoSteps(c, Apply(c, s, a), b, d); }
  }

  /** A run may be extended by any action the premises allow. */
  lemma {:induction false} RunExtends(c: Config, s: State, run: seq<Action>, a: Action)
    requires IsRun(c, s, run) && Enabled(c, After(c, s, run), a) && Admissible(c, After(c, s, run), a)
    ensures IsRun(c, s, run + [a]) && After(c, s, run + [a]) == Apply(c, After(c, s, run), a)
    decreases |run|
  {
    if run == [] {
      assert run + [a] == [a] && [a][1..] == [];
    } else {
      RunExtends(c, Apply(c, s, run[0]), run[1..], a);
      assert (run + [a])[1..] == run[1..] + [a];
    }
  }

  lemma RunBegins(c: Config, s: State, run: seq<Action>)
    requires run != [] && Enabled(c, s, run[0]) && Admissible(c, s, run[0])
    ensures IsRun(c, s, run) <==> IsRun(c, Apply(c, s, run[0]), run[1..])
    ensures IsRun(c, s, run) ==> After(c, s, run) == After(c, Apply(c, s, run[0]), run[1..])
  {
  }

  lemma {:induction false} RunsCompose(c: Config, s: State, a: seq<Action>, b: seq<Action>)
    requires IsRun(c, s, a) && IsRun(c, After(c, s, a), b)
    ensures IsRun(c, s, a + b) && After(c, s, a + b) == After(c, After(c, s, a), b)
    decreases |a|
  {
    if a == [] {
      assert a + b == b;
    } else {
      RunsCompose(c, Apply(c, s, a[0]), a[1..], b);
      assert (a + b)[0] == a[0] && (a + b)[1..] == a[1..] + b;
      RunBegins(c, s, a);
      RunBegins(c, s, a + b);
    }
  }

  /** The run leads from one state to the other. */
  predicate RunTo(c: Config, s: State, run: seq<Action>, s': State) {
    IsRun(c, s, run) && After(c, s, run) == s'
  }

  lemma Onward(c: Config, s: State, run: seq<Action>, m: State, a: Action, s': State)
    requires RunTo(c, s, run, m) && Enabled(c, m, a) && Admissible(c, m, a) && Apply(c, m, a) == s'
    ensures RunTo(c, s, run + [a], s')
  {
    RunExtends(c, s, run, a);
  }

  // ------------------------------------------------------------------ segments

  /** No segment both awaits its text and has it. */
  ghost predicate TextOnce(s: State, r: nat) {
    r in s.recs ==> s.recs[r].untranscribed !! s.recs[r].transcribed
  }

  /** Of a recording, no segment uploaded is forgotten, and none with its text loses it. */
  ghost predicate SegmentsKept(a: State, b: State, r: nat) {
    r in a.recs ==>
      && r in b.recs && a.recs[r].transcribed <= b.recs[r].transcribed
      && a.recs[r].untranscribed + a.recs[r].transcribed <= b.recs[r].untranscribed + b.recs[r].transcribed
  }

  lemma AdvanceKeepsSegments(c: Config, s: State, tid: nat, r: nat)
    requires CanAdvance(s, tid) && TextOnce(s, r)
    ensures var s' := Perform(s, Advance(c, s, tid)); TextOnce(s', r) && SegmentsKept(s, s', r)
  {
  }

  lemma StepKeepsSegments(c: Config, s: State, a: Action, r: nat)
    requires Enabled(c, s, a) && TextOnce(s, r)
    ensures TextOnce(Apply(c, s, a), r) && SegmentsKept(s, Apply(c, s, a), r)
  {
    if a.Step? { AdvanceKeepsSegments(c, s, a.tid, r); }
  }

  /** Over any sequence of steps, resets included: an upload sent again is not transcribed again. */
  lemma {:induction false} PathKeepsSegments(c: Config, s: State, path: seq<Action>, r: nat)
    requires IsPath(c, s, path) && TextOnce(s, r)
    ensures TextOnce(Along(c, s, path), r) && SegmentsKept(s, Along(c, s, path), r)
    decreases |path|
  {
    if path != [] {
      StepKeepsSegments(c, s, path[0], r);
      PathKeepsSegments(c, Apply(c, s, path[0]), path[1..], r);
    }
  }
}
