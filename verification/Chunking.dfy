/** Retrieval chunks: speaker turns, the long ones cut into overlapping windows by word timing. */
module Chunking {
  import opened Arithmetic
  import opened Types

  const WINDOW_MS: int := 45000
  const OVERLAP_MS: int := 5000

  /** Windows start 40 s apart: `k` windows on is this far. */
  function Stride(k: int): int {
    40000 * k
  }

  datatype Word = Word(text: string, startMs: int, endMs: int)

  datatype Utterance = Utterance(localIdx: Option<int>, startMs: int, endMs: int, text: string, words: seq<Word>)

  datatype Chunk = Chunk(startMs: int, endMs: int, localIdx: Option<int>, text: string)

  predicate IsSpace(c: char) {
    c == ' ' || c == '\t' || c == '\n' || c == '\r'
  }

  function Trim(s: string): string {
    if s == [] then s
    else if IsSpace(s[0]) then Trim(s[1..])
    else if IsSpace(s[|s| - 1]) then Trim(s[..|s| - 1])
    else s
  }

  function Join(words: seq<Word>): string {
    if words == [] then "" else if |words| == 1 then words[0].text else words[0].text + " " + Join(words[1..])
  }

  /** One word's text is that word; two stretches' is theirs with one blank between. */
  lemma {:induction false} JoinTwo(a: seq<Word>, b: seq<Word>)
    requires a != [] && b != []
    ensures Join(a + b) == Join(a) + " " + Join(b)
    ensures Join([a[0]]) == a[0].text
  {
    if |a| > 1 {
      JoinTwo(a[1..], b);
      assert (a + b)[1..] == a[1..] + b;
      assert a[0].text + " " + (Join(a[1..]) + " " + Join(b)) == (a[0].text + " " + Join(a[1..])) + " " + Join(b);
    } else {
      assert (a + b)[1..] == b && a == [a[0]];
    }
  }

  /** What is left between `a` and `b` when white space is taken off both ends. */
  ghost predicate Bare(s: string, a: int, b: int) {
    && 0 <= a <= b <= |s|
    && (forall i | 0 <= i < a || b <= i < |s| :: IsSpace(s[i]))
    && (a < b ==> !IsSpace(s[a]) && !IsSpace(s[b - 1]))
  }

  lemma {:induction false} TrimIs(s: string) returns (a: nat, b: nat)
    ensures Bare(s, a, b) && Trim(s) == s[a..b]
    ensures Trim(s) == [] <==> forall c | c in s :: IsSpace(c)
    decreases |s|
  {
    if s == [] {
      a, b := 0, 0;
    } else if IsSpace(s[0]) {
      a, b := TrimIs(s[1..]);
      a, b := a + 1, b + 1;
      assert forall i | 0 < i < |s| :: s[i] == s[1..][i - 1];
      assert s[1..][a - 1..b - 1] == s[a..b];
    } else if IsSpace(s[|s| - 1]) {
      var init := s[..|s| - 1];
      a, b := TrimIs(init);
      assert forall i | 0 <= i < |init| :: s[i] == init[i];
      assert init[a..b] == s[a..b];
      assert init[0] in init;
    } else {
      a, b := 0, |s|;
      assert s[0] in s && s[0..|s|] == s;
    }
  }

  /** The word's text stands in `text` from `at` on. */
  ghost predicate StandsAt(text: string, at: int, w: Word) {
    0 <= at && at + |w.text| <= |text| && text[at..at + |w.text|] == w.text
  }

  /** Word `i` stands in `text`, at the start or one blank behind the word before. */
  ghost predicate WordAt(text: string, words: seq<Word>, places: seq<nat>, i: int)
    requires |places| == |words| && 0 <= i < |words|
  {
    && StandsAt(text, places[i], words[i])
    && if i == 0 then places[0] == 0
       else
         && places[i] == places[i - 1] + |words[i - 1].text| + 1 <= |text|
         && text[places[i] - 1] == ' '
  }

  /** The words stand in `text` at these places, one blank between each and the next, and nothing else does. */
  ghost predicate Spaced(text: string, words: seq<Word>, places: seq<nat>) {
    && |places| == |words| > 0
    && (forall i | 0 <= i < |words| :: WordAt(text, words, places, i))
    && |text| == places[|words| - 1] + |words[|words| - 1].text|
  }

  lemma {:induction false} JoinSpaces(words: seq<Word>) returns (places: seq<nat>)
    requires words != []
    ensures Spaced(Join(words), words, places)
  {
    if |words| == 1 {
      places := [0];
    } else {
      var rest := words[1..];
      var later := JoinSpaces(rest);
      var skip := |words[0].text| + 1;
      places := [0] + seq(|later|, i requires 0 <= i < |later| => later[i] + skip);
      SpacedOneMore(Join(rest), rest, later, words[0], places);
      assert [words[0]] + rest == words;
    }
  }

  lemma SpacedOneMore(text: string, words: seq<Word>, later: seq<nat>, w: Word, places: seq<nat>)
    requires Spaced(text, words, later)
    requires places == [0] + seq(|later|, i requires 0 <= i < |later| => later[i] + (|w.text| + 1))
    ensures Spaced(w.text + " " + text, [w] + words, places)
  {
    var head, more := w.text + " ", [w] + words;
    forall i | 0 <= i < |more|
      ensures WordAt(head + text, more, places, i)
    {
      if i == 0 {
        assert StandsAt(head + text, 0, w);
      } else {
        assert WordAt(text, words, later, i - 1);
        StandsBehind(head, text, later[i - 1], words[i - 1]);
        BlankBehind(head, text, later[i - 1]);
      }
    }
  }

  lemma BlankBehind(head: string, text: string, at: nat)
    requires head != [] && head[|head| - 1] == ' ' && at <= |text| && (at > 0 ==> text[at - 1] == ' ')
    ensures (head + text)[at + |head| - 1] == ' '
  {
  }

  lemma StandsBehind(head: string, text: string, at: nat, w: Word)
    requires StandsAt(text, at, w)
    ensures StandsAt(head + text, at + |head|, w)
  {
    var from := at + |head|;
    assert (head + text)[from..from + |w.text|] == text[at..at + |w.text|];
  }

  // --------------------------------------------------------------- windows

  function WindowEnd(u: Utterance, start: int): int {
    Min(start + WINDOW_MS, u.endMs)
  }

  predicate Overlaps(w: Word, start: int, end: int) {
    w.endMs > start && w.startMs < end
  }

  /** The words heard in a stretch, in order. */
  function Heard(words: seq<Word>, start: int, end: int): (heard: seq<Word>)
    ensures forall w :: w in heard <==> w in words && Overlaps(w, start, end)
  {
    if words == [] then []
    else (if Overlaps(words[0], start, end) then [words[0]] else []) + Heard(words[1..], start, end)
  }

  /** Hearing keeps the words' order: what is heard of one stretch of words follows what is heard of the other. */
  lemma {:induction false} HeardInOrder(a: seq<Word>, b: seq<Word>, start: int, end: int)
    ensures Heard(a + b, start, end) == Heard(a, start, end) + Heard(b, start, end)
  {
    if a == [] {
      assert a + b == b;
    } else {
      HeardInOrder(a[1..], b, start, end);
      assert (a + b)[0] == a[0] && (a + b)[1..] == a[1..] + b;
      Regroup(if Overlaps(a[0], start, end) then [a[0]] else [], Heard(a[1..], start, end), Heard(b, start, end));
    }
  }

  lemma HeardAlone(w: Word, start: int, end: int)
    ensures Heard([w], start, end) == if start < w.endMs && w.startMs < end then [w] else []
  {
    assert Heard([w][1..], start, end) == [];
  }

  lemma Regroup<T>(a: seq<T>, b: seq<T>, c: seq<T>)
    ensures a + (b + c) == (a + b) + c
  {
  }

  function Captured(u: Utterance, start: int): seq<Word> {
    Heard(u.words, start, WindowEnd(u, start))
  }

  /** A window hears, for 45 s or to the end of the turn, the words that overlap it. */
  lemma CapturedIff(u: Utterance, start: int, w: Word)
    ensures w in Captured(u, start)
            <==> w in u.words && start < w.endMs && w.startMs < start + 45000 && w.startMs < u.endMs
  {
  }

  function LatestEnd(words: seq<Word>): (end: int)
    requires words != []
    ensures (exists w :: w in words && w.endMs == end) && forall w | w in words :: w.endMs <= end
  {
    if |words| == 1 then words[0].endMs else Max(words[0].endMs, LatestEnd(words[1..]))
  }

  function ChunkAt(u: Utterance, start: int): Chunk
    requires Captured(u, start) != []
  {
    var words := Captured(u, start);
    Chunk(words[0].startMs, LatestEnd(words), u.localIdx, Join(words))
  }

  /** Where the windows from `start` on begin. */
  function WindowStarts(u: Utterance, start: int): seq<int>
    decreases u.endMs - start
  {
    if start >= u.endMs then []
    else if WindowEnd(u, start) >= u.endMs then [start]
    else [start] + WindowStarts(u, WindowEnd(u, start) - OVERLAP_MS)
  }

  /** Those that captured a word. */
  function Kept(u: Utterance, starts: seq<int>): seq<int> {
    if starts == [] then []
    else (if Captured(u, starts[0]) != [] then [starts[0]] else []) + Kept(u, starts[1..])
  }

  lemma {:induction false} KeptIs(u: Utterance, starts: seq<int>, s: int)
    ensures s in Kept(u, starts) <==> s in starts && Captured(u, s) != []
  {
    if starts != [] {
      KeptIs(u, starts[1..], s);
      assert s in starts <==> s == starts[0] || s in starts[1..];
    }
  }

  function Windowed(u: Utterance): seq<int> {
    Kept(u, WindowStarts(u, u.startMs))
  }

  /** One chunk for each window kept, in order. */
  ghost predicate ChunksAt(u: Utterance, starts: seq<int>, chunks: seq<Chunk>) {
    && |chunks| == |starts|
    && forall i | 0 <= i < |starts| :: Captured(u, starts[i]) != [] && chunks[i] == ChunkAt(u, starts[i])
  }

  method WindowUtterance(u: Utterance) returns (chunks: seq<Chunk>)
    ensures ChunksAt(u, Windowed(u), chunks)
  {
    chunks := [];
    var start := u.startMs;
    ghost var seen: seq<int> := [];
    var done := false;
    CutNone(u);
    while start < u.endMs && !done
      invariant Cut(u, seen, start, done, chunks)
      decreases !done, u.endMs - start
    {
      var end := Min(start + WINDOW_MS, u.endMs);
      var more := CaptureWindow(u, start, end);
      CutOneMore(u, seen, start, chunks, more);
      chunks := chunks + more;
      seen := seen + [start];
      if end >= u.endMs {
        done := true;
      } else {
        start := end - OVERLAP_MS;
      }
    }
    CutAll(u, seen, start, done, chunks);
  }

  /** One window's chunk, its bounds tightened to the words captured; none if there are none. */
  method CaptureWindow(u: Utterance, start: int, end: int) returns (more: seq<Chunk>)
    requires end == WindowEnd(u, start)
    ensures more == if Captured(u, start) == [] then [] else [ChunkAt(u, start)]
  {
    var words := Heard(u.words, start, end);
    if words == [] {
      return [];
    }
    more := [Chunk(words[0].startMs, LatestEnd(words), u.localIdx, Join(words))];
  }

  lemma CutNone(u: Utterance)
    ensures Cut(u, [], u.startMs, false, [])
  {
    assert [] + WindowStarts(u, u.startMs) == WindowStarts(u, u.startMs);
  }

  /** The windows seen gave these chunks, and with those to come from `start` they are all. */
  ghost predicate Cut(u: Utterance, seen: seq<int>, start: int, done: bool, chunks: seq<Chunk>) {
    && (if done then seen else seen + WindowStarts(u, start)) == WindowStarts(u, u.startMs)
    && ChunksAt(u, Kept(u, seen), chunks)
  }

  lemma CutOneMore(u: Utterance, seen: seq<int>, start: int, chunks: seq<Chunk>, more: seq<Chunk>)
    requires start < u.endMs && Cut(u, seen, start, false, chunks)
    requires more == if Captured(u, start) == [] then [] else [ChunkAt(u, start)]
    ensures if WindowEnd(u, start) >= u.endMs then Cut(u, seen + [start], start, true, chunks + more)
            else Cut(u, seen + [start], WindowEnd(u, start) - OVERLAP_MS, false, chunks + more)
  {
    WindowDone(u, seen, start, chunks, more);
    NextStart(u, seen, start);
  }

  lemma WindowDone(u: Utterance, seen: seq<int>, start: int, chunks: seq<Chunk>, more: seq<Chunk>)
    requires ChunksAt(u, Kept(u, seen), chunks)
    requires more == if Captured(u, start) == [] then [] else [ChunkAt(u, start)]
    ensures ChunksAt(u, Kept(u, seen + [start]), chunks + more)
  {
    KeptAppend(u, seen, start);
  }

  lemma CutAll(u: Utterance, seen: seq<int>, start: int, done: bool, chunks: seq<Chunk>)
    requires Cut(u, seen, start, done, chunks) && (done || start >= u.endMs)
    ensures ChunksAt(u, Windowed(u), chunks)
  {
    assert seen + [] == seen;
  }

  /** One window on, the windows seen and to come are still the same. */
  lemma NextStart(u: Utterance, seen: seq<int>, start: int)
    requires start < u.endMs
    ensures seen + WindowStarts(u, start)
            == if WindowEnd(u, start) >= u.endMs then seen + [start]
               else (seen + [start]) + WindowStarts(u, WindowEnd(u, start) - OVERLAP_MS)
  {
  }

  lemma {:induction false} KeptAppend(u: Utterance, starts: seq<int>, s: int)
    ensures Kept(u, starts + [s]) == Kept(u, starts) + if Captured(u, s) != [] then [s] else []
  {
    if starts == [] {
      assert starts + [s] == [s];
      assert Kept(u, []) == [];
    } else {
      var first := if Captured(u, starts[0]) != [] then [starts[0]] else [];
      KeptAppend(u, starts[1..], s);
      assert (starts + [s])[1..] == starts[1..] + [s];
      assert Kept(u, starts + [s]) == first + Kept(u, starts[1..] + [s]);
    }
  }

  /** All turns: blank ones give nothing, short or untimed ones a chunk each, long ones their windows. */
  method BuildChunks(utterances: seq<Utterance>) returns (chunks: seq<Chunk>, cuts: seq<nat>)
    ensures |cuts| == |utterances| + 1 && cuts[0] == 0 && cuts[|utterances|] == |chunks|
    ensures forall i | 0 <= i < |utterances| :: TurnAt(utterances[i], chunks, cuts, i)
  {
    chunks, cuts := [], [0];
    var i := 0;
    while i < |utterances|
      invariant 0 <= i <= |utterances| && |cuts| == i + 1 && cuts[0] == 0 && cuts[i] == |chunks|
      invariant forall k | 0 <= k < i :: TurnAt(utterances[k], chunks, cuts, k)
    {
      var u := utterances[i];
      var text := Trim(u.text);
      ghost var chunksBefore, cutsBefore := chunks, cuts;
      var more: seq<Chunk> := [];
      if text != [] {
        if u.endMs - u.startMs <= WINDOW_MS || u.words == [] {
          more := [Chunk(u.startMs, u.endMs, u.localIdx, text)];
        } else {
          more := WindowUtterance(u);
        }
      }
      chunks := chunks + more;
      cuts := cuts + [|chunks|];
      forall k | 0 <= k < i
        ensures TurnAt(utterances[k], chunks, cuts, k)
      {
        TurnStays(utterances[k], chunksBefore, cutsBefore, k, more, |chunks|);
      }
      assert chunks[cuts[i]..cuts[i + 1]] == more;
      i := i + 1;
    }
  }

  /** The chunks of turn `i` are those between its cuts. */
  ghost predicate TurnAt(u: Utterance, chunks: seq<Chunk>, cuts: seq<nat>, i: int) {
    0 <= i && i + 1 < |cuts| && cuts[i] <= cuts[i + 1] <= |chunks| && ChunksOfTurn(u, chunks[cuts[i]..cuts[i + 1]])
  }

  lemma TurnStays(u: Utterance, chunks: seq<Chunk>, cuts: seq<nat>, i: int, more: seq<Chunk>, cut: nat)
    requires TurnAt(u, chunks, cuts, i)
    ensures TurnAt(u, chunks + more, cuts + [cut], i)
  {
    assert (chunks + more)[cuts[i]..cuts[i + 1]] == chunks[cuts[i]..cuts[i + 1]];
  }

  ghost predicate ChunksOfTurn(u: Utterance, chunks: seq<Chunk>) {
    if Trim(u.text) == [] then chunks == []
    else if u.endMs - u.startMs <= WINDOW_MS || u.words == [] then
      chunks == [Chunk(u.startMs, u.endMs, u.localIdx, Trim(u.text))]
    else ChunksAt(u, Windowed(u), chunks)
  }

  /**
   A blank turn gives nothing; one of at most 45 s, or without timed words, its text without surrounding white space;
   any other its windows.
   */
  lemma TurnGives(u: Utterance, chunks: seq<Chunk>)
    requires ChunksOfTurn(u, chunks)
    ensures if forall c | c in u.text :: IsSpace(c) then chunks == []
            else if u.endMs - u.startMs <= 45000 || u.words == [] then
              exists a, b :: Bare(u.text, a, b) && chunks == [Chunk(u.startMs, u.endMs, u.localIdx, u.text[a..b])]
            else ChunksAt(u, Windowed(u), chunks)
  {
    var a, b := TrimIs(u.text);
  }

  // ------------------------------------------------------ where windows lie

  /** How many windows an utterance of this span takes. */
  function WindowCount(span: int): int {
    if span <= 0 then 0 else if span <= WINDOW_MS then 1 else (span - WINDOW_MS + 39999) / 40000 + 1
  }

  /** Exactly that many, a stride apart, the first at the start. */
  lemma {:induction false} WindowsAreStrided(u: Utterance, start: int)
    ensures var starts := WindowStarts(u, start);
            && |starts| == WindowCount(u.endMs - start)
            && forall k | 0 <= k < |starts| :: starts[k] == start + Stride(k)
    decreases u.endMs - start
  {
    if start < u.endMs && WindowEnd(u, start) < u.endMs {
      WindowsAreStrided(u, start + Stride(1));
    }
  }

  /** The last window reaches the end, and none before it does. */
  lemma LastWindowReachesEnd(u: Utterance)
    requires u.startMs < u.endMs
    ensures var n := WindowCount(u.endMs - u.startMs);
            && n >= 1 && WindowEnd(u, u.startMs + Stride(n - 1)) == u.endMs
            && u.startMs + Stride(n - 1) < u.endMs
            && (n >= 2 ==> WindowEnd(u, u.startMs + Stride(n - 2)) < u.endMs)
  {
  }

  /** A word that sounds within the utterance, if only for an instant, is captured by some window … */
  lemma WordIsCaptured(u: Utterance, w: Word) returns (s: int)
    requires u.startMs < u.endMs && w in u.words && w.startMs <= w.endMs && Overlaps(w, u.startMs, u.endMs)
    ensures s in Windowed(u) && w in Captured(u, s)
  {
    var t := Max(if w.startMs < w.endMs then w.startMs else w.endMs - 1, u.startMs);
    var n := WindowCount(u.endMs - u.startMs);
    WindowsAreStrided(u, u.startMs);
    LastWindowReachesEnd(u);
    var k := Min((t - u.startMs) / 40000, n - 1);
    s := u.startMs + Stride(k);
    assert WindowStarts(u, u.startMs)[k] == s;
    KeptIs(u, WindowStarts(u, u.startMs), s);
    assert s <= t < WindowEnd(u, s);
  }

  /** … and a word that does not is captured by none, so nothing foreign gets in. */
  lemma CapturedWordsOverlap(u: Utterance, w: Word, s: int)
    requires s in Windowed(u) && w in Captured(u, s)
    ensures w in u.words && Overlaps(w, u.startMs, u.endMs)
  {
    WindowsAreStrided(u, u.startMs);
    KeptIs(u, WindowStarts(u, u.startMs), s);
    var starts := WindowStarts(u, u.startMs);
    var k :| 0 <= k < |starts| && starts[k] == s;
  }

  ghost predicate Strided(starts: seq<int>) {
    forall i, j | 0 <= i < j < |starts| :: starts[j] - starts[i] >= Stride(j - i)
  }

  /** A word is in some chunk's window exactly when it sounds within the utterance. */
  lemma WordIsCapturedIff(u: Utterance, w: Word)
    requires u.startMs < u.endMs && w in u.words && w.startMs <= w.endMs
    ensures (exists s :: s in Windowed(u) && w in Captured(u, s)) <==> Overlaps(w, u.startMs, u.endMs)
  {
    if Overlaps(w, u.startMs, u.endMs) {
      var s := WordIsCaptured(u, w);
    } else if s :| s in Windowed(u) && w in Captured(u, s) {
      CapturedWordsOverlap(u, w, s);
    }
  }

  /** Kept windows stay in order, at least a stride apart. */
  lemma {:induction false} KeptInOrder(u: Utterance, starts: seq<int>)
    requires Strided(starts)
    ensures Strided(Kept(u, starts))
  {
    if starts != [] {
      var later := starts[1..];
      KeptInOrder(u, later);
      var rest := Kept(u, later);
      if Captured(u, starts[0]) != [] && rest != [] {
        KeptIs(u, later, rest[0]);
        var i :| 0 <= i < |later| && later[i] == rest[0];
        assert starts[i + 1] - starts[0] >= Stride(i + 1);
        StrideShifts([starts[0]] + rest, rest);
      }
    }
  }

  lemma StrideShifts(kept: seq<int>, rest: seq<int>)
    requires kept != [] && rest != [] && kept[1..] == rest && rest[0] - kept[0] >= Stride(1)
    requires Strided(rest)
    ensures Strided(kept)
  {
    forall i, j | 0 <= i < j < |kept|
      ensures kept[j] - kept[i] >= Stride(j - i)
    {
      assert kept[j] == rest[j - 1];
      if i > 0 { assert kept[i] == rest[i - 1]; }
      else if j > 1 { assert rest[j - 1] - rest[0] >= Stride(j - 1); }
    }
  }

  /**
   Chunks lose no word and repeat little: a word sounding within a long turn stands in
   the text of some chunk, and one of at most 35 seconds was captured for at most two, consecutive ones.
   */
  lemma ChunksCoverWords(u: Utterance, chunks: seq<Chunk>, w: Word)
    requires ChunksAt(u, Windowed(u), chunks)
    requires u.startMs < u.endMs && w in u.words && w.startMs <= w.endMs && Overlaps(w, u.startMs, u.endMs)
    ensures exists i, at :: 0 <= i < |chunks| && HasWord(u, i, w) && StandsAt(chunks[i].text, at, w)
    ensures w.endMs - w.startMs <= WINDOW_MS - 2 * OVERLAP_MS ==>
              forall i, j | 0 <= i < j < |chunks| && HasWord(u, i, w) && HasWord(u, j, w) :: j == i + 1
  {
    var s := WordIsCaptured(u, w);
    var i :| 0 <= i < |Windowed(u)| && Windowed(u)[i] == s;
    assert HasWord(u, i, w);
    var at := WordStands(u, chunks, i, w);
    if w.endMs - w.startMs <= WINDOW_MS - 2 * OVERLAP_MS {
      forall i, j | 0 <= i < j < |chunks| && HasWord(u, i, w) && HasWord(u, j, w)
        ensures j == i + 1
      {
        ShortWordInNeighbours(u, w, i, j);
      }
    }
  }

  lemma ShortWordInNeighbours(u: Utterance, w: Word, i: int, j: int)
    requires 0 <= i < j < |Windowed(u)| && HasWord(u, i, w) && HasWord(u, j, w)
    requires w.endMs - w.startMs <= WINDOW_MS - 2 * OVERLAP_MS
    ensures j == i + 1
  {
    WindowsInOrder(u);
    var first, later := Windowed(u)[i], Windowed(u)[j];
    assert later - first >= Stride(j - i);
    assert w.endMs > later && w.startMs < first + WINDOW_MS;
  }

  lemma WindowsInOrder(u: Utterance)
    ensures Strided(Windowed(u))
  {
    WindowsAreStrided(u, u.startMs);
    var starts := WindowStarts(u, u.startMs);
    assert Strided(starts) by {
      forall i, j | 0 <= i < j < |starts|
        ensures starts[j] - starts[i] >= Stride(j - i)
      {
        assert starts[j] == u.startMs + Stride(j);
      }
    }
    KeptInOrder(u, starts);
  }

  /** Chunk `i` of the turn was joined from words including `w`. */
  ghost predicate HasWord(u: Utterance, i: int, w: Word) {
    0 <= i < |Windowed(u)| && w in Captured(u, Windowed(u)[i])
  }

  /** A long turn yields no chunk exactly when none of its words sounds within it. */
  lemma NoChunkIff(u: Utterance)
    requires u.startMs < u.endMs && forall w | w in u.words :: w.startMs <= w.endMs
    ensures Windowed(u) == [] <==> forall w | w in u.words :: !Overlaps(w, u.startMs, u.endMs)
  {
    if w :| w in u.words && Overlaps(w, u.startMs, u.endMs) {
      var s := WordIsCaptured(u, w);
    } else if Windowed(u) != [] {
      var s := Windowed(u)[0];
      KeptIs(u, WindowStarts(u, u.startMs), s);
      CapturedWordsOverlap(u, Captured(u, s)[0], s);
    }
  }

  /** Every word captured for a chunk stands in its text. */
  lemma WordStands(u: Utterance, chunks: seq<Chunk>, i: int, w: Word) returns (at: nat)
    requires ChunksAt(u, Windowed(u), chunks) && HasWord(u, i, w)
    ensures i < |chunks| && StandsAt(chunks[i].text, at, w)
  {
    var words := Captured(u, Windowed(u)[i]);
    var places := JoinSpaces(words);
    var k :| 0 <= k < |words| && words[k] == w;
    assert WordAt(chunks[i].text, words, places, k);
    at := places[k];
  }

  /**
   A chunk reads as its captured words, in order with one blank between, from the first one's start
   to the last end.
   */
  lemma ChunkReads(u: Utterance, chunks: seq<Chunk>, i: int) returns (places: seq<nat>)
    requires ChunksAt(u, Windowed(u), chunks) && 0 <= i < |chunks|
    ensures var words := Captured(u, Windowed(u)[i]);
            && Spaced(chunks[i].text, words, places) && chunks[i].localIdx == u.localIdx
            && chunks[i].startMs == words[0].startMs
            && (exists w :: w in words && w.endMs == chunks[i].endMs)
            && forall w | w in words :: w.endMs <= chunks[i].endMs
  {
    places := JoinSpaces(Captured(u, Windowed(u)[i]));
  }

  /** A chunk is hardly longer than its window. */
  lemma ChunkSpan(u: Utterance, chunks: seq<Chunk>, i: int, longest: int)
    requires ChunksAt(u, Windowed(u), chunks) && 0 <= i < |chunks|
    requires forall w | w in u.words :: w.endMs - w.startMs <= longest
    ensures chunks[i].endMs - chunks[i].startMs < WINDOW_MS + 2 * longest
  {
    var words := Captured(u, Windowed(u)[i]);
    assert words[0] in words;
    var last :| last in words && last.endMs == LatestEnd(words);
  }
}
