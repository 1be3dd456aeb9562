/** When each displayed word lights up: which timed word it takes its times from, or its share of the gap it is in. */
module KaraokeTiming {
  import opened Arithmetic
  import opened Types
  import opened Karaoke

  // ------------------------------------------------------------------- anchors

  /** The words that take time, in their order. */
  lemma {:induction false} TimedInOrder(a: seq<Word>, b: seq<Word>)
    ensures Timed(a + b) == Timed(a) + Timed(b)
  {
    if a == [] {
      assert a + b == b && Timed([]) == [];
    } else {
      var whole, first := a + b, if a[0].startMs < a[0].endMs then [a[0]] else [];
      assert whole != [] && whole[0] == a[0] && whole[1..] == a[1..] + b;
      TimedInOrder(a[1..], b);
      assert Timed(whole) == first + Timed(whole[1..]) && Timed(a) == first + Timed(a[1..]);
      Joined(first, Timed(a[1..]), Timed(b));
    }
  }

  lemma TimedAlone(w: Word)
    ensures Timed([w]) == if w.startMs < w.endMs then [w] else []
  {
    assert Timed([w][1..]) == [];
  }

  /** Where the search for the `i`-th displayed word begins: behind the last word anchored before it. */
  function SearchedFrom(anchors: seq<Option<nat>>, i: nat, next: nat): nat
    requires i <= |anchors|
  {
    if i == 0 then next
    else if anchors[i - 1].Some? then anchors[i - 1].value + 1
    else SearchedFrom(anchors, i - 1, next)
  }

  /** A displayed word is anchored to the first of the next four words that reads like it, and to none if none does. */
  lemma {:induction false} AnchoredToFirst(texts: seq<string>, timed: seq<Word>, normalize: string -> string, next: nat,
        i: nat)
    requires i < |texts|
    ensures var anchors := Anchors(texts, timed, normalize, next);
            var from, key := SearchedFrom(anchors, i, next), normalize(texts[i]);
            && (anchors[i].Some? ==>
                  && from <= anchors[i].value < from + 4 && anchors[i].value < |timed|
                  && normalize(timed[anchors[i].value].w) == key)
            && forall n | from <= n < |timed| && n < (if anchors[i].Some? then anchors[i].value else from + 4) ::
                 normalize(timed[n].w) != key
    decreases |texts|
  {
    var m := FirstMatch(normalize(texts[0]), timed, normalize, next, Horizon(timed, next));
    if i > 0 {
      var onward := if m.Some? then m.value + 1 else next;
      AnchoredToFirst(texts[1..], timed, normalize, onward, i - 1);
      SearchedOn(Anchors(texts, timed, normalize, next), i, next, onward);
    }
  }

  lemma {:induction false} SearchedOn(anchors: seq<Option<nat>>, i: nat, next: nat, onward: nat)
    requires 0 < i <= |anchors| && onward == if anchors[0].Some? then anchors[0].value + 1 else next
    ensures SearchedFrom(anchors, i, next) == SearchedFrom(anchors[1..], i - 1, onward)
  {
    if i > 1 { SearchedOn(anchors, i - 1, next, onward); }
  }

  // ------------------------------------------------------------- interpolation

  /** To the nearest integer, and halves away from zero. */
  lemma RoundIs(x: real)
    ensures x - 0.5 <= Round(x) as real <= x + 0.5
    ensures Round(x) as real == x + 0.5 ==> x >= 0.0
    ensures Round(x) as real == x - 0.5 ==> x < 0.0
  {
  }

  lemma {:induction false} LettersAdd(a: seq<string>, b: seq<string>, t: string)
    ensures Letters(a + b) == Letters(a) + Letters(b) && Letters([t]) == |t|
  {
    assert Letters([t]) == |t| + Letters([]);
    if a == [] {
      assert a + b == b;
    } else {
      LettersAdd(a[1..], b, t);
      assert (a + b)[1..] == a[1..] + b;
    }
  }

  /** In proportion to the letters. */
  lemma ShareIs(span: real, n: nat, weight: nat)
    requires weight > 0
    ensures Share(span, n, weight) * weight as real == span * n as real
  {
  }

  /**
   The `i`-th word of a gap starts when the letters before it have had their share of the gap, and
   ends with its own.
   */
  lemma SharedByLetters(texts: seq<string>, start: int, end: int, i: nat)
    requires start <= end && AllWords(texts) && i < |texts|
    ensures Letters(texts) > 0
    ensures var span, weight := (end - start) as real, Letters(texts);
            Interpolated(texts, start, end)[i]
            == Token(texts[i], Round(start as real + Share(span, Letters(texts[..i]), weight)),
                     Round(start as real + Share(span, Letters(texts[..i + 1]), weight)))
  {
    assert IsWord(texts[0]);
    assert Interpolated(texts, start, end) == Laid(texts, start as real, Width(texts, start, end));
    LaidInGap(texts, start, end, i);
  }

  lemma LaidInGap(texts: seq<string>, start: int, end: int, i: nat)
    requires start <= end && AllWords(texts) && i < |texts| && Letters(texts) > 0
    ensures var span, weight := (end - start) as real, Letters(texts);
            Laid(texts, start as real, Width(texts, start, end))[i]
            == Token(texts[i], Round(start as real + Share(span, Letters(texts[..i]), weight)),
                     Round(start as real + Share(span, Letters(texts[..i + 1]), weight)))
  {
    WidthIs(texts, start, end);
    LaidAt(texts, start as real, Width(texts, start, end), (end - start) as real, Letters(texts), i);
  }

  lemma WidthIs(texts: seq<string>, start: int, end: int)
    requires start <= end && Letters(texts) > 0
    ensures forall n: nat :: Width(texts, start, end)(n) == Share((end - start) as real, n, Letters(texts))
  {
  }

  lemma {:induction false} LaidAt(texts: seq<string>, cursor: real, width: nat -> real, span: real, weight: nat, i: nat)
    requires weight > 0 && AllWords(texts) && i < |texts| && forall n: nat :: width(n) == Share(span, n, weight)
    ensures Laid(texts, cursor, width)[i]
            == Token(texts[i], Round(cursor + Share(span, Letters(texts[..i]), weight)),
                     Round(cursor + Share(span, Letters(texts[..i + 1]), weight)))
    decreases |texts|
  {
    assert IsWord(texts[0]);
    SharesAdd(span, 0, 0, weight);
    if i == 0 {
      LettersAdd([], [], texts[0]);
      assert texts[..1] == [texts[0]];
    } else {
      var after := cursor + width(|texts[0]|);
      LaidAt(texts[1..], after, width, span, weight, i - 1);
      LettersFrom(texts, i, span, weight);
      LettersFrom(texts, i + 1, span, weight);
    }
  }

  lemma LettersFrom(texts: seq<string>, i: nat, span: real, weight: nat)
    requires 0 < i <= |texts| && weight > 0
    ensures Letters(texts[..i]) == |texts[0]| + Letters(texts[1..][..i - 1])
    ensures Share(span, Letters(texts[..i]), weight)
            == Share(span, |texts[0]|, weight) + Share(span, Letters(texts[1..][..i - 1]), weight)
  {
    assert texts[..i][0] == texts[0] && texts[..i][1..] == texts[1..][..i - 1];
    SharesAdd(span, |texts[0]|, Letters(texts[1..][..i - 1]), weight);
  }

  // ---------------------------------------------------------------------- gaps

  /** Words `i` to `j` are not anchored, what stands before and after them is. */
  ghost predicate IsGap(anchors: seq<Option<nat>>, i: int, j: int) {
    && 0 <= i < j <= |anchors| && (forall k | i <= k < j :: anchors[k].None?)
    && (i > 0 ==> anchors[i - 1].Some?) && (j < |anchors| ==> anchors[j].Some?)
  }

  function GapStart(anchors: seq<Option<nat>>, timed: seq<Word>, opening: int, i: nat): int
    requires InRange(anchors, |timed|) && i <= |anchors| && (i > 0 ==> anchors[i - 1].Some?)
  {
    if i == 0 then opening else timed[anchors[i - 1].value].endMs
  }

  function GapEnd(anchors: seq<Option<nat>>, timed: seq<Word>, end: int, j: nat): int
    requires InRange(anchors, |timed|) && j <= |anchors| && (j < |anchors| ==> anchors[j].Some?)
  {
    if j < |anchors| then timed[anchors[j].value].startMs else end
  }

  /** The words of a gap share it: from the end of the word before to the start of the word after. */
  ghost predicate SharesGap(texts: seq<string>, anchors: seq<Option<nat>>, timed: seq<Word>, end: int, opening: int,
        i: nat, j: nat)
    requires |texts| == |anchors| && InRange(anchors, |timed|) && IsGap(anchors, i, j)
  {
    var from := GapStart(anchors, timed, opening, i);
    Layout(texts, anchors, timed, end, opening)[i..j]
    == Interpolated(texts[i..j], from, Max(from, GapEnd(anchors, timed, end, j)))
  }

  lemma {:induction false} GapIsShared(texts: seq<string>, anchors: seq<Option<nat>>, timed: seq<Word>, end: int,
        opening: int, i: nat, j: nat)
    requires |texts| == |anchors| && InRange(anchors, |timed|) && IsGap(anchors, i, j)
    ensures SharesGap(texts, anchors, timed, end, opening, i, j)
    decreases |texts|
  {
    if i == 0 {
      FirstGapIsShared(texts, anchors, timed, end, opening, j);
    } else {
      var n := if anchors[0].Some? then 1 else Gap(anchors);
      var onward := Onward(anchors, timed, end, opening);
      GapBehind(anchors, n, i, j);
      GapIsShared(texts[n..], anchors[n..], timed, end, onward, i - n, j - n);
      GapSharedBehind(texts, anchors, timed, end, opening, n, i, j);
    }
  }

  /** Where what follows the first anchored word, or the first gap, is laid from. */
  function Onward(anchors: seq<Option<nat>>, timed: seq<Word>, end: int, opening: int): int
    requires anchors != [] && InRange(anchors, |timed|)
  {
    if anchors[0].Some? then timed[anchors[0].value].endMs else Following(anchors, timed, end, opening, Gap(anchors))
  }

  lemma GapSharedBehind(texts: seq<string>, anchors: seq<Option<nat>>, timed: seq<Word>, end: int, opening: int, n: nat,
        i: nat, j: nat)
    requires |texts| == |anchors| && InRange(anchors, |timed|) && IsGap(anchors, i, j)
    requires 0 < n <= i && n == (if anchors[0].Some? then 1 else Gap(anchors))
    requires InRange(anchors[n..], |timed|) && IsGap(anchors[n..], i - n, j - n)
    requires SharesGap(texts[n..], anchors[n..], timed, end, Onward(anchors, timed, end, opening), i - n, j - n)
    ensures SharesGap(texts, anchors, timed, end, opening, i, j)
  {
    var onward := Onward(anchors, timed, end, opening);
    if anchors[0].Some? {
      BehindAnchored(texts, anchors, timed, end, opening);
    } else {
      BehindGap(texts, anchors, timed, end, opening);
    }
    SharedBehind(texts, anchors, timed, end, opening, n, onward, i, j, Layout(texts, anchors, timed, end, opening),
                 Layout(texts[n..], anchors[n..], timed, end, onward));
  }

  lemma SharedBehind(texts: seq<string>, anchors: seq<Option<nat>>, timed: seq<Word>, end: int, opening: int, n: nat,
        onward: int, i: nat, j: nat, whole: seq<Token>, later: seq<Token>)
    requires |texts| == |anchors| == |whole| && InRange(anchors, |timed|)
    requires 0 < n <= i && IsGap(anchors, i, j) && InRange(anchors[n..], |timed|) && IsGap(anchors[n..], i - n, j - n)
    requires i == n ==> onward == timed[anchors[n - 1].value].endMs
    requires whole == whole[..n] + later && |later| == |whole| - n
    requires var from := GapStart(anchors[n..], timed, onward, i - n);
             later[i - n..j - n]
             == Interpolated(texts[n..][i - n..j - n], from, Max(from, GapEnd(anchors[n..], timed, end, j - n)))
    ensures var from := GapStart(anchors, timed, opening, i);
            whole[i..j] == Interpolated(texts[i..j], from, Max(from, GapEnd(anchors, timed, end, j)))
  {
    SliceBehind(whole[..n], later, i, j);
    EdgesBehind(anchors, timed, end, opening, n, onward, i, j);
    assert texts[n..][i - n..j - n] == texts[i..j];
  }

  /** What follows an anchored word, or a gap, is laid out on its own. */
  lemma BehindAnchored(texts: seq<string>, anchors: seq<Option<nat>>, timed: seq<Word>, end: int, opening: int)
    requires |texts| == |anchors| > 0 && InRange(anchors, |timed|) && anchors[0].Some?
    ensures var whole := Layout(texts, anchors, timed, end, opening);
            whole == whole[..1] + Layout(texts[1..], anchors[1..], timed, end, timed[anchors[0].value].endMs)
  {
  }

  lemma BehindGap(texts: seq<string>, anchors: seq<Option<nat>>, timed: seq<Word>, end: int, opening: int)
    requires |texts| == |anchors| > 0 && InRange(anchors, |timed|) && anchors[0].None?
    ensures var whole, n := Layout(texts, anchors, timed, end, opening), Gap(anchors);
            whole == whole[..n]
                     + Layout(texts[n..], anchors[n..], timed, end, Following(anchors, timed, end, opening, n))
  {
  }

  lemma EdgesBehind(anchors: seq<Option<nat>>, timed: seq<Word>, end: int, opening: int, n: nat, onward: int, i: nat,
        j: nat)
    requires InRange(anchors, |timed|) && IsGap(anchors, i, j) && n <= i && IsGap(anchors[n..], i - n, j - n)
    requires i == n > 0 ==> onward == timed[anchors[n - 1].value].endMs
    requires n > 0
    ensures GapStart(anchors[n..], timed, onward, i - n) == GapStart(anchors, timed, opening, i)
    ensures GapEnd(anchors[n..], timed, end, j - n) == GapEnd(anchors, timed, end, j)
  {
  }

  lemma FirstGapIsShared(texts: seq<string>, anchors: seq<Option<nat>>, timed: seq<Word>, end: int, opening: int,
        j: nat)
    requires |texts| == |anchors| && InRange(anchors, |timed|) && IsGap(anchors, 0, j)
    ensures SharesGap(texts, anchors, timed, end, opening, 0, j)
  {
    GapIs(anchors, j);
    assert texts[0..j] == texts[..j];
    var nextStart := Following(anchors, timed, end, opening, j);
    var filled := Interpolated(texts[..j], opening, Max(opening, nextStart));
    assert (filled + Layout(texts[j..], anchors[j..], timed, end, nextStart))[0..j] == filled;
  }

  lemma SliceBehind<T>(a: seq<T>, b: seq<T>, i: nat, j: nat)
    requires |a| <= i <= j <= |a + b|
    ensures (a + b)[i..j] == b[i - |a|..j - |a|]
  {
  }

  lemma GapBehind(anchors: seq<Option<nat>>, n: nat, i: nat, j: nat)
    requires IsGap(anchors, i, j) && n <= i && (i > 0 ==> n < i || anchors[n - 1].Some?)
    ensures n < i || n == 0 || anchors[n - 1].Some?
    ensures var later := anchors[n..];
            && (forall k | 0 <= k < |later| :: later[k] == anchors[n + k])
            && IsGap(later, i - n, j - n)
            && forall count :: InRange(anchors, count) ==> InRange(later, count)
  {
    var later := anchors[n..];
    assert forall k | 0 <= k < |later| :: later[k] == anchors[n + k];
  }

  // ------------------------------------------------------------- what is shown

  /** Without a timed word the whole line shares the utterance, if it takes any time. */
  lemma UntimedLine(u: Utterance, normalize: string -> string)
    requires Timed(u.words) == [] && Split(u.text) != []
    ensures Shown(u, normalize)
            == if u.startMs < u.endMs then Interpolated(Split(u.text), u.startMs, u.endMs) else []
  {
  }

  /**
   Otherwise a word anchored shows its timed word's times, and the words between share their gap, the first one from the
   start of the utterance, or of its first timed word if earlier, and the last one to its end.
   */
  lemma TimedLine(u: Utterance, normalize: string -> string, i: nat, j: nat)
    requires Timed(u.words) != [] && i < j <= |Split(u.text)|
    ensures var texts, timed, shown := Split(u.text), Timed(u.words), Shown(u, normalize);
            var anchors := Anchors(texts, timed, normalize, 0);
            && |shown| == |texts| && InRange(anchors, |timed|)
            && (anchors[i].Some? ==>
                  shown[i] == Token(texts[i], timed[anchors[i].value].startMs, timed[anchors[i].value].endMs))
            && (IsGap(anchors, i, j) ==>
                  var from := GapStart(anchors, timed, Opening(u), i);
                  shown[i..j] == Interpolated(texts[i..j], from, Max(from, GapEnd(anchors, timed, u.endMs, j))))
  {
    var texts, timed := Split(u.text), Timed(u.words);
    var anchors := Anchors(texts, timed, normalize, 0);
    AnchorsMatch(texts, timed, normalize, 0);
    LayoutTexts(texts, anchors, timed, u.endMs, Earliest(u), i);
    if IsGap(anchors, i, j) { GapIsShared(texts, anchors, timed, u.endMs, Earliest(u), i, j); }
  }
}
