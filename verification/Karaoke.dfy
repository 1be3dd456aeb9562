/** Word timing for the transcript highlight: which displayed word is spoken at a moment. */
module Karaoke {
  import opened Arithmetic
  import opened Types
  import Chunking

  const LINGER_MS: int := 120
  const LOOKAHEAD: int := 4

  /** A recognised word, timed. */
  datatype Word = Word(w: string, startMs: int, endMs: int)

  datatype Utterance = Utterance(startMs: int, endMs: int, text: string, words: seq<Word>)

  datatype Token = Token(text: string, startMs: int, endMs: int)

  predicate IsWord(t: string) {
    t != [] && forall i | 0 <= i < |t| :: !Chunking.IsSpace(t[i])
  }

  predicate AllWords(texts: seq<string>) {
    forall i | 0 <= i < |texts| :: IsWord(texts[i])
  }

  function FirstSpace(text: string): (n: nat)
    ensures n <= |text| && (forall i | 0 <= i < n :: !Chunking.IsSpace(text[i]))
              && (n < |text| ==> Chunking.IsSpace(text[n]))
  {
    if text == [] || Chunking.IsSpace(text[0]) then 0 else 1 + FirstSpace(text[1..])
  }

  /** The displayed words: maximal runs without white space. */
  function Split(text: string): (texts: seq<string>)
    ensures AllWords(texts)
    decreases |text|
  {
    if text == [] then []
    else if Chunking.IsSpace(text[0]) then Split(text[1..])
    else [text[..FirstSpace(text)]] + Split(text[FirstSpace(text)..])
  }

  /** A single word is not split … */
  lemma SplitWord(w: string)
    requires IsWord(w)
    ensures Split(w) == [w]
  {
    FirstSpaceIs(w, |w|);
    assert w[..|w|] == w && w[|w|..] == [];
    assert Split(w) == [w[..|w|]] + Split([]);
  }

  lemma {:induction false} FirstSpaceIs(text: string, n: nat)
    requires n <= |text| && (forall i | 0 <= i < n :: !Chunking.IsSpace(text[i]))
              && (n < |text| ==> Chunking.IsSpace(text[n]))
    ensures FirstSpace(text) == n
  {
    if n > 0 { FirstSpaceIs(text[1..], n - 1); }
  }

  /** … and white space parts what is before it from what is after; no letter is lost or moved. */
  lemma {:induction false} SplitAtSpace(a: string, space: char, b: string)
    requires Chunking.IsSpace(space)
    ensures Split(a + [space] + b) == Split(a) + Split(b)
    decreases |a|
  {
    var whole := a + [space] + b;
    if a == [] {
      assert whole[1..] == b;
    } else if Chunking.IsSpace(a[0]) {
      assert whole[1..] == a[1..] + [space] + b;
      SplitAtSpace(a[1..], space, b);
    } else {
      var n := FirstSpace(a);
      SplitAtSpace(a[n..], space, b);
      FirstWordAlone(a, space, b);
      Joined([a[..n]], Split(a[n..]), Split(b));
    }
  }

  /** The first word of a longer text is the same, and what follows it is longer by the same. */
  lemma FirstWordAlone(a: string, space: char, b: string)
    requires Chunking.IsSpace(space) && a != [] && !Chunking.IsSpace(a[0])
    ensures var n := FirstSpace(a);
            && Split(a) == [a[..n]] + Split(a[n..])
            && Split(a + [space] + b) == [a[..n]] + Split(a[n..] + [space] + b)
  {
    var n, whole := FirstSpace(a), a + [space] + b;
    assert whole[n] == if n < |a| then a[n] else space;
    FirstSpaceIs(whole, n);
    assert whole[..n] == a[..n];
    assert whole[n..] == a[n..] + [space] + b;
  }

  lemma Joined<T>(a: seq<T>, b: seq<T>, c: seq<T>)
    ensures a + (b + c) == (a + b) + c
  {
  }

  function Timed(words: seq<Word>): (timed: seq<Word>)
    ensures forall w :: w in timed <==> w in words && w.endMs > w.startMs
  {
    if words == [] then []
    else (if words[0].endMs > words[0].startMs then [words[0]] else []) + Timed(words[1..])
  }

  // ---------------------------------------------------------------- anchors

  /** The first word from `k` on and before `stop` that reads like `key`. */
  function FirstMatch(key: string, timed: seq<Word>, normalize: string -> string, k: nat, stop: nat): (m: Option<nat>)
    requires stop <= |timed|
    ensures m.Some? ==> k <= m.value < stop && normalize(timed[m.value].w) == key
    ensures forall n | k <= n < (if m.Some? then m.value else stop) :: normalize(timed[n].w) != key
    decreases stop - k
  {
    if k >= stop then None
    else if normalize(timed[k].w) == key then Some(k)
    else FirstMatch(key, timed, normalize, k + 1, stop)
  }

  function Horizon(timed: seq<Word>, next: nat): nat {
    if |timed| < next + LOOKAHEAD then |timed| else next + LOOKAHEAD
  }

  /** Each displayed word takes the first match within the look-ahead, never going back. */
  function Anchors(texts: seq<string>, timed: seq<Word>, normalize: string -> string,
        next: nat): (anchors: seq<Option<nat>>)
    ensures |anchors| == |texts|
  {
    if texts == [] then []
    else
      var m := FirstMatch(normalize(texts[0]), timed, normalize, next, Horizon(timed, next));
      [m] + Anchors(texts[1..], timed, normalize, if m.Some? then m.value + 1 else next)
  }

  /** Anchors point at words, each further on than the one before, from `next` on. */
  ghost predicate Climbing(anchors: seq<Option<nat>>, next: nat, count: nat) {
    && (forall i | 0 <= i < |anchors| && anchors[i].Some? :: next <= anchors[i].value < count)
    && forall i, j | 0 <= i < j < |anchors| && anchors[i].Some? && anchors[j].Some? ::
        anchors[i].value < anchors[j].value
  }

  /** Anchored words read alike, and anchors climb. */
  lemma {:induction false} AnchorsMatch(texts: seq<string>, timed: seq<Word>, normalize: string -> string, next: nat)
    ensures var anchors := Anchors(texts, timed, normalize, next);
            && Climbing(anchors, next, |timed|)
            && forall i | 0 <= i < |texts| && anchors[i].Some? && anchors[i].value < |timed| ::
                 normalize(timed[anchors[i].value].w) == normalize(texts[i])
  {
    if texts != [] {
      var m := FirstMatch(normalize(texts[0]), timed, normalize, next, Horizon(timed, next));
      AnchorsMatch(texts[1..], timed, normalize, if m.Some? then m.value + 1 else next);
    }
  }

  /** A line nobody edited is anchored word for word. */
  lemma {:induction false} UneditedAnchors(texts: seq<string>, timed: seq<Word>, normalize: string -> string, next: nat)
    requires next + |texts| == |timed|
    requires forall i | 0 <= i < |texts| :: normalize(texts[i]) == normalize(timed[next + i].w)
    ensures forall i | 0 <= i < |texts| :: Anchors(texts, timed, normalize, next)[i] == Some(next + i)
  {
    if texts != [] {
      assert normalize(texts[0]) == normalize(timed[next + 0].w);
      forall i | 0 <= i < |texts[1..]|
        ensures normalize(texts[1..][i]) == normalize(timed[next + 1 + i].w)
      {
        assert normalize(texts[i + 1]) == normalize(timed[next + (i + 1)].w);
      }
      UneditedAnchors(texts[1..], timed, normalize, next + 1);
      forall i | 0 <= i < |texts|
        ensures Anchors(texts, timed, normalize, next)[i] == Some(next + i)
      {
        if i > 0 { assert Anchors(texts[1..], timed, normalize, next + 1)[i - 1] == Some(next + 1 + (i - 1)); }
      }
    }
  }

  // ---------------------------------------------------------- interpolation

  /** To the nearest integer, halves away from zero. */
  function Round(x: real): int {
    if x >= 0.0 then (x + 0.5).Floor else -((-x + 0.5).Floor)
  }

  lemma RoundIsMonotone(x: real, y: real)
    requires x <= y
    ensures Round(x) <= Round(y)
  {
  }

  lemma RoundOfInt(n: int)
    ensures Round(n as real) == n
  {
  }

  function Letters(texts: seq<string>): nat {
    if texts == [] then 0 else |texts[0]| + Letters(texts[1..])
  }

  function AtLeastOne(n: nat): nat {
    if n < 1 then 1 else n
  }

  /** The part of a span that `n` of `weight` letters take. */
  function Share(span: real, n: nat, weight: nat): real
    requires weight > 0
  {
    span * n as real / weight as real
  }

  lemma SharesAdd(span: real, m: nat, n: nat, weight: nat)
    requires weight > 0
    ensures Share(span, m, weight) + Share(span, n, weight) == Share(span, m + n, weight)
    ensures Share(span, weight, weight) == span && Share(span, 0, weight) == 0.0
    ensures span >= 0.0 ==> Share(span, n, weight) >= 0.0
  {
    var unit := span / weight as real;
    assert forall k: nat :: Share(span, k, weight) == unit * k as real;
    assert unit * (m + n) as real == unit * m as real + unit * n as real;
  }

  /** Words laid from the cursor on, each as wide as its letters. */
  function Laid(texts: seq<string>, cursor: real, width: nat -> real): (tokens: seq<Token>)
    ensures |tokens| == |texts|
  {
    if texts == [] then []
    else
      var after := cursor + width(AtLeastOne(|texts[0]|));
      [Token(texts[0], Round(cursor), Round(after))] + Laid(texts[1..], after, width)
  }

  lemma {:induction false} LaidTexts(texts: seq<string>, cursor: real, width: nat -> real)
    ensures forall i | 0 <= i < |texts| :: Laid(texts, cursor, width)[i].text == texts[i]
  {
    if texts != [] {
      LaidTexts(texts[1..], cursor + width(AtLeastOne(|texts[0]|)), width);
    }
  }

  function Span(start: int, end: int): real {
    if end > start then (end - start) as real else 0.0
  }

  function Width(texts: seq<string>, start: int, end: int): nat -> real {
    var weight := AtLeastOne(Letters(texts));
    (n: nat) => Share(Span(start, end), n, weight)
  }

  function Interpolated(texts: seq<string>, start: int, end: int): (tokens: seq<Token>)
    ensures |tokens| == |texts| && forall i | 0 <= i < |texts| :: tokens[i].text == texts[i]
  {
    LaidTexts(texts, start as real, Width(texts, start, end));
    Laid(texts, start as real, Width(texts, start, end))
  }

  method Interpolate(texts: seq<string>, start: int, end: int) returns (tokens: seq<Token>)
    ensures tokens == Interpolated(texts, start, end)
  {
    tokens := Lay(texts, start as real, Width(texts, start, end));
  }

  method Lay(texts: seq<string>, start: real, width: nat -> real) returns (tokens: seq<Token>)
    ensures tokens == Laid(texts, start, width)
  {
    var cursor := start;
    tokens := [];
    ghost var rest := Laid(texts, start, width);
    ghost var whole := rest;
    assert texts[0..] == texts;
    for i := 0 to |texts|
      invariant rest == Laid(texts[i..], cursor, width) && tokens + rest == whole
    {
      var s := cursor;
      cursor := cursor + width(AtLeastOne(|texts[i]|));
      assert texts[i..][1..] == texts[i + 1..];
      rest := rest[1..];
      tokens := tokens + [Token(texts[i], Round(s), Round(cursor))];
    }
  }

  /** Each token ends no earlier than it starts and no later than the next starts, all within the bounds. */
  ghost predicate Timely(tokens: seq<Token>, earliest: int, latest: int) {
    && (forall i | 0 <= i < |tokens| :: earliest <= tokens[i].startMs <= tokens[i].endMs <= latest)
    && forall i | 0 <= i < |tokens| - 1 :: tokens[i].endMs <= tokens[i + 1].startMs
  }

  lemma TimelyJoin(a: seq<Token>, b: seq<Token>, earliest: int, between: int, latest: int)
    requires Timely(a, earliest, between) && Timely(b, between, latest) && earliest <= between <= latest
    ensures Timely(a + b, earliest, latest)
  {
  }

  lemma {:induction false} LaidIsTimely(texts: seq<string>, cursor: real, span: real, weight: nat, width: nat -> real,
        end: int)
    requires weight > 0 && span >= 0.0 && AllWords(texts) && forall n: nat :: width(n) == Share(span, n, weight)
    requires cursor + width(Letters(texts)) == end as real
    ensures Timely(Laid(texts, cursor, width), Round(cursor), end)
    ensures Round(cursor) <= end
  {
    RoundOfInt(end);
    SharesAdd(span, 0, Letters(texts), weight);
    RoundIsMonotone(cursor, end as real);
    if texts != [] {
      assert IsWord(texts[0]);
      var after := cursor + width(|texts[0]|);
      SharesAdd(span, Letters(texts[1..]), |texts[0]|, weight);
      LaidIsTimely(texts[1..], after, span, weight, width, end);
      RoundIsMonotone(cursor, after);
      TimelyJoin([Token(texts[0], Round(cursor), Round(after))], Laid(texts[1..], after, width),
                 Round(cursor), Round(after), end);
    }
  }

  lemma InterpolatedIsTimely(texts: seq<string>, start: int, end: int)
    requires start <= end && texts != [] && AllWords(texts)
    ensures Timely(Interpolated(texts, start, end), start, end)
  {
    assert IsWord(texts[0]);
    var weight := Letters(texts);
    assert weight == AtLeastOne(weight);
    SharesAdd(Span(start, end), 0, weight, weight);
    RoundOfInt(start);
    LaidIsTimely(texts, start as real, Span(start, end), weight, Width(texts, start, end), end);
  }

  // ----------------------------------------------------------------- tokens

  /** How many words lie before the next anchored one. */
  function Gap(anchors: seq<Option<nat>>): (n: nat)
    ensures n <= |anchors| && (forall i | 0 <= i < n :: anchors[i].None?) && (n < |anchors| ==> anchors[n].Some?)
  {
    if anchors == [] || anchors[0].Some? then 0 else 1 + Gap(anchors[1..])
  }

  ghost predicate InRange(anchors: seq<Option<nat>>, count: nat) {
    forall i | 0 <= i < |anchors| && anchors[i].Some? :: anchors[i].value < count
  }

  function Following(anchors: seq<Option<nat>>, timed: seq<Word>, end: int, prevEnd: int, j: nat): int
    requires InRange(anchors, |timed|) && j <= |anchors| && (j < |anchors| ==> anchors[j].Some?)
  {
    if j < |anchors| then timed[anchors[j].value].startMs else Max(prevEnd, end)
  }

  /** Anchored words keep their word's time; the others share the gap around them. */
  function Layout(texts: seq<string>, anchors: seq<Option<nat>>, timed: seq<Word>, end: int,
        prevEnd: int): (tokens: seq<Token>)
    requires |texts| == |anchors| && InRange(anchors, |timed|)
    ensures |tokens| == |texts|
  {
    if texts == [] then []
    else if anchors[0].Some? then
      var w := timed[anchors[0].value];
      [Token(texts[0], w.startMs, w.endMs)] + Layout(texts[1..], anchors[1..], timed, end, w.endMs)
    else
      var j := Gap(anchors);
      var nextStart := Following(anchors, timed, end, prevEnd, j);
      Interpolated(texts[..j], prevEnd, Max(prevEnd, nextStart))
          + Layout(texts[j..], anchors[j..], timed, end, nextStart)
  }

  /** Every displayed word gets its token, an anchored one with its word's times. */
  lemma {:induction false} LayoutTexts(texts: seq<string>, anchors: seq<Option<nat>>, timed: seq<Word>, end: int,
        prevEnd: int, i: nat)
    requires |texts| == |anchors| && InRange(anchors, |timed|) && i < |texts|
    ensures var t := Layout(texts, anchors, timed, end, prevEnd)[i];
            && t.text == texts[i]
            && (anchors[i].Some? ==>
                  t.startMs == timed[anchors[i].value].startMs && t.endMs == timed[anchors[i].value].endMs)
    decreases |texts|
  {
    if anchors[0].Some? {
      if i > 0 { LayoutTexts(texts[1..], anchors[1..], timed, end, timed[anchors[0].value].endMs, i - 1); }
    } else {
      var j := Gap(anchors);
      if i >= j {
        LayoutTexts(texts[j..], anchors[j..], timed, end, Following(anchors, timed, end, prevEnd, j), i - j);
      }
    }
  }

  function Earliest(u: Utterance): int
    requires Timed(u.words) != []
  {
    var first := Timed(u.words)[0].startMs;
    if u.startMs < first then u.startMs else first
  }

  /** What the transcript shows for an utterance. */
  ghost function Shown(u: Utterance, normalize: string -> string): seq<Token> {
    var texts, timed := Split(u.text), Timed(u.words);
    if texts == [] then []
    else if timed == [] then if u.endMs > u.startMs then Interpolated(texts, u.startMs, u.endMs) else []
    else
      var anchors := Anchors(texts, timed, normalize, 0);
      AnchorsMatch(texts, timed, normalize, 0);
      Layout(texts, anchors, timed, u.endMs, Earliest(u))
  }

  lemma AnchorsStep(texts: seq<string>, timed: seq<Word>, normalize: string -> string, i: nat, next: nat)
    requires i < |texts|
    ensures var m := FirstMatch(normalize(texts[i]), timed, normalize, next, Horizon(timed, next));
            Anchors(texts[i..], timed, normalize, next)
            == [m] + Anchors(texts[i + 1..], timed, normalize, if m.Some? then m.value + 1 else next)
  {
    assert texts[i..][1..] == texts[i + 1..];
  }

  method FindAnchors(texts: seq<string>, timed: seq<Word>, normalize: string -> string)
    returns (anchors: seq<Option<nat>>)
    ensures anchors == Anchors(texts, timed, normalize, 0)
  {
    anchors := seq(|texts|, _ => None);
    var next: nat := 0;
    ghost var whole := Anchors(texts, timed, normalize, 0);
    NoneAnchored(texts, timed, normalize, anchors, whole);
    for i := 0 to |texts|
      invariant next <= |timed| && AnchoredSoFar(texts, timed, normalize, i, next, anchors, whole)
    {
      anchors, next := AnchorOne(texts, timed, normalize, i, next, anchors, whole);
    }
    AllAnchored(texts, timed, normalize, next, anchors, whole);
  }

  method AnchorOne(texts: seq<string>, timed: seq<Word>, normalize: string -> string, i: nat, next: nat,
        anchors: seq<Option<nat>>, ghost whole: seq<Option<nat>>)
    returns (more: seq<Option<nat>>, onward: nat)
    requires i < |texts| && next <= |timed| && AnchoredSoFar(texts, timed, normalize, i, next, anchors, whole)
    ensures onward <= |timed| && AnchoredSoFar(texts, timed, normalize, i + 1, onward, more, whole)
  {
    var m := Search(normalize(texts[i]), timed, normalize, next);
    OneAnchored(texts, timed, normalize, i, next, anchors, whole);
    if m.None? {
      return anchors, next;
    }
    more, onward := anchors[i := m], m.value + 1;
  }

  /** The first `i` displayed words have their anchors, the others none yet, and the search stands at `next`. */
  ghost predicate AnchoredSoFar(texts: seq<string>, timed: seq<Word>, normalize: string -> string, i: nat, next: nat,
        anchors: seq<Option<nat>>, whole: seq<Option<nat>>) {
    && i <= |texts| == |anchors| == |whole|
    && Anchors(texts[i..], timed, normalize, next) == whole[i..]
    && forall k | 0 <= k < |texts| :: anchors[k] == if k < i then whole[k] else None
  }

  lemma NoneAnchored(texts: seq<string>, timed: seq<Word>, normalize: string -> string, anchors: seq<Option<nat>>,
        whole: seq<Option<nat>>)
    requires |anchors| == |texts| && forall k | 0 <= k < |texts| :: anchors[k] == None
    requires whole == Anchors(texts, timed, normalize, 0)
    ensures AnchoredSoFar(texts, timed, normalize, 0, 0, anchors, whole)
  {
    assert texts[0..] == texts && whole[0..] == whole;
  }

  lemma OneAnchored(texts: seq<string>, timed: seq<Word>, normalize: string -> string, i: nat, next: nat,
        anchors: seq<Option<nat>>, whole: seq<Option<nat>>)
    requires i < |texts| && AnchoredSoFar(texts, timed, normalize, i, next, anchors, whole)
    ensures var m := FirstMatch(normalize(texts[i]), timed, normalize, next, Horizon(timed, next));
            AnchoredSoFar(texts, timed, normalize, i + 1, if m.Some? then m.value + 1 else next, anchors[i := m], whole)
    ensures anchors[i := None] == anchors
  {
    AnchorsStep(texts, timed, normalize, i, next);
    assert whole[i..][0] == whole[i] && whole[i..][1..] == whole[i + 1..];
  }

  lemma AllAnchored(texts: seq<string>, timed: seq<Word>, normalize: string -> string, next: nat,
        anchors: seq<Option<nat>>, whole: seq<Option<nat>>)
    requires AnchoredSoFar(texts, timed, normalize, |texts|, next, anchors, whole)
    ensures anchors == whole
  {
  }

  /** The look-ahead: the first of the next four words that reads like `key`. */
  method Search(key: string, timed: seq<Word>, normalize: string -> string, next: nat) returns (m: Option<nat>)
    requires next <= |timed|
    ensures m == FirstMatch(key, timed, normalize, next, Horizon(timed, next))
    ensures m.Some? ==> next <= m.value < next + 4 && m.value < |timed| && normalize(timed[m.value].w) == key
    ensures forall n | next <= n < |timed| && n < (if m.Some? then m.value else next + 4) ::
              normalize(timed[n].w) != key
  {
    var stop := Horizon(timed, next);
    for k := next to stop
      invariant FirstMatch(key, timed, normalize, k, stop) == FirstMatch(key, timed, normalize, next, stop)
    {
      if normalize(timed[k].w) == key { return Some(k); }
    }
    m := None;
  }

  lemma AnchoredStep(texts: seq<string>, anchors: seq<Option<nat>>, timed: seq<Word>, end: int, prevEnd: int, i: nat)
    requires |texts| == |anchors| && InRange(anchors, |timed|) && i < |texts| && anchors[i].Some?
    ensures var a := timed[anchors[i].value];
            Layout(texts[i..], anchors[i..], timed, end, prevEnd)
            == [Token(texts[i], a.startMs, a.endMs)] + Layout(texts[i + 1..], anchors[i + 1..], timed, end, a.endMs)
  {
    assert texts[i..][1..] == texts[i + 1..] && anchors[i..][1..] == anchors[i + 1..];
  }

  lemma GapStep(texts: seq<string>, anchors: seq<Option<nat>>, timed: seq<Word>, end: int, prevEnd: int, i: nat, j: nat)
    requires |texts| == |anchors| && InRange(anchors, |timed|) && i < j <= |texts|
    requires (forall k | i <= k < j :: anchors[k].None?) && (j < |texts| ==> anchors[j].Some?)
    ensures var nextStart := Following(anchors, timed, end, prevEnd, j);
            Layout(texts[i..], anchors[i..], timed, end, prevEnd)
            == Interpolated(texts[i..j], prevEnd, Max(prevEnd, nextStart))
                + Layout(texts[j..], anchors[j..], timed, end, nextStart)
  {
    GapIs(anchors[i..], j - i);
    assert texts[i..][..j - i] == texts[i..j];
    assert texts[i..][j - i..] == texts[j..] && anchors[i..][j - i..] == anchors[j..];
  }

  method Tokens(u: Utterance, normalize: string -> string) returns (out: seq<Token>)
    ensures out == Shown(u, normalize)
  {
    var texts := Split(u.text);
    if texts == [] { return []; }
    var timed := Timed(u.words);
    if timed == [] {
      if u.endMs > u.startMs { out := Interpolate(texts, u.startMs, u.endMs); } else { out := []; }
      return;
    }
    var anchors := FindAnchors(texts, timed, normalize);
    AnchorsMatch(texts, timed, normalize, 0);
    out := LayOut(texts, anchors, timed, u.endMs, Earliest(u));
  }

  method LayOut(texts: seq<string>, anchors: seq<Option<nat>>, timed: seq<Word>, end: int, earliest: int)
    returns (out: seq<Token>)
    requires |texts| == |anchors| && InRange(anchors, |timed|)
    ensures out == Layout(texts, anchors, timed, end, earliest)
  {
    out := [];
    var i := 0;
    var prevEnd := earliest;
    ghost var whole := Layout(texts, anchors, timed, end, earliest);
    assert texts[0..] == texts && anchors[0..] == anchors;
    while i < |texts|
      invariant LaidOut(texts, anchors, timed, end, i, prevEnd, out, whole)
    {
      if anchors[i].Some? {
        AnchoredLaid(texts, anchors, timed, end, i, prevEnd, out, whole);
        var a := timed[anchors[i].value];
        out := out + [Token(texts[i], a.startMs, a.endMs)];
        prevEnd := a.endMs;
        i := i + 1;
      } else {
        var j := NextAnchored(anchors, i);
        var nextStart := if j < |texts| then timed[anchors[j].value].startMs else Max(prevEnd, end);
        var filled := Interpolate(texts[i..j], prevEnd, Max(prevEnd, nextStart));
        GapLaid(texts, anchors, timed, end, i, j, prevEnd, out, whole);
        out := out + filled;
        prevEnd := nextStart;
        i := j;
      }
    }
    AllLaid(texts, anchors, timed, end, i, prevEnd, out, whole);
  }

  method NextAnchored(anchors: seq<Option<nat>>, i: nat) returns (j: nat)
    requires i < |anchors| && anchors[i].None?
    ensures i < j <= |anchors| && (forall k | i <= k < j :: anchors[k].None?) && (j < |anchors| ==> anchors[j].Some?)
  {
    j := i;
    while j < |anchors| && anchors[j].None?
      invariant i <= j <= |anchors| && forall k | i <= k < j :: anchors[k].None?
    {
      j := j + 1;
    }
  }

  /** The tokens so far, and what the words from `i` on will give, are the whole. */
  ghost predicate LaidOut(texts: seq<string>, anchors: seq<Option<nat>>, timed: seq<Word>, end: int, i: nat,
        prevEnd: int, out: seq<Token>, whole: seq<Token>) {
    && |texts| == |anchors| && InRange(anchors, |timed|) && i <= |texts|
    && out + Layout(texts[i..], anchors[i..], timed, end, prevEnd) == whole
  }

  lemma AnchoredLaid(texts: seq<string>, anchors: seq<Option<nat>>, timed: seq<Word>, end: int, i: nat, prevEnd: int,
        out: seq<Token>, whole: seq<Token>)
    requires LaidOut(texts, anchors, timed, end, i, prevEnd, out, whole) && i < |texts| && anchors[i].Some?
    ensures var a := timed[anchors[i].value];
            LaidOut(texts, anchors, timed, end, i + 1, a.endMs, out + [Token(texts[i], a.startMs, a.endMs)], whole)
  {
    AnchoredStep(texts, anchors, timed, end, prevEnd, i);
    var a := timed[anchors[i].value];
    Joined(out, [Token(texts[i], a.startMs, a.endMs)], Layout(texts[i + 1..], anchors[i + 1..], timed, end, a.endMs));
  }

  lemma GapLaid(texts: seq<string>, anchors: seq<Option<nat>>, timed: seq<Word>, end: int, i: nat, j: nat, prevEnd: int,
        out: seq<Token>, whole: seq<Token>)
    requires LaidOut(texts, anchors, timed, end, i, prevEnd, out, whole) && i < j <= |texts|
    requires (forall k | i <= k < j :: anchors[k].None?) && (j < |texts| ==> anchors[j].Some?)
    ensures var nextStart := Following(anchors, timed, end, prevEnd, j);
            LaidOut(texts, anchors, timed, end, j, nextStart,
                    out + Interpolated(texts[i..j], prevEnd, Max(prevEnd, nextStart)), whole)
  {
    GapStep(texts, anchors, timed, end, prevEnd, i, j);
    var nextStart := Following(anchors, timed, end, prevEnd, j);
    Joined(out, Interpolated(texts[i..j], prevEnd, Max(prevEnd, nextStart)),
            Layout(texts[j..], anchors[j..], timed, end, nextStart));
  }

  lemma AllLaid(texts: seq<string>, anchors: seq<Option<nat>>, timed: seq<Word>, end: int, i: nat, prevEnd: int,
        out: seq<Token>, whole: seq<Token>)
    requires LaidOut(texts, anchors, timed, end, i, prevEnd, out, whole) && i >= |texts|
    ensures out == whole
  {
  }

  lemma {:induction false} GapIs(anchors: seq<Option<nat>>, n: nat)
    requires n <= |anchors| && (forall i | 0 <= i < n :: anchors[i].None?) && (n < |anchors| ==> anchors[n].Some?)
    ensures Gap(anchors) == n
  {
    if n > 0 { GapIs(anchors[1..], n - 1); }
  }

  // ----------------------------------------------------------------- claims

  /** Recognised words come in time order and do not overlap. */
  ghost predicate InOrder(timed: seq<Word>) {
    && (forall i | 0 <= i < |timed| :: timed[i].startMs < timed[i].endMs)
    && forall i, j | 0 <= i < j < |timed| :: timed[i].endMs <= timed[j].startMs
  }

  /** The end of what is shown: the utterance's, or its last word's if later. */
  function Latest(timed: seq<Word>, end: int): int {
    if timed == [] then end else Max(end, timed[|timed| - 1].endMs)
  }

  lemma {:induction false} LayoutIsTimely(texts: seq<string>, anchors: seq<Option<nat>>, timed: seq<Word>,
        end: int, prevEnd: int, next: nat)
    requires |texts| == |anchors| && Climbing(anchors, next, |timed|) && InOrder(timed)
    requires AllWords(texts)
    requires forall k | next <= k < |timed| :: prevEnd <= timed[k].startMs
    requires prevEnd <= Latest(timed, end)
    ensures Timely(Layout(texts, anchors, timed, end, prevEnd), prevEnd, Latest(timed, end))
    decreases |texts|, if anchors != [] && anchors[0].Some? then 0 else 1
  {
    if texts == [] {
    } else if anchors[0].Some? {
      var w := timed[anchors[0].value];
      var later := Layout(texts[1..], anchors[1..], timed, end, w.endMs);
      AnchorsClimbOn(anchors, next, 0, |timed|);
      WordsAfter(timed, end, anchors[0].value);
      LayoutIsTimely(texts[1..], anchors[1..], timed, end, w.endMs, anchors[0].value + 1);
      TimelyJoin([Token(texts[0], w.startMs, w.endMs)], later, prevEnd, w.endMs, Latest(timed, end));
    } else {
      var j := Gap(anchors);
      var nextStart := Following(anchors, timed, end, prevEnd, j);
      var later := Layout(texts[j..], anchors[j..], timed, end, nextStart);
      var from := if j < |anchors| then anchors[j].value else |timed|;
      GapEndsInTime(anchors, timed, end, prevEnd, next, j);
      InterpolatedIsTimely(texts[..j], prevEnd, nextStart);
      AnchorsFrom(anchors, next, j, |timed|);
      LayoutIsTimely(texts[j..], anchors[j..], timed, end, nextStart, from);
      TimelyJoin(Interpolated(texts[..j], prevEnd, nextStart), later, prevEnd, nextStart, Latest(timed, end));
    }
  }

  /** Past an anchored word, the anchors go on from the next word. */
  lemma AnchorsClimbOn(anchors: seq<Option<nat>>, next: nat, i: nat, count: nat)
    requires Climbing(anchors, next, count) && i < |anchors| && anchors[i].Some?
    ensures Climbing(anchors[i + 1..], anchors[i].value + 1, count)
  {
    var later := anchors[i + 1..];
    assert forall k | 0 <= k < |later| :: later[k] == anchors[i + 1 + k];
  }

  /** From the end of a gap, they start at the word found there. */
  lemma AnchorsFrom(anchors: seq<Option<nat>>, next: nat, j: nat, count: nat)
    requires Climbing(anchors, next, count) && j <= |anchors| && (j < |anchors| ==> anchors[j].Some?)
    ensures Climbing(anchors[j..], if j < |anchors| then anchors[j].value else count, count)
  {
    var later := anchors[j..];
    assert forall k | 0 <= k < |later| :: later[k] == anchors[j + k];
  }

  /** What follows a word starts no earlier than it ends. */
  lemma WordsAfter(timed: seq<Word>, end: int, k: nat)
    requires InOrder(timed) && k < |timed|
    ensures timed[k].startMs < timed[k].endMs <= Latest(timed, end)
    ensures forall n | k + 1 <= n < |timed| :: timed[k].endMs <= timed[n].startMs
  {
    assert k < |timed| - 1 ==> timed[k].endMs <= timed[|timed| - 1].startMs < timed[|timed| - 1].endMs;
  }

  /** A gap ends no earlier than it starts, and no later than the next word starts. */
  lemma GapEndsInTime(anchors: seq<Option<nat>>, timed: seq<Word>, end: int, prevEnd: int, next: nat, j: nat)
    requires Climbing(anchors, next, |timed|) && InOrder(timed) && j <= |anchors|
              && (j < |anchors| ==> anchors[j].Some?)
    requires (forall k | next <= k < |timed| :: prevEnd <= timed[k].startMs) && prevEnd <= Latest(timed, end)
    ensures var nextStart := Following(anchors, timed, end, prevEnd, j);
            && prevEnd <= nextStart <= Latest(timed, end)
            && forall k | (if j < |anchors| then anchors[j].value else |timed|) <= k < |timed| ::
                nextStart <= timed[k].startMs
  {
    if j < |anchors| {
      WordsAfter(timed, end, anchors[j].value);
    }
  }

  /** No token starts before the utterance, or its first timed word if earlier … */
  function Opening(u: Utterance): int {
    var timed := Timed(u.words);
    if timed != [] && timed[0].startMs < u.startMs then timed[0].startMs else u.startMs
  }

  /** … and none ends after the utterance, or its last timed word if later. */
  function Closing(u: Utterance): int {
    var timed := Timed(u.words);
    if timed != [] && timed[|timed| - 1].endMs > u.endMs then timed[|timed| - 1].endMs else u.endMs
  }

  /**
   What is shown is the displayed words, nothing missing or added, in time order and within the utterance:
   every token ends by the time the next one starts.
   */
  lemma ShownInOrder(u: Utterance, normalize: string -> string)
    requires InOrder(Timed(u.words))
    ensures var shown := Shown(u, normalize);
            && (shown == [] || |shown| == |Split(u.text)|)
            && (forall i | 0 <= i < |shown| :: shown[i].text == Split(u.text)[i])
            && (shown == [] <==> Split(u.text) == [] || (Timed(u.words) == [] && u.endMs <= u.startMs))
            && (shown != [] ==> Timely(shown, Opening(u), Closing(u)))
  {
    if Split(u.text) != [] {
      if Timed(u.words) == [] { UntimedLineInOrder(u, normalize); } else { TimedLineInOrder(u, normalize); }
    }
  }

  /** These tokens show these words, in time order and within the bounds. */
  ghost predicate InLine(tokens: seq<Token>, texts: seq<string>, earliest: int, latest: int) {
    |tokens| == |texts| && (forall i | 0 <= i < |texts| :: tokens[i].text == texts[i])
        && Timely(tokens, earliest, latest)
  }

  lemma UntimedLineInOrder(u: Utterance, normalize: string -> string)
    requires Split(u.text) != [] && Timed(u.words) == []
    ensures if u.endMs > u.startMs then InLine(Shown(u, normalize), Split(u.text), Opening(u), Closing(u))
            else Shown(u, normalize) == []
  {
    if u.endMs > u.startMs { InterpolatedIsTimely(Split(u.text), u.startMs, u.endMs); }
  }

  lemma TimedLineInOrder(u: Utterance, normalize: string -> string)
    requires Split(u.text) != [] && Timed(u.words) != [] && InOrder(Timed(u.words))
    ensures InLine(Shown(u, normalize), Split(u.text), Opening(u), Closing(u))
  {
    AnchoredInOrder(Split(u.text), Timed(u.words), normalize, u.endMs, Earliest(u));
    assert Earliest(u) == Opening(u) && Latest(Timed(u.words), u.endMs) == Closing(u);
  }

  lemma AnchoredInOrder(texts: seq<string>, timed: seq<Word>, normalize: string -> string, end: int, earliest: int)
    requires timed != [] && InOrder(timed) && AllWords(texts) && earliest <= timed[0].startMs
    ensures var anchors := Anchors(texts, timed, normalize, 0);
            && InRange(anchors, |timed|)
            && InLine(Layout(texts, anchors, timed, end, earliest), texts, earliest, Latest(timed, end))
  {
    AnchorsMatch(texts, timed, normalize, 0);
    forall k | 0 <= k < |timed|
      ensures earliest <= timed[k].startMs
    {
      if k > 0 { assert timed[0].endMs <= timed[k].startMs; }
    }
    WordsAfter(timed, end, 0);
    var anchors := Anchors(texts, timed, normalize, 0);
    LayoutIsTimely(texts, anchors, timed, end, earliest, 0);
    forall i | 0 <= i < |texts|
      ensures Layout(texts, anchors, timed, end, earliest)[i].text == texts[i]
    {
      LayoutTexts(texts, anchors, timed, end, earliest, i);
    }
  }

  lemma ShownAt(u: Utterance, normalize: string -> string, i: nat, k: nat)
    requires i < |Split(u.text)| && Anchors(Split(u.text), Timed(u.words), normalize, 0)[i] == Some(k)
    ensures k < |Timed(u.words)| && |Shown(u, normalize)| == |Split(u.text)|
    ensures Shown(u, normalize)[i] == Token(Split(u.text)[i], Timed(u.words)[k].startMs, Timed(u.words)[k].endMs)
  {
    var texts, timed := Split(u.text), Timed(u.words);
    AnchorsMatch(texts, timed, normalize, 0);
    LayoutTexts(texts, Anchors(texts, timed, normalize, 0), timed, u.endMs, Earliest(u), i);
  }

  /** A line nobody edited lights each word exactly while it is spoken. */
  lemma UneditedKeepsTimes(u: Utterance, normalize: string -> string, i: nat)
    requires i < |Split(u.text)| == |Timed(u.words)|
    requires forall k | 0 <= k < |Split(u.text)| :: normalize(Split(u.text)[k]) == normalize(Timed(u.words)[k].w)
    ensures |Shown(u, normalize)| == |Timed(u.words)|
    ensures Shown(u, normalize)[i] == Token(Split(u.text)[i], Timed(u.words)[i].startMs, Timed(u.words)[i].endMs)
  {
    var texts, timed := Split(u.text), Timed(u.words);
    assert forall k | 0 <= k < |texts| :: normalize(texts[k]) == normalize(timed[0 + k].w);
    UneditedAnchors(texts, timed, normalize, 0);
    assert Anchors(texts, timed, normalize, 0)[i] == Some(0 + i);
    ShownAt(u, normalize, i, i);
  }

  // ------------------------------------------------------------------ lookup

  ghost predicate StartSorted<T>(items: seq<T>, start: T -> int) {
    forall i, j | 0 <= i < j < |items| :: start(items[i]) <= start(items[j])
  }

  /** On a list in order of start: how far it has come by `ms`; -1 before the first. */
  method LastStarted<T>(items: seq<T>, ms: int, start: T -> int) returns (found: int)
    ensures -1 <= found < |items|
    ensures StartSorted(items, start) ==> forall i | 0 <= i < |items| :: start(items[i]) <= ms <==> i <= found
  {
    var lo, hi := 0, |items| - 1;
    found := -1;
    while lo <= hi
      invariant 0 <= lo <= hi + 1 <= |items| && found == lo - 1
      invariant StartSorted(items, start) ==> forall i | 0 <= i < lo :: start(items[i]) <= ms
      invariant StartSorted(items, start) ==> forall i | hi < i < |items| :: start(items[i]) > ms
      decreases hi - lo
    {
      var mid := (lo + hi) / 2;
      if start(items[mid]) <= ms {
        found := mid;
        lo := mid + 1;
      } else {
        hi := mid - 1;
      }
    }
  }

  /** A token lit at `ms`: started, and not yet out, lingering included. */
  predicate Lit(t: Token, ms: int)
    ensures Lit(t, ms) <==> t.startMs <= ms && ms - 120 < t.endMs
  {
    t.startMs <= ms < t.endMs + LINGER_MS
  }

  /** The token to light at `ms`, if any. */
  method ActiveToken(tokens: seq<Token>, ms: int) returns (active: Option<nat>)
    ensures active.Some? ==> active.value < |tokens|
    ensures forall earliest, latest | Timely(tokens, earliest, latest) ::
              match active
              case Some(i) => Lit(tokens[i], ms) && forall k | i < k < |tokens| :: !Lit(tokens[k], ms)
              case None => forall k | 0 <= k < |tokens| :: !Lit(tokens[k], ms)
  {
    var i := LastStarted(tokens, ms, (t: Token) => t.startMs);
    forall earliest, latest | Timely(tokens, earliest, latest)
      ensures forall k | 0 <= k < |tokens| :: tokens[k].startMs <= ms <==> k <= i
      ensures i >= 0 ==> forall k | 0 <= k <= i :: tokens[k].endMs <= tokens[i].endMs
    {
      TimelyIsSorted(tokens, earliest, latest);
      assert StartSorted(tokens, (t: Token) => t.startMs);
    }
    if i < 0 || ms >= tokens[i].endMs + LINGER_MS {
      active := None;
    } else {
      active := Some(i);
    }
  }

  lemma TimelyIsSorted(tokens: seq<Token>, earliest: int, latest: int)
    requires Timely(tokens, earliest, latest)
    ensures forall i, j | 0 <= i < j < |tokens| :: tokens[i].endMs <= tokens[j].startMs
  {
    forall i, j | 0 <= i < j < |tokens|
      ensures tokens[i].endMs <= tokens[j].startMs
    {
      LaterStartsLater(tokens, earliest, latest, i, j);
    }
  }

  lemma {:induction false} LaterStartsLater(tokens: seq<Token>, earliest: int, latest: int, i: nat, j: nat)
    requires Timely(tokens, earliest, latest) && i < j < |tokens|
    ensures tokens[i].endMs <= tokens[j].startMs
    decreases j
  {
    if j > i + 1 { LaterStartsLater(tokens, earliest, latest, i, j - 1); }
  }
}
