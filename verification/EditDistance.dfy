/** Word error counting: the two-row table computes the least cost of turning one word list into the other. */
module EditDistance {
  import opened Arithmetic
  import opened Types

  // --------------------------------------------------------------- scripts

  /** One step of rewriting a list from its end. */
  datatype Edit<W> = Keep | Replace(word: W) | Insert(word: W) | Delete

  /** A script, read from its last step back, rewrites `a`; `None` when it does not fit. */
  function Rewrite<W>(script: seq<Edit<W>>, a: seq<W>): Option<seq<W>> {
    if script == [] then (if a == [] then Some([]) else None)
    else
      var rest := script[..|script| - 1];
      match script[|script| - 1]
      case Keep => if a == [] then None else Append(Rewrite(rest, a[..|a| - 1]), a[|a| - 1])
      case Replace(w) => if a == [] then None else Append(Rewrite(rest, a[..|a| - 1]), w)
      case Insert(w) => Append(Rewrite(rest, a), w)
      case Delete => if a == [] then None else Rewrite(rest, a[..|a| - 1])
  }

  function Append<W>(s: Option<seq<W>>, w: W): Option<seq<W>> {
    if s.Some? then Some(s.value + [w]) else None
  }

  /** Keeping a word is free; every other step costs one. */
  function Cost<W>(script: seq<Edit<W>>): nat {
    if script == [] then 0
    else Cost(script[..|script| - 1]) + if script[|script| - 1].Keep? then 0 else 1
  }

  // -------------------------------------------------------------- distance

  /** The recurrence behind the table, on whole lists. */
  function Distance<W(==)>(a: seq<W>, b: seq<W>): nat
    decreases |a| + |b|
  {
    if a == [] then |b|
    else if b == [] then |a|
    else
      var a', b' := a[..|a| - 1], b[..|b| - 1];
      var cost := if a[|a| - 1] != b[|b| - 1] then 1 else 0;
      Min(Min(Distance(a, b') + 1, Distance(a', b) + 1), Distance(a', b') + cost)
  }

  /** The distance of two prefixes. */
  ghost function Cell<W>(a: seq<W>, b: seq<W>, i: nat, j: nat): nat
    requires i <= |a| && j <= |b|
  {
    Distance(a[..i], b[..j])
  }

  ghost predicate IsRow<W>(row: seq<nat>, a: seq<W>, b: seq<W>, i: nat, upTo: nat)
    requires i <= |a|
  {
    |row| == |b| + 1 && forall k | 0 <= k < upTo && k <= |b| :: row[k] == Cell(a, b, i, k)
  }

  /** The two rows, overwritten and swapped. */
  method ComputeDistance<W(==)>(a: seq<W>, b: seq<W>) returns (d: nat)
    ensures d == Distance(a, b)
  {
    var prev := new nat[|b| + 1](j => j);
    var cur := new nat[|b| + 1](_ => 0);
    FirstRow(a, b);
    var i := 1;
    while i <= |a|
      invariant 1 <= i <= |a| + 1 && prev != cur && fresh(prev) && fresh(cur)
      invariant cur.Length == |b| + 1 && IsRow(prev[..], a, b, i - 1, |b| + 1)
    {
      cur[0] := i;
      FirstCell(a, b, i);
      var j := 1;
      while j <= |b|
        invariant 1 <= j <= |b| + 1
        invariant IsRow(prev[..], a, b, i - 1, |b| + 1) && IsRow(cur[..], a, b, i, j)
      {
        var cost := if a[i - 1] != b[j - 1] then 1 else 0;
        ghost var before := cur[..];
        cur[j] := Min(Min(prev[j] + 1, cur[j - 1] + 1), prev[j - 1] + cost);
        CellFromNeighbours(a, b, i, j);
        assert prev[..][j] == Cell(a, b, i - 1, j) && prev[..][j - 1] == Cell(a, b, i - 1, j - 1);
        assert before[j - 1] == Cell(a, b, i, j - 1);
        assert cur[..] == before[j := Cell(a, b, i, j)];
        j := j + 1;
      }
      prev, cur := cur, prev;
      i := i + 1;
    }
    assert a[..|a|] == a && b[..|b|] == b;
    assert prev[..][|b|] == Cell(a, b, |a|, |b|);
    d := prev[|b|];
  }

  lemma FirstRow<W>(a: seq<W>, b: seq<W>)
    ensures forall j | 0 <= j <= |b| :: Cell(a, b, 0, j) == j
  {
  }

  lemma FirstCell<W>(a: seq<W>, b: seq<W>, i: nat)
    requires i <= |a|
    ensures Cell(a, b, i, 0) == i
  {
  }

  lemma CellFromNeighbours<W>(a: seq<W>, b: seq<W>, i: nat, j: nat)
    requires 1 <= i <= |a| && 1 <= j <= |b|
    ensures Cell(a, b, i, j)
            == Min(Min(Cell(a, b, i - 1, j) + 1, Cell(a, b, i, j - 1) + 1),
                   Cell(a, b, i - 1, j - 1) + if a[i - 1] != b[j - 1] then 1 else 0)
  {
    var x, y := a[..i], b[..j];
    assert x[..i - 1] == a[..i - 1] && y[..j - 1] == b[..j - 1];
    assert x[i - 1] == a[i - 1] && y[j - 1] == b[j - 1];
  }

  // ----------------------------------------------- distance is least cost

  /** No script is cheaper … */
  lemma {:induction false} NoScriptIsCheaper<W>(script: seq<Edit<W>>, a: seq<W>, b: seq<W>)
    requires Rewrite(script, a) == Some(b)
    ensures Distance(a, b) <= Cost(script)
    decreases |script|
  {
    if script != [] {
      var rest := script[..|script| - 1];
      match script[|script| - 1]
      case Keep =>
        LastWords(rest, a[..|a| - 1], b, a[|a| - 1]);
        NoScriptIsCheaper(rest, a[..|a| - 1], b[..|b| - 1]);
      case Replace(w) =>
        LastWords(rest, a[..|a| - 1], b, w);
        NoScriptIsCheaper(rest, a[..|a| - 1], b[..|b| - 1]);
      case Insert(w) =>
        LastWords(rest, a, b, w);
        NoScriptIsCheaper(rest, a, b[..|b| - 1]);
        InsertAddsOne(a, b);
      case Delete =>
        NoScriptIsCheaper(rest, a[..|a| - 1], b);
        DeleteAddsOne(a, b);
    }
  }

  lemma LastWords<W>(rest: seq<Edit<W>>, a: seq<W>, b: seq<W>, w: W)
    requires Append(Rewrite(rest, a), w) == Some(b)
    ensures b != [] && b[|b| - 1] == w && Rewrite(rest, a) == Some(b[..|b| - 1])
  {
    assert (Rewrite(rest, a).value + [w])[..|b| - 1] == Rewrite(rest, a).value;
  }

  lemma {:induction false} InsertAddsOne<W>(a: seq<W>, b: seq<W>)
    requires b != []
    ensures Distance(a, b) <= Distance(a, b[..|b| - 1]) + 1
  {
  }

  lemma {:induction false} DeleteAddsOne<W>(a: seq<W>, b: seq<W>)
    requires a != []
    ensures Distance(a, b) <= Distance(a[..|a| - 1], b) + 1
  {
  }

  /** … and some script costs exactly this much. */
  lemma {:induction false} SomeScriptCostsIt<W>(a: seq<W>, b: seq<W>) returns (script: seq<Edit<W>>)
    ensures Rewrite(script, a) == Some(b) && Cost(script) == Distance(a, b)
    decreases |a| + |b|
  {
    if a == [] && b == [] {
      script := [];
    } else if a == [] {
      var rest := SomeScriptCostsIt(a, b[..|b| - 1]);
      script := Extended(rest, Insert(b[|b| - 1]));
      assert b == b[..|b| - 1] + [b[|b| - 1]];
    } else if b == [] {
      var rest := SomeScriptCostsIt(a[..|a| - 1], b);
      script := Extended(rest, Delete);
    } else {
      assert b == b[..|b| - 1] + [b[|b| - 1]];
      var a', b' := a[..|a| - 1], b[..|b| - 1];
      if Distance(a, b) == Distance(a, b') + 1 {
        var rest := SomeScriptCostsIt(a, b');
        script := Extended(rest, Insert(b[|b| - 1]));
      } else if Distance(a, b) == Distance(a', b) + 1 {
        var rest := SomeScriptCostsIt(a', b);
        script := Extended(rest, Delete);
      } else {
        var rest := SomeScriptCostsIt(a', b');
        script := Extended(rest, if a[|a| - 1] == b[|b| - 1] then Keep else Replace(b[|b| - 1]));
      }
    }
  }

  function Extended<W>(rest: seq<Edit<W>>, e: Edit<W>): (script: seq<Edit<W>>)
    ensures |script| == |rest| + 1 && script[|script| - 1] == e && script[..|script| - 1] == rest
  {
    rest + [e]
  }

  // ---------------------------------------------------------- metric laws

  lemma {:induction false} Symmetric<W>(a: seq<W>, b: seq<W>)
    ensures Distance(a, b) == Distance(b, a)
    decreases |a| + |b|
  {
    if a != [] && b != [] {
      Symmetric(a, b[..|b| - 1]);
      Symmetric(a[..|a| - 1], b);
      Symmetric(a[..|a| - 1], b[..|b| - 1]);
    }
  }

  lemma {:induction false} ZeroIffEqual<W>(a: seq<W>, b: seq<W>)
    ensures Distance(a, b) == 0 <==> a == b
    decreases |a| + |b|
  {
    if a != [] && b != [] {
      assert a == a[..|a| - 1] + [a[|a| - 1]] && b == b[..|b| - 1] + [b[|b| - 1]];
      ZeroIffEqual(a[..|a| - 1], b[..|b| - 1]);
    }
  }

  /** Scripts compose, at no more than their joint cost. */
  lemma {:induction false} Compose<W>(p: seq<Edit<W>>, q: seq<Edit<W>>, a: seq<W>, b: seq<W>, c: seq<W>)
    returns (r: seq<Edit<W>>)
    requires Rewrite(p, a) == Some(b) && Rewrite(q, b) == Some(c)
    ensures Rewrite(r, a) == Some(c) && Cost(r) <= Cost(p) + Cost(q)
    decreases |p| + |q|
  {
    if q != [] && q[|q| - 1].Insert? {
      var w := q[|q| - 1].word;
      LastWords(q[..|q| - 1], b, c, w);
      var rest := Compose(p, q[..|q| - 1], a, b, c[..|c| - 1]);
      r := Extended(rest, Insert(w));
      assert c == c[..|c| - 1] + [w];
    } else if p != [] && p[|p| - 1].Delete? {
      var rest := Compose(p[..|p| - 1], q, a[..|a| - 1], b, c);
      r := Extended(rest, Delete);
    } else if p == [] || q == [] {
      r := [];
    } else {
      r := ComposeLast(p, q, a, b, c);
    }
  }

  /** Both scripts end on the same word of the middle list. */
  lemma {:induction false} ComposeLast<W>(p: seq<Edit<W>>, q: seq<Edit<W>>, a: seq<W>, b: seq<W>, c: seq<W>)
    returns (r: seq<Edit<W>>)
    requires Rewrite(p, a) == Some(b) && Rewrite(q, b) == Some(c)
    requires p != [] && q != [] && !p[|p| - 1].Delete? && !q[|q| - 1].Insert?
    ensures Rewrite(r, a) == Some(c) && Cost(r) <= Cost(p) + Cost(q)
    decreases |p| + |q|, 0
  {
    var p', q' := p[..|p| - 1], q[..|q| - 1];
    var made := if p[|p| - 1].Keep? then a[|a| - 1] else p[|p| - 1].word;
    var a' := if p[|p| - 1].Insert? then a else a[..|a| - 1];
    LastWords(p', a', b, made);
    var b' := b[..|b| - 1];
    if q[|q| - 1].Delete? {
      var rest := Compose(p', q', a', b', c);
      r := if p[|p| - 1].Insert? then rest else Extended(rest, Delete);
    } else {
      var kept := if q[|q| - 1].Keep? then made else q[|q| - 1].word;
      LastWords(q', b', c, kept);
      assert c == c[..|c| - 1] + [kept];
      var rest := Compose(p', q', a', b', c[..|c| - 1]);
      r := Extended(rest, if p[|p| - 1].Insert? then Insert(kept)
                          else if p[|p| - 1].Keep? && q[|q| - 1].Keep? then Keep else Replace(kept));
    }
  }

  lemma Triangle<W>(a: seq<W>, b: seq<W>, c: seq<W>)
    ensures Distance(a, c) <= Distance(a, b) + Distance(b, c)
  {
    var p := SomeScriptCostsIt(a, b);
    var q := SomeScriptCostsIt(b, c);
    var r := Compose(p, q, a, b, c);
    NoScriptIsCheaper(r, a, c);
  }
}
