/** Splitting text at white space, as `split(/\s+/)` does, and why reflowing white space loses no word. */
module Words {
  import opened Collections
  import T = Text

  /** First white space at or behind the start, or the length. */
  function WordEnd(s: string): (n: nat)
    ensures n <= |s|
    ensures forall k :: 0 <= k < n ==> !T.IsSpace(s[k])
    ensures n < |s| ==> T.IsSpace(s[n])
  {
    if s == "" || T.IsSpace(s[0]) then 0 else 1 + WordEnd(s[1..])
  }

  /** The maximal stretches without white space. */
  function WordsOf(s: string): seq<string>
    decreases |s|
  {
    if s == "" then []
    else if T.IsSpace(s[0]) then WordsOf(s[1..])
    else [s[..WordEnd(s)]] + WordsOf(s[WordEnd(s)..])
  }

  function SkipSpace(s: string): (rest: string)
    ensures |rest| <= |s|
    ensures s != "" && T.IsSpace(s[0]) ==> |rest| < |s|
  {
    if s != "" && T.IsSpace(s[0]) then SkipSpace(s[1..]) else s
  }

  /** `s.split(/\s+/)`: white space at either end yields an empty piece there. */
  function SplitSpaces(s: string): (r: seq<string>)
    ensures r != []
    decreases |s|
  {
    var n := WordEnd(s);
    if n == |s| then [s] else [s[..n]] + SplitSpaces(SkipSpace(s[n..]))
  }

  predicate Trimmed(s: string) {
    s != "" && !T.IsSpace(s[0]) && !T.IsSpace(s[|s| - 1])
  }

  predicate IsWord(w: string) {
    w != "" && forall k :: 0 <= k < |w| ==> !T.IsSpace(w[k])
  }

  lemma {:induction false} SkipSpaceSuffix(s: string)
    ensures |SkipSpace(s)| <= |s| && SkipSpace(s) == s[|s| - |SkipSpace(s)|..]
  {
    if s != "" && T.IsSpace(s[0]) {
      SkipSpaceSuffix(s[1..]);
      Shift(s, 1, |s| - 1 - |SkipSpace(s[1..])|);
    }
  }

  lemma {:induction false} SkipSpaceWords(s: string)
    ensures WordsOf(SkipSpace(s)) == WordsOf(s)
    ensures SkipSpace(s) != "" ==> !T.IsSpace(SkipSpace(s)[0])
    ensures SkipSpace(s) == s[|s| - |SkipSpace(s)|..]
    decreases |s|
  {
    if s != "" && T.IsSpace(s[0]) {
      SkipSpaceWords(s[1..]);
    }
    SkipSpaceSuffix(s);
  }

  lemma {:induction false} WordLeft(s: string)
    requires s != "" && !T.IsSpace(s[|s| - 1])
    ensures SkipSpace(s) != "" && SkipSpace(s)[|SkipSpace(s)| - 1] == s[|s| - 1]
  {
    if T.IsSpace(s[0]) {
      WordLeft(s[1..]);
    }
  }

  lemma {:induction false} SplitIsWords(s: string)
    requires Trimmed(s)
    ensures SplitSpaces(s) == WordsOf(s)
    decreases |s|
  {
    var n := WordEnd(s);
    if n == |s| {
      assert s[..n] == s && WordsOf(s[n..]) == [];
    } else {
      SkipSpaceWords(s[n..]);
      WordLeft(s[n..]);
      SplitIsWords(SkipSpace(s[n..]));
    }
  }

  lemma {:induction false} WordEndIs(s: string, n: nat)
    requires n <= |s| && (n == |s| || T.IsSpace(s[n]))
    requires forall k :: 0 <= k < n ==> !T.IsSpace(s[k])
    ensures WordEnd(s) == n
  {
    if n > 0 {
      WordEndIs(s[1..], n - 1);
    }
  }

  lemma FirstWord(w: string, rest: string)
    requires IsWord(w) && (rest == "" || T.IsSpace(rest[0]))
    ensures WordsOf(w + rest) == [w] + WordsOf(rest)
  {
    WordEndIs(w + rest, |w|);
    Halves(w, rest);
    assert (w + rest)[0] == w[0];
  }

  lemma SpaceFirst(s: string, c: char, rest: string)
    requires T.IsSpace(c) && s == [c] + rest
    ensures WordsOf(s) == WordsOf(rest)
  {
    assert s[1..] == rest;
  }

  /** White space between two texts separates their words. */
  lemma {:induction false} WordsConcat(a: string, c: char, b: string)
    requires T.IsSpace(c)
    ensures WordsOf(a + [c] + b) == WordsOf(a) + WordsOf(b)
    decreases |a|
  {
    if a == "" {
      SpaceFirst(a + [c] + b, c, b);
      assert WordsOf(a) == [];
    } else if T.IsSpace(a[0]) {
      WordsConcat(a[1..], c, b);
      HeadOfThree(a, [c], b);
      SpaceFirst(a + [c] + b, a[0], a[1..] + [c] + b);
      SpaceFirst(a, a[0], a[1..]);
    } else {
      var w, rest := a[..WordEnd(a)], a[WordEnd(a)..];
      WordsConcat(rest, c, b);
      CutApart(a, WordEnd(a));
      FourParts(w, rest, [c], b);
      FirstWordOf(a, w, rest);
      FirstWordOf(a + [c] + b, w, rest + [c] + b);
      OneInFront(w, WordsOf(rest), WordsOf(b), WordsOf(a), WordsOf(a + [c] + b));
    }
  }

  lemma FirstWordOf(s: string, w: string, rest: string)
    requires IsWord(w) && (rest == "" || T.IsSpace(rest[0])) && s == w + rest
    ensures WordsOf(s) == [w] + WordsOf(rest)
  {
    FirstWord(w, rest);
  }

  lemma {:induction false} TrimStartWords(s: string)
    ensures WordsOf(T.TrimStart(s)) == WordsOf(s)
    ensures T.TrimStart(s) != "" ==> !T.IsSpace(T.TrimStart(s)[0])
  {
    if s != "" && T.IsSpace(s[0]) {
      TrimStartWords(s[1..]);
    }
  }

  lemma {:induction false} TrimEndWords(s: string)
    ensures WordsOf(T.TrimEnd(s)) == WordsOf(s)
  {
    if s != "" && T.IsSpace(s[|s| - 1]) {
      TrimEndWords(s[..|s| - 1]);
      LastApart(s, "");
      DropLastSpace(s, s[..|s| - 1], s[|s| - 1], "");
      assert T.TrimEnd(s) == T.TrimEnd(s[..|s| - 1]);
    } else {
      assert T.TrimEnd(s) == s;
    }
  }

  lemma {:induction false} TrimEndEnds(s: string)
    ensures T.TrimEnd(s) != "" ==> !T.IsSpace(T.TrimEnd(s)[|T.TrimEnd(s)| - 1]) && T.TrimEnd(s)[0] == s[0]
  {
    if s != "" && T.IsSpace(s[|s| - 1]) {
      TrimEndEnds(s[..|s| - 1]);
    }
  }

  lemma DropLastSpace(s: string, a: string, c: char, none: string)
    requires s == a + [c] + none && none == "" && T.IsSpace(c)
    ensures WordsOf(s) == WordsOf(a)
  {
    WordsConcat(a, c, none);
    assert WordsOf(none) == [];
  }

  lemma TrimWords(s: string)
    ensures WordsOf(T.Trim(s)) == WordsOf(s)
    ensures T.Trim(s) != "" ==> Trimmed(T.Trim(s))
  {
    TrimStartWords(s);
    TrimEndWords(T.TrimStart(s));
    TrimEndEnds(T.TrimStart(s));
  }

  function NewlineRun(s: string): (n: nat)
    ensures n <= |s|
    ensures forall k :: 0 <= k < n ==> s[k] == '\n'
  {
    if s != "" && s[0] == '\n' then 1 + NewlineRun(s[1..]) else 0
  }

  function Kept(s: string): string {
    var n := NewlineRun(s);
    if n >= 3 then "\n\n" else s[..n]
  }

  /** `s.replace(/\n{3,}/g, '\n\n')`. */
  function Collapse(s: string): string
    decreases |s|
  {
    var n := NewlineRun(s);
    if s == "" then ""
    else if n == 0 then [s[0]] + Collapse(s[1..])
    else Kept(s) + Collapse(s[n..])
  }

  lemma {:induction false} NewlinesSeparate(a: string, newlines: string, b: string)
    requires newlines != "" && forall k :: 0 <= k < |newlines| ==> newlines[k] == '\n'
    ensures WordsOf(a + newlines + b) == WordsOf(a) + WordsOf(b)
    decreases |newlines|
  {
    var more := newlines[1..];
    NewlineApart(a, newlines, more, b, a + newlines + b);
    if more == "" {
      assert more + b == b;
    } else {
      NewlinesSeparate("", more, b);
      FrontNothing(more, b, "");
    }
  }

  lemma NewlineApart(a: string, newlines: string, more: string, b: string, whole: string)
    requires newlines == ['\n'] + more && whole == a + newlines + b
    ensures WordsOf(whole) == WordsOf(a) + WordsOf(more + b)
  {
    assert whole == a + ['\n'] + (more + b);
    WordsConcat(a, '\n', more + b);
  }

  lemma FrontNothing(more: string, b: string, none: string)
    requires none == ""
    ensures none + more + b == more + b && WordsOf(none) + WordsOf(b) == WordsOf(b)
  {
    assert WordsOf(none) == [];
  }

  lemma KeptIsNewlines(s: string)
    requires NewlineRun(s) > 0
    ensures Kept(s) != "" && forall k :: 0 <= k < |Kept(s)| ==> Kept(s)[k] == '\n'
  {
  }

  lemma {:induction false} CollapseWords(before: string, s: string)
    ensures WordsOf(before + Collapse(s)) == WordsOf(before + s)
    decreases |s|
  {
    if s == "" {
    } else if NewlineRun(s) == 0 {
      CollapseWords(before + [s[0]], s[1..]);
      Associates(before, [s[0]], Collapse(s[1..]));
      HeadApart(before, s);
    } else {
      CollapseRunWords(before, s, NewlineRun(s));
    }
  }

  lemma {:induction false} CollapseRunWords(before: string, s: string, n: nat)
    requires n == NewlineRun(s) > 0
    ensures WordsOf(before + Collapse(s)) == WordsOf(before + s)
    decreases |s|, 0
  {
    var rest, shorter := s[n..], Collapse(s[n..]);
    CollapseWords("", rest);
    assert "" + shorter == shorter && "" + rest == rest;
    KeptIsNewlines(s);
    CutApart(s, n);
    RunsSeparate(before, Kept(s), shorter, s[..n], rest);
    assert Collapse(s) == Kept(s) + shorter;
  }

  lemma RunsSeparate(before: string, run1: string, rest1: string, run2: string, rest2: string)
    requires run1 != "" && forall k :: 0 <= k < |run1| ==> run1[k] == '\n'
    requires run2 != "" && forall k :: 0 <= k < |run2| ==> run2[k] == '\n'
    requires WordsOf(rest1) == WordsOf(rest2)
    ensures WordsOf(before + (run1 + rest1)) == WordsOf(before + (run2 + rest2))
  {
    NewlinesSeparate(before, run1, rest1);
    NewlinesSeparate(before, run2, rest2);
    Associates(before, run1, rest1);
    Associates(before, run2, rest2);
  }

  // ---------- lists of lines and words ----------

  function WordsOfAll(lines: seq<string>): seq<string> {
    if lines == [] then [] else WordsOf(lines[0]) + WordsOfAll(lines[1..])
  }

  lemma {:induction false} WordsOfAllConcat(a: seq<string>, b: seq<string>)
    ensures WordsOfAll(a + b) == WordsOfAll(a) + WordsOfAll(b)
  {
    if a == [] {
      assert a + b == b;
    } else {
      assert (a + b)[1..] == a[1..] + b;
      WordsOfAllConcat(a[1..], b);
    }
  }

  lemma {:induction false} JoinWords(parts: seq<string>, c: char)
    requires T.IsSpace(c)
    ensures WordsOf(T.Join(parts, [c])) == WordsOfAll(parts)
  {
    if |parts| == 1 {
      assert WordsOfAll(parts[1..]) == [];
    } else if |parts| > 1 {
      WordsConcat(parts[0], c, T.Join(parts[1..], [c]));
      JoinWords(parts[1..], c);
    }
  }

  ghost predicate AllWords(ws: seq<string>) {
    forall k :: 0 <= k < |ws| ==> IsWord(ws[k])
  }

  lemma {:induction false} WordsAreWords(s: string)
    ensures AllWords(WordsOf(s))
    decreases |s|
  {
    if s != "" {
      if T.IsSpace(s[0]) {
        WordsAreWords(s[1..]);
      } else {
        WordsAreWords(s[WordEnd(s)..]);
      }
    }
  }

  lemma WordOfWord(w: string)
    requires IsWord(w)
    ensures WordsOf(w) == [w]
  {
    assert WordEnd(w) == |w|;
    assert w[..|w|] == w && w[|w|..] == "";
  }

  /** Words joined by blanks are split into the same words. */
  lemma {:induction false} JoinedWords(ws: seq<string>)
    requires AllWords(ws)
    ensures WordsOf(T.Join(ws, " ")) == ws
  {
    if |ws| == 1 {
      WordOfWord(ws[0]);
    } else if |ws| > 1 {
      JoinedWords(ws[1..]);
      WordOfWord(ws[0]);
      WordsConcat(ws[0], ' ', T.Join(ws[1..], " "));
    }
  }
}
