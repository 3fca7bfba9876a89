/** Overlapping windows of words (rag/chunker.ts `windows`), and exactly when they lose none. */
module Windows {
  import opened Collections
  import opened Prelude

  function StepOf(max: nat, overlap: int): (step: nat)
    ensures step >= 1
  {
    Max(1, max - overlap)
  }

  function WindowsFrom(words: seq<string>, start: nat, max: nat, step: nat): (ws: seq<seq<string>>)
    requires start < |words| && step > 0
    ensures ws != [] && ws[0] == words[start..Min(start + max, |words|)]
    decreases |words| - start
  {
    var w := words[start..Min(start + max, |words|)];
    if start + max >= |words| || start + step >= |words| then [w]
    else [w] + WindowsFrom(words, start + step, max, step)
  }

  function Windows(words: seq<string>, max: nat, overlap: int): (ws: seq<seq<string>>) {
    if |words| <= max then [words] else WindowsFrom(words, 0, max, StepOf(max, overlap))
  }

  lemma WindowsStep(out: seq<seq<string>>, words: seq<string>, start: nat, max: nat, step: nat)
    requires start < |words| && step > 0
    ensures out + WindowsFrom(words, start, max, step)
         == if start + max >= |words| || start + step >= |words| then out + [words[start..Min(start + max, |words|)]]
            else out + [words[start..Min(start + max, |words|)]] + WindowsFrom(words, start + step, max, step)
  {
  }

  method CutWindows(words: seq<string>, max: nat, overlap: int) returns (out: seq<seq<string>>)
    ensures out == Windows(words, max, overlap)
  {
    if |words| <= max {
      return [words];
    }
    out := [];
    var step := Max(1, max - overlap);
    ghost var all := WindowsFrom(words, 0, max, step);
    var start := 0;
    while start < |words|
      invariant start < |words| ==> out + WindowsFrom(words, start, max, step) == all
      invariant start >= |words| ==> out == all
    {
      WindowsStep(out, words, start, max, step);
      out := out + [words[start..Min(start + max, |words|)]];
      if start + max >= |words| {
        break;
      }
      start := start + step;
    }
  }

  // ---------- putting the windows back together ----------

  /** How many words of the window before a window repeats. */
  function Repeated(max: nat, overlap: int): nat {
    Max(0, max - StepOf(max, overlap))
  }

  function Tails(ws: seq<seq<string>>, repeated: nat): seq<string> {
    if ws == [] then [] else ws[0][Min(repeated, |ws[0]|)..] + Tails(ws[1..], repeated)
  }

  /** The first window, then of each later one what it does not repeat. */
  function Unwindow(ws: seq<seq<string>>, repeated: nat): seq<string> {
    if ws == [] then [] else ws[0] + Tails(ws[1..], repeated)
  }

  predicate Lossless(words: seq<string>, max: nat, overlap: int) {
    |words| <= max || (max >= 1 && overlap >= 0)
  }

  lemma {:induction false} UnwindowFrom(words: seq<string>, start: nat, max: nat, step: nat)
    requires start < |words| && 0 < step <= max
    ensures Unwindow(WindowsFrom(words, start, max, step), max - step) == words[start..]
    decreases |words| - start
  {
    var w := words[start..Min(start + max, |words|)];
    if start + max >= |words| {
      assert w == words[start..];
      assert Unwindow([w], max - step) == w + [];
    } else {
      var next, d := start + step, max - step;
      var later := WindowsFrom(words, next, max, step);
      UnwindowFrom(words, next, max, step);
      assert d <= |later[0]|;
      CutWhole(later[0], Tails(later[1..], d), d);
      assert words[next..][d..] == words[start + max..];
      Meets(words, start, start + max);
      assert ([w] + later)[1..] == later;
    }
  }

  /** Windows with a gap between them, or of no words, lose words. */
  lemma {:induction false} GapsShorten(words: seq<string>, start: nat, max: nat, step: nat)
    requires start < |words| && step > 0 && max < step
    ensures |Unwindow(WindowsFrom(words, start, max, step), 0)| <= |words| - start
    ensures start + max < |words| ==> |Unwindow(WindowsFrom(words, start, max, step), 0)| < |words| - start
    decreases |words| - start
  {
    var w := words[start..Min(start + max, |words|)];
    if start + max >= |words| || start + step >= |words| {
      assert Unwindow([w], 0) == w + [];
    } else {
      var later := WindowsFrom(words, start + step, max, step);
      GapsShorten(words, start + step, max, step);
      assert ([w] + later)[1..] == later;
      assert later[0][0..] == later[0];
      assert Tails(later, 0) == Unwindow(later, 0);
    }
  }

  /** The words come back from their windows exactly when the overlap is not negative and a window holds a word. */
  lemma WindowsKeepWords(words: seq<string>, max: nat, overlap: int)
    ensures Unwindow(Windows(words, max, overlap), Repeated(max, overlap)) == words <==> Lossless(words, max, overlap)
    ensures |Unwindow(Windows(words, max, overlap), Repeated(max, overlap))| < |words| <==> !Lossless(words, max, overlap)
  {
    if |words| <= max {
      assert Unwindow([words], Repeated(max, overlap)) == words + [];
    } else if max >= 1 && overlap >= 0 {
      UnwindowFrom(words, 0, max, StepOf(max, overlap));
    } else {
      GapsShorten(words, 0, max, StepOf(max, overlap));
    }
  }

  ghost predicate Within(w: seq<string>, words: seq<string>) {
    forall x :: x in w ==> x in words
  }

  /** No window is longer than allowed, and none is empty unless there is nothing to show or no room to show it. */
  lemma {:induction false} WindowsFromFit(words: seq<string>, start: nat, max: nat, step: nat)
    requires start < |words| && step > 0
    ensures forall w :: w in WindowsFrom(words, start, max, step) ==> |w| <= max && (max >= 1 ==> w != [])
    ensures forall w :: w in WindowsFrom(words, start, max, step) ==> Within(w, words)
    decreases |words| - start
  {
    if !(start + max >= |words| || start + step >= |words|) {
      WindowsFromFit(words, start + step, max, step);
    }
    var w := words[start..Min(start + max, |words|)];
    assert forall k :: 0 <= k < |w| ==> w[k] == words[start + k];
  }

  lemma WindowsFit(words: seq<string>, max: nat, overlap: int)
    ensures forall w :: w in Windows(words, max, overlap) ==> |w| <= max && Within(w, words)
    ensures max >= 1 && words != [] ==> forall w :: w in Windows(words, max, overlap) ==> w != []
  {
    if |words| > max {
      WindowsFromFit(words, 0, max, StepOf(max, overlap));
    }
  }
}
