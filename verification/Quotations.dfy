/**
 * What cutting quotations of the remark out of a draft (agent/faithfulness.ts `stripRemarkQuotes`) may hide from the gate:
 * references of the draft that are neither cited nor the remark's own.
 */
module Quotations {
  import opened Collections
  import opened Faithfulness
  import opened Prelude
  import opened Text

  ghost predicate RefersTo(t: string, r: string) {
    exists k: nat :: k < |t| && RefAt(t, k) == Some(r)
  }

  /** Cited, or the remark itself refers to it. */
  ghost predicate Supported(input: Input, r: string) {
    CitedSection(input, r) || RefersTo(input.remarkText, r)
  }

  /** The whole draft, quotations and all, refers to nothing the human could not check. */
  ghost predicate AllSupported(input: Input) {
    forall r :: RefersTo(input.rationale, r) ==> Supported(input, r)
  }

  /** No reference is lost by the cuts, but those of the remark. */
  ghost predicate NothingHidden(rationale: string, remarkText: string) {
    forall r :: RefersTo(rationale, r) ==> RefersTo(OwnText(rationale, remarkText), r) || RefersTo(remarkText, r)
  }

  ghost predicate Draft(input: Input, rationale: string, remarkText: string) {
    input.rationale == rationale && input.remarkText == remarkText
  }

  /** The gate answers for all references of a draft, whatever is cited, exactly when the cuts hide none. */
  lemma GateProtectsIff(rationale: string, remarkText: string)
    ensures (forall input :: Draft(input, rationale, remarkText) && Issues(input) == [] ==> AllSupported(input))
            <==> NothingHidden(rationale, remarkText)
  {
    if NothingHidden(rationale, remarkText) {
      forall input | Draft(input, rationale, remarkText) && Issues(input) == []
        ensures AllSupported(input)
      {
        NoIssuesMeansFaithful(input);
      }
    } else {
      var r :| RefersTo(rationale, r) && !RefersTo(OwnText(rationale, remarkText), r) && !RefersTo(remarkText, r);
      var input := Unchecked(rationale, remarkText, OwnText(rationale, remarkText), r);
      assert Draft(input, rationale, remarkText) && !Supported(input, r);
    }
  }

  /** Citing what the text left by the cuts refers to is enough for the gate. */
  lemma Unchecked(rationale: string, remarkText: string, own: string, r: string) returns (input: Input)
    requires own == OwnText(rationale, remarkText) && !RefersTo(own, r)
    ensures Draft(input, rationale, remarkText) && Issues(input) == [] && !CitedSection(input, r)
  {
    input := Input(rationale, [Some(own)], remarkText, CannotTell, [], true);
    SelfCited(input, own, r);
  }

  lemma CoveredPasses(input: Input, own: string)
    requires own == OwnText(input.rationale, input.remarkText) && input.allowedSections == [Some(own)]
    requires input.hasScreenshot && !input.proposedClass.DefectCandidate?
    ensures Issues(input) == []
  {
    forall i, q | 0 <= i < |own| && RefAt(own, i) == Some(q)
      ensures CitedSection(input, q)
    {
      RefsFromMeaning(own, 0, q);
      assert Some(own) in input.allowedSections;
    }
    NoIssuesMeansFaithful(input);
  }

  lemma NoRefsPass(input: Input)
    requires RefsFrom(OwnText(input.rationale, input.remarkText), 0) == [] && !input.proposedClass.DefectCandidate?
    requires !MentionsFrame(OwnText(input.rationale, input.remarkText))
    ensures Issues(input) == []
  {
    var own := OwnText(input.rationale, input.remarkText);
    forall i | 0 <= i < |own|
      ensures RefAt(own, i).None?
    {
      if RefAt(own, i).Some? { RefsFromMeaning(own, 0, RefAt(own, i).value); }
    }
    NoIssuesMeansFaithful(input);
  }

  lemma SelfCited(input: Input, own: string, r: string)
    requires own == OwnText(input.rationale, input.remarkText) && input.allowedSections == [Some(own)]
    requires input.hasScreenshot && !input.proposedClass.DefectCandidate? && !RefersTo(own, r)
    ensures Issues(input) == [] && !CitedSection(input, r)
  {
    CoveredPasses(input, own);
    RefsFromMeaning(own, 0, r);
  }

  // ---------- references of parts of a text ----------

  function RefEnd(t: string, i: nat): (n: nat)
    requires i < |t|
    ensures i < n <= |t|
  {
    NumberEnd(t, NumberStart(t, i))
  }

  /** Between `§` and the end of a reference there is at most one white space, digits, and dots before digits. */
  lemma InReference(t: string, i: nat, k: nat)
    requires i < |t| && RefAt(t, i).Some? && i < k < RefEnd(t, i)
    ensures if k < NumberStart(t, i) then k == i + 1 && IsSpace(t[k]) else Continues(t, k)
  {
    var from, to := NumberStart(t, i), RefEnd(t, i);
    NumberEndMeaning(t, from);
    if k >= from {
      assert t[from..to][k - from] == t[k];
      if !IsDigit(t[k]) { assert t[from..to][k - from + 1] == t[k + 1]; }
    }
  }

  lemma RefIs(t: string, i: nat, r: string)
    requires i < |t| && RefAt(t, i) == Some(r)
    ensures NumberStart(t, i) + |r| == RefEnd(t, i) && t[NumberStart(t, i)..RefEnd(t, i)] == r && IsNumber(r)
    ensures !Continues(t, RefEnd(t, i))
  {
    NumberEndMeaning(t, NumberStart(t, i));
  }

  lemma SameStart(x: string, a: nat, part: string, i: nat)
    requires OccursAt(part, x, a) && i + 1 < |part|
    ensures NumberStart(x, a + i) == NumberStart(part, i) + a && x[a + i] == part[i]
  {
    assert part[i] == x[a + i] && part[i + 1] == x[a + i + 1];
  }

  lemma SameSlice(x: string, a: nat, part: string, c: nat, d: nat)
    requires OccursAt(part, x, a) && c <= d <= |part|
    ensures part[c..d] == x[a + c..a + d]
  {
    PartOfPart(x, a, a + |part|, c, d);
  }

  /** A reference that ends within a part of the text is one of the part. */
  lemma RefInPart(x: string, a: nat, part: string, i: nat, r: string)
    requires OccursAt(part, x, a) && i < |part| && RefAt(x, a + i) == Some(r) && RefEnd(x, a + i) <= a + |part|
    ensures RefAt(part, i) == Some(r) && RefEnd(part, i) + a == RefEnd(x, a + i)
  {
    RefIs(x, a + i, r);
    SameStart(x, a, part, i);
    var from, to := NumberStart(part, i), RefEnd(x, a + i) - a;
    SameSlice(x, a, part, from, to);
    NotContinued(x, a, part, to);
    RefMeaning(part, i, r);
    RefIs(part, i, r);
  }

  lemma NotContinued(x: string, a: nat, part: string, n: nat)
    requires OccursAt(part, x, a) && n <= |part| && !Continues(x, a + n)
    ensures !Continues(part, n)
  {
    if n < |part| { assert part[n] == x[a + n]; }
    if n + 1 < |part| { assert part[n + 1] == x[a + n + 1]; }
  }

  lemma NotContinuedBehind(x: string, a: nat, part: string, n: nat)
    requires OccursAt(part, x, a) && n <= |part| && !Continues(part, n) && !Continues(x, a + |part|)
    ensures !Continues(x, a + n)
  {
    if n < |part| { assert part[n] == x[a + n]; }
    if n + 1 < |part| { assert part[n + 1] == x[a + n + 1]; }
  }

  /** A reference of a part is one of the text, if behind the part no number goes on. */
  lemma RefOfPart(x: string, a: nat, part: string, i: nat, r: string)
    requires OccursAt(part, x, a) && i < |part| && RefAt(part, i) == Some(r) && !Continues(x, a + |part|)
    ensures RefAt(x, a + i) == Some(r) && RefEnd(part, i) + a == RefEnd(x, a + i)
  {
    RefIs(part, i, r);
    SameStart(x, a, part, i);
    var from, to := NumberStart(part, i), RefEnd(part, i);
    SameSlice(x, a, part, from, to);
    NotContinuedBehind(x, a, part, to);
    assert x[a + from..a + to] == r;
    RefMeaning(x, a + i, r);
    RefIs(x, a + i, r);
  }

  lemma PartRefers(x: string, a: nat, part: string, r: string)
    requires OccursAt(part, x, a) && RefersTo(part, r) && !Continues(x, a + |part|)
    ensures RefersTo(x, r)
  {
    var k: nat :| k < |part| && RefAt(part, k) == Some(r);
    RefOfPart(x, a, part, k, r);
  }

  lemma RefersBehind(before: string, t: string, r: string)
    requires RefersTo(t, r)
    ensures RefersTo(before + t, r)
  {
    assert (before + t)[|before|..|before| + |t|] == t;
    PartRefers(before + t, |before|, t, r);
  }

  lemma RefBehind(s: string, n: nat, rest: string, i: nat, r: string)
    requires n <= |s| && rest == s[n..] && i < |rest| && RefAt(s, n + i) == Some(r)
    ensures RefAt(rest, i) == Some(r) && RefEnd(rest, i) + n == RefEnd(s, n + i)
  {
    ToTheEnd(s, n);
    RefInPart(s, n, rest, i, r);
  }

  // ---------- one cut ----------

  /** The piece at `a` neither begins nor ends inside the reference at `i`. */
  ghost predicate Apart(s: string, piece: string, a: nat, i: nat) {
    OccursAt(piece, s, a) && i < |s| && RefAt(s, i).Some? ==>
      !(i < a < RefEnd(s, i)) && !(i < a + |piece| < RefEnd(s, i))
  }

  /** No occurrence of the piece begins or ends inside a reference. */
  ghost predicate Clean(s: string, piece: string) {
    forall a: nat, i: nat :: Apart(s, piece, a, i)
  }

  lemma ApartBehind(s: string, piece: string, n: nat, rest: string, a: nat, i: nat)
    requires n <= |s| && rest == s[n..] && Apart(s, piece, n + a, n + i)
    ensures Apart(rest, piece, a, i)
  {
    if OccursAt(piece, rest, a) && i < |rest| && RefAt(rest, i).Some? {
      ToTheEnd(s, n);
      SameSlice(s, n, rest, a, a + |piece|);
      RefOfPart(s, n, rest, i, RefAt(rest, i).value);
    }
  }

  lemma CleanBehind(s: string, piece: string, n: nat, rest: string)
    requires Clean(s, piece) && n <= |s| && rest == s[n..]
    ensures Clean(rest, piece)
  {
    forall a: nat, i: nat
      ensures Apart(rest, piece, a, i)
    {
      assert Apart(s, piece, n + a, n + i);
      ApartBehind(s, piece, n, rest, a, i);
    }
  }

  lemma {:induction false} PrefixKept(s: string, piece: string, n: nat)
    requires piece != "" && n <= |s| && forall a: nat :: a < n ==> !OccursAt(piece, s, a)
    ensures ReplaceAll(s, piece) == s[..n] + ReplaceAll(s[n..], piece)
    decreases n
  {
    if n == 0 {
      assert s[0..] == s;
    } else {
      assert !OccursAt(piece, s, 0);
      forall a: nat | a < n - 1
        ensures !OccursAt(piece, s[1..], a)
      {
        assert !OccursAt(piece, s, a + 1);
      }
      PrefixKept(s[1..], piece, n - 1);
      Shift(s, 1, n - 1);
      assert s[..n] == [s[0]] + s[1..][..n - 1];
    }
  }

  /** The blank a cut leaves continues no number. */
  lemma CutContinuesNone(s: string, piece: string)
    requires piece != "" && Continues(ReplaceAll(s, piece), 0)
    ensures Continues(s, 0)
  {
    if s != "" && !(piece <= s) && !IsDigit(s[0]) {
      assert ReplaceAll(s, piece)[1] == ReplaceAll(s[1..], piece)[0];
    }
  }

  lemma KeptAtStart(s: string, piece: string, r: string)
    requires piece != "" && Clean(s, piece) && s != "" && RefAt(s, 0) == Some(r) && !(piece <= s)
    ensures RefersTo(ReplaceAll(s, piece), r)
  {
    var n := RefEnd(s, 0);
    RefIs(s, 0, r);
    forall a: nat | a < n
      ensures !OccursAt(piece, s, a)
    {
      assert Apart(s, piece, a, 0);
    }
    PrefixKept(s, piece, n);
    var t, rest := ReplaceAll(s, piece), ReplaceAll(s[n..], piece);
    assert t[..n] == s[..n] && t[n..] == rest;
    if Continues(t, n) {
      assert Continues(rest, 0);
      CutContinuesNone(s[n..], piece);
      assert Continues(s, n);
    }
    assert NumberStart(t, 0) == NumberStart(s, 0);
    assert t[NumberStart(s, 0)..n] == s[NumberStart(s, 0)..n];
    RefMeaning(t, 0, r);
  }

  /** A clean cut loses no reference but those of the piece. */
  lemma {:induction false} CutKeeps(s: string, piece: string, i: nat, r: string)
    requires piece != "" && Clean(s, piece) && i < |s| && RefAt(s, i) == Some(r)
    ensures RefersTo(ReplaceAll(s, piece), r) || RefersTo(piece, r)
    decreases |s|
  {
    if piece <= s {
      assert s[0..|piece|] == piece && OccursAt(piece, s, 0);
      if i >= |piece| {
        var rest := s[|piece|..];
        RefBehind(s, |piece|, rest, i - |piece|, r);
        CleanBehind(s, piece, |piece|, rest);
        CutKeeps(rest, piece, i - |piece|, r);
        if !RefersTo(piece, r) { RefersBehind(" ", ReplaceAll(rest, piece), r); }
      } else {
        assert Apart(s, piece, 0, i);
        RefInPart(s, 0, piece, i, r);
      }
    } else if i > 0 {
      RefBehind(s, 1, s[1..], i - 1, r);
      CleanBehind(s, piece, 1, s[1..]);
      CutKeeps(s[1..], piece, i - 1, r);
      if !RefersTo(piece, r) { RefersBehind([s[0]], ReplaceAll(s[1..], piece), r); }
    } else {
      KeptAtStart(s, piece, r);
    }
  }

  // ---------- all cuts ----------

  /** Each cut is clean in the text it is made in. */
  ghost predicate CleanCuts(s: string, pieces: seq<string>)
    requires AllLong(pieces)
  {
    pieces == []
    || var before, piece := CutOutAll(s, pieces[..|pieces| - 1]), pieces[|pieces| - 1];
       CleanCuts(s, pieces[..|pieces| - 1]) && Clean(before, piece) && Clean(ReplaceAll(before, piece), WithoutDot(piece))
  }

  lemma DotlessRefs(piece: string, r: string)
    requires RefersTo(WithoutDot(piece), r)
    ensures RefersTo(piece, r)
  {
    if WithoutDot(piece) != piece {
      assert WithoutDot(piece) == piece[0..|piece| - 1];
      PartRefers(piece, 0, WithoutDot(piece), r);
    }
  }

  lemma {:induction false} AllCutsKeep(s: string, pieces: seq<string>, r: string)
    requires AllLong(pieces) && CleanCuts(s, pieces) && RefersTo(s, r)
    ensures RefersTo(CutOutAll(s, pieces), r) || exists k :: 0 <= k < |pieces| && RefersTo(pieces[k], r)
  {
    if pieces != [] {
      var n := |pieces| - 1;
      var before, piece := CutOutAll(s, pieces[..n]), pieces[n];
      AllCutsKeep(s, pieces[..n], r);
      if RefersTo(before, r) {
        var i: nat :| i < |before| && RefAt(before, i) == Some(r);
        CutKeeps(before, piece, i, r);
        var mid := ReplaceAll(before, piece);
        if RefersTo(mid, r) {
          var j: nat :| j < |mid| && RefAt(mid, j) == Some(r);
          CutKeeps(mid, WithoutDot(piece), j, r);
          if RefersTo(WithoutDot(piece), r) { DotlessRefs(piece, r); }
        }
      } else {
        var k :| 0 <= k < |pieces[..n]| && RefersTo(pieces[..n][k], r);
        assert pieces[k] == pieces[..n][k];
      }
    }
  }

  // ---------- the pieces of a remark ----------

  lemma Trimmed(s: string) returns (a: nat)
    ensures OccursAt(Trim(s), s, a) && !Continues(s, a + |Trim(s)|)
    ensures Trim(s) != "" ==> !IsSpace(Trim(s)[0])
  {
    var b;
    a, b := TrimMeaning(s);
  }

  lemma TrimmedRefs(s: string, r: string)
    requires RefersTo(Trim(s), r)
    ensures RefersTo(s, r)
  {
    var a := Trimmed(s);
    PartRefers(s, a, Trim(s), r);
  }

  lemma {:induction false} FirstLine(s: string)
    ensures var line := SplitLines(s)[0]; line <= s && (|line| < |s| ==> s[|line|] == '\n')
  {
    if s != "" && s[0] != '\n' {
      FirstLine(s[1..]);
    }
  }

  lemma FirstLineRefs(s: string, line: string, r: string)
    requires line == SplitLines(s)[0] && RefersTo(line, r)
    ensures RefersTo(s, r)
  {
    FirstLine(s);
    assert s[0..|line|] == line;
    PartRefers(s, 0, line, r);
  }

  lemma TailRefs(s: string, tail: string, r: string)
    requires s != "" && tail == s[1..] && RefersTo(tail, r)
    ensures RefersTo(s, r)
  {
    assert s == [s[0]] + tail;
    RefersBehind([s[0]], tail, r);
  }

  lemma {:induction false} LineRefs(s: string, k: nat, r: string)
    requires k < |SplitLines(s)| && RefersTo(SplitLines(s)[k], r)
    ensures RefersTo(s, r)
    decreases |s|
  {
    if k == 0 {
      FirstLineRefs(s, SplitLines(s)[0], r);
    } else {
      LaterLine(s, k);
      LineRefs(s[1..], if s[0] == '\n' then k - 1 else k, r);
      TailRefs(s, s[1..], r);
    }
  }

  lemma LaterLine(s: string, k: nat)
    requires 0 < k < |SplitLines(s)|
    ensures s != ""
    ensures var j := if s[0] == '\n' then k - 1 else k; j < |SplitLines(s[1..])| && SplitLines(s)[k] == SplitLines(s[1..])[j]
  {
  }

  lemma {:induction false} LinesTrimmed(lines: seq<string>, k: nat)
    requires k < |TrimAll(lines)|
    ensures |TrimAll(lines)| == |lines| && TrimAll(lines)[k] == Trim(lines[k])
  {
    if k > 0 {
      LinesTrimmed(lines[1..], k - 1);
    } else if |lines| > 1 {
      LinesTrimmed(lines[1..], 0);
    }
  }

  lemma {:induction false} LongOnes(lines: seq<string>, piece: string)
    requires piece in LongEnough(lines)
    ensures piece in lines
  {
    if lines != [] && piece != lines[0] { LongOnes(lines[1..], piece); }
  }

  /** A piece is the trimmed remark or one of its trimmed lines. */
  lemma PieceIs(remarkText: string, piece: string)
    requires piece in QuotePieces(remarkText)
    ensures piece == Trim(remarkText) || exists k :: 0 <= k < |SplitLines(remarkText)| && piece == Trim(SplitLines(remarkText)[k])
  {
    var lines := TrimAll(SplitLines(remarkText));
    LongOnes([Trim(remarkText)] + lines, piece);
    if piece != Trim(remarkText) {
      assert piece in lines;
      var k: nat :| k < |lines| && lines[k] == piece;
      LinesTrimmed(SplitLines(remarkText), k);
      assert piece == Trim(SplitLines(remarkText)[k]);
    }
  }

  lemma PieceRefs(remarkText: string, piece: string, r: string)
    requires piece in QuotePieces(remarkText) && RefersTo(piece, r)
    ensures RefersTo(remarkText, r)
  {
    PieceIs(remarkText, piece);
    if piece == Trim(remarkText) {
      TrimmedRefs(remarkText, r);
    } else {
      var k :| 0 <= k < |SplitLines(remarkText)| && piece == Trim(SplitLines(remarkText)[k]);
      TrimmedRefs(SplitLines(remarkText)[k], r);
      LineRefs(remarkText, k, r);
    }
  }

  /** If no quotation is cut off inside a reference, the cuts hide none. */
  lemma CleanCutsHideNothing(rationale: string, remarkText: string)
    requires CleanCuts(rationale, QuotePieces(remarkText))
    ensures NothingHidden(rationale, remarkText)
  {
    var pieces := QuotePieces(remarkText);
    forall r | RefersTo(rationale, r)
      ensures RefersTo(OwnText(rationale, remarkText), r) || RefersTo(remarkText, r)
    {
      if remarkText != "" {
        AllCutsKeep(rationale, pieces, r);
        if !RefersTo(CutOutAll(rationale, pieces), r) {
          var k :| 0 <= k < |pieces| && RefersTo(pieces[k], r);
          PieceRefs(remarkText, pieces[k], r);
        }
      }
    }
  }

  // ---------- which remarks are safe to quote ----------

  /** The piece ends in what a longer number would turn into another reference. */
  ghost predicate OpenEnd(piece: string) {
    exists i: nat :: i < |piece| && OpenAt(piece, i)
  }

  predicate OpenAt(piece: string, i: nat)
    requires i < |piece|
  {
    piece[i] == '§' && RefEnd(piece + "9", i) == |piece| + 1
  }

  /** Wherever it is quoted, it neither goes on with a number in front of it nor with one behind it. */
  ghost predicate SafePiece(piece: string) {
    piece != "" && !IsSpace(piece[0]) && !Continues(piece, 0) && !OpenEnd(piece)
  }

  ghost predicate SafeToQuote(remarkText: string) {
    forall piece :: piece in QuotePieces(remarkText) ==> SafePiece(piece) && SafePiece(WithoutDot(piece))
  }

  /** A piece that begins inside a reference goes on with its number, or begins with its white space. */
  lemma BegunInside(s: string, piece: string, a: nat, i: nat)
    requires |piece| > 1 && OccursAt(piece, s, a) && i < |s| && RefAt(s, i).Some? && i < a < RefEnd(s, i)
    ensures IsSpace(piece[0]) || Continues(piece, 0)
  {
    InReference(s, i, a);
    assert s[a] == piece[0] && s[a + 1] == piece[1];
  }

  lemma CutNumber(number: string, n: nat)
    requires IsNumber(number) && n < |number|
    ensures IsNumber(number[..n] + "9")
  {
    var r := number[..n] + "9";
    forall k | 0 <= k < |r| && !IsDigit(r[k])
      ensures 0 < k < |r| - 1 && r[k] == '.' && IsDigit(r[k - 1]) && IsDigit(r[k + 1])
    {
      assert r[k] == number[k] && r[k - 1] == number[k - 1];
      if k + 1 < n { assert r[k + 1] == number[k + 1]; }
    }
  }

  lemma NumberCut(s: string, piece: string, a: nat, from: nat, to: nat)
    requires OccursAt(piece, s, a) && from <= |piece| && a + |piece| < to <= |s| && IsNumber(s[a + from..to])
    ensures IsNumber(piece[from..|piece|] + "9")
  {
    var n := |piece| - from;
    CutNumber(s[a + from..to], n);
    SameSlice(s, a, piece, from, |piece|);
    PartOfPart(s, a + from, to, 0, n);
  }

  /** A reference that goes on behind the piece leaves the piece with an open end. */
  lemma OpenWhenCut(s: string, piece: string, a: nat, k: nat, longer: string)
    requires OccursAt(piece, s, a) && k < |piece| && RefAt(s, a + k).Some? && a + |piece| < RefEnd(s, a + k)
    requires longer == piece + "9"
    ensures OpenEnd(piece)
  {
    var i := a + k;
    assert s[i] == piece[k];
    RefIs(s, i, RefAt(s, i).value);
    var from := NumberStart(longer, k);
    if k + 1 == |piece| {
      assert longer[from..] == "9";
    } else {
      assert s[i + 1] == piece[k + 1] == longer[k + 1];
      NumberCut(s, piece, a, from, RefEnd(s, i));
      CutWhole(piece, "9", from);
      ToTheEnd(piece, from);
    }
    WholeNumber(longer, k);
    assert OpenAt(piece, k);
  }

  lemma WholeNumber(t: string, k: nat)
    requires k < |t| && t[k] == '§' && IsNumber(t[NumberStart(t, k)..])
    ensures RefEnd(t, k) == |t|
  {
    var r := t[NumberStart(t, k)..];
    ToTheEnd(t, NumberStart(t, k));
    RefMeaning(t, k, r);
    RefIs(t, k, r);
  }

  lemma SafeIsClean(s: string, piece: string)
    requires SafePiece(piece) && |piece| > 1
    ensures Clean(s, piece)
  {
    forall a: nat, i: nat
      ensures Apart(s, piece, a, i)
    {
      if OccursAt(piece, s, a) && i < |s| && RefAt(s, i).Some? {
        if i < a < RefEnd(s, i) {
          BegunInside(s, piece, a, i);
        } else if a <= i < a + |piece| < RefEnd(s, i) {
          OpenWhenCut(s, piece, a, i - a, piece + "9");
        }
      }
    }
  }

  lemma {:induction false} SafeCutsAreClean(s: string, pieces: seq<string>)
    requires AllLong(pieces) && forall piece :: piece in pieces ==> SafePiece(piece) && SafePiece(WithoutDot(piece))
    ensures CleanCuts(s, pieces)
  {
    if pieces != [] {
      var n := |pieces| - 1;
      SafeCutsAreClean(s, pieces[..n]);
      assert pieces[n] in pieces;
      SafeIsClean(CutOutAll(s, pieces[..n]), pieces[n]);
      SafeIsClean(ReplaceAll(CutOutAll(s, pieces[..n]), pieces[n]), WithoutDot(pieces[n]));
    }
  }

  // ---------- how the others betray the gate ----------

  lemma {:induction false} ReplacedShrinks(s: string, piece: string)
    requires piece != ""
    ensures |ReplaceAll(s, piece)| <= |s| && (' ' in s ==> ' ' in ReplaceAll(s, piece))
    ensures Occurs(piece, s) ==> ' ' in ReplaceAll(s, piece) && |ReplaceAll(s, piece)| + |piece| <= |s| + 1
    decreases |s|
  {
    if s != "" {
      if piece <= s {
        ReplacedShrinks(s[|piece|..], piece);
        assert ReplaceAll(s, piece)[0] == ' ';
      } else {
        ReplacedShrinks(s[1..], piece);
        assert s == [s[0]] + s[1..];
        if Occurs(piece, s) {
          var a: nat :| a <= |s| && OccursAt(piece, s, a);
          assert a > 0 && OccursAt(piece, s[1..], a - 1);
        }
      }
    }
  }

  lemma CutShrinks(s: string, piece: string)
    requires |piece| >= MIN_QUOTE
    ensures |CutOut(s, piece)| <= |s| && (' ' in s ==> ' ' in CutOut(s, piece))
  {
    ReplacedShrinks(s, piece);
    ReplacedShrinks(ReplaceAll(s, piece), WithoutDot(piece));
  }

  lemma {:induction false} FirstCutLasts(s: string, pieces: seq<string>)
    requires AllLong(pieces) && pieces != []
    ensures |CutOutAll(s, pieces)| <= |CutOut(s, pieces[0])|
    ensures ' ' in CutOut(s, pieces[0]) ==> ' ' in CutOutAll(s, pieces)
  {
    var n := |pieces| - 1;
    if n == 0 {
      assert CutOutAll(s, pieces[..n]) == s;
    } else {
      FirstCutLasts(s, pieces[..n]);
      CutShrinks(CutOutAll(s, pieces[..n]), pieces[n]);
    }
  }

  /** A text with a blank must be longer than `§` and the number to hold a reference. */
  lemma NoRoom(t: string, r: string)
    requires RefersTo(t, r)
    ensures |t| > |r| && (' ' in t ==> |t| > |r| + 1)
  {
    var k: nat :| k < |t| && RefAt(t, k) == Some(r);
    RefIs(t, k, r);
    if |t| == |r| + 1 {
      assert t == "§" + r;
    }
  }

  /** The whole remark is cut first. */
  lemma WholeIsFirst(remarkText: string)
    requires |Trim(remarkText)| >= MIN_QUOTE
    ensures remarkText != "" && QuotePieces(remarkText) != [] && QuotePieces(remarkText)[0] == Trim(remarkText)
  {
    var a := Trimmed(remarkText);
  }

  lemma Hidden(rationale: string, remarkText: string, r: string)
    requires |Trim(remarkText)| >= MIN_QUOTE && RefersTo(rationale, r) && |remarkText| <= |r|
    requires var cut := CutOut(rationale, Trim(remarkText)); ' ' in cut && |cut| <= |r| + 1
    ensures !NothingHidden(rationale, remarkText)
  {
    WholeIsFirst(remarkText);
    FirstCutLasts(rationale, QuotePieces(remarkText));
    var own := OwnText(rationale, remarkText);
    if RefersTo(own, r) { NoRoom(own, r); }
    if RefersTo(remarkText, r) { NoRoom(remarkText, r); }
  }

  function Nines(n: nat): (s: string)
    ensures |s| == n && forall k :: 0 <= k < n ==> s[k] == '9'
  {
    seq(n, _ => '9')
  }

  /** In front of a piece that goes on with the number. */
  lemma NumberInFront(piece: string, n: nat, t: string) returns (r: string)
    requires n > 0 && Continues(piece, 0) && t == "§" + Nines(n) + piece
    ensures RefersTo(t, r) && |r| > n && RefAt(t, 0) == Some(r) && NumberStart(t, 0) == 1
  {
    var m := NumberEnd(t, 1);
    NumberEndMeaning(t, 1);
    assert t[1..n + 1] == Nines(n);
    assert t[n + 1..] == piece;
    assert Continues(t, n + 1);
    assert forall k :: 1 <= k <= n ==> t[k] == Nines(n)[k - 1];
    assert forall k :: 1 <= k <= n ==> Continues(t, k);
    r := t[1..m];
    assert RefAt(t, 0) == Some(r);
  }

  /** Behind a piece with an open end. */
  lemma NumberBehind(piece: string, k: nat, n: nat, t: string) returns (r: string)
    requires n > 0 && k < |piece| && OpenAt(piece, k) && t == piece + Nines(n)
    ensures RefersTo(t, r) && |r| >= n && RefAt(t, k) == Some(r) && RefEnd(t, k) == |t|
  {
    var short := piece + "9";
    assert t[0..|short|] == short;
    RefIs(short, k, RefAt(short, k).value);
    SameStart(t, 0, short, k);
    var from := NumberStart(t, k);
    var m := NumberEnd(t, from);
    NumberEndMeaning(t, from);
    SameSlice(t, 0, short, from, from + 1);
    assert short[from] == t[from] && IsDigit(t[from]);
    r := t[from..m];
    assert RefAt(t, k) == Some(r);
    assert forall i :: |piece| <= i < |t| ==> t[i] == '9' && Continues(t, i);
    if m < |piece| {
      RefInPart(t, 0, short, k, r);
    }
  }

  /** The first piece is not safe: then a draft that quotes it with a number in front or behind refers to a section nobody
      cited, and the cut hides that. */
  lemma UnsafeHides(remarkText: string, piece: string) returns (rationale: string)
    requires piece == Trim(remarkText) && |piece| >= MIN_QUOTE && !(SafePiece(piece) && SafePiece(WithoutDot(piece)))
    ensures !NothingHidden(rationale, remarkText)
  {
    var a := Trimmed(remarkText);
    var n, r := |remarkText|, "";
    if Continues(piece, 0) {
      rationale := "§" + Nines(n) + piece;
      r := NumberInFront(piece, n, rationale);
      CutAt(rationale, piece, n + 1);
    } else if OpenEnd(piece) {
      var k: nat :| k < |piece| && OpenAt(piece, k);
      rationale := piece + Nines(n);
      r := NumberBehind(piece, k, n, rationale);
      CutAt(rationale, piece, 0);
    } else {
      DotCut(piece);
      var dotless := WithoutDot(piece);
      var k: nat :| k < |dotless| && OpenAt(dotless, k);
      rationale := dotless + Nines(n);
      r := NumberBehind(dotless, k, n, rationale);
      DotlessCut(piece, n, rationale);
    }
    Hidden(rationale, remarkText, r);
  }

  lemma DotCut(piece: string)
    requires |piece| > 2 && !IsSpace(piece[0]) && !Continues(piece, 0)
    requires !(SafePiece(piece) && SafePiece(WithoutDot(piece))) && !OpenEnd(piece)
    ensures WithoutDot(piece) != piece && OpenEnd(WithoutDot(piece))
  {
    assert WithoutDot(piece)[0] == piece[0] && WithoutDot(piece)[1] == piece[1];
  }

  lemma CutAt(s: string, piece: string, a: nat)
    requires |piece| >= MIN_QUOTE && a + |piece| <= |s| && s[a..a + |piece|] == piece
    ensures ' ' in CutOut(s, piece) && |CutOut(s, piece)| + |piece| <= |s| + 1
  {
    assert OccursAt(piece, s, a);
    ReplacedShrinks(s, piece);
    ReplacedShrinks(ReplaceAll(s, piece), WithoutDot(piece));
  }

  lemma DotlessCut(piece: string, n: nat, s: string)
    requires |piece| >= MIN_QUOTE && WithoutDot(piece) != piece && s == WithoutDot(piece) + Nines(n)
    ensures ' ' in CutOut(s, piece) && |CutOut(s, piece)| <= n + 1
  {
    var dotless := WithoutDot(piece);
    forall a: nat | a <= |s| && a + |piece| <= |s|
      ensures !OccursAt(piece, s, a)
    {
      assert s[a..a + |piece|][|piece| - 1] == s[a + |piece| - 1] == '9';
    }
    NothingToReplace(s, piece);
    assert s[0..|dotless|] == dotless && OccursAt(dotless, s, 0);
    ReplacedShrinks(s, dotless);
  }

  // ---------- which remarks the gate protects ----------

  /** No draft about the remark gets a reference past the gate that is neither cited nor the remark's. */
  ghost predicate Protected(remarkText: string) {
    forall input: Input :: input.remarkText == remarkText && Issues(input) == [] ==> AllSupported(input)
  }

  lemma SafeProtects(remarkText: string)
    requires SafeToQuote(remarkText)
    ensures Protected(remarkText)
  {
    forall input: Input | input.remarkText == remarkText && Issues(input) == []
      ensures AllSupported(input)
    {
      SafeCutsAreClean(input.rationale, QuotePieces(remarkText));
      CleanCutsHideNothing(input.rationale, remarkText);
      GateProtectsIff(input.rationale, remarkText);
      assert Draft(input, input.rationale, remarkText);
    }
  }

  /** If the whole remark is not safe to quote, some draft does. */
  lemma UnsafeBetrays(remarkText: string)
    requires |Trim(remarkText)| >= MIN_QUOTE
    requires !(SafePiece(Trim(remarkText)) && SafePiece(WithoutDot(Trim(remarkText))))
    ensures !Protected(remarkText)
  {
    var rationale := UnsafeHides(remarkText, Trim(remarkText));
    GateProtectsIff(rationale, remarkText);
    var input :| Draft(input, rationale, remarkText) && Issues(input) == [] && !AllSupported(input);
  }

  lemma {:induction false} OneLine(s: string)
    requires '\n' !in s
    ensures SplitLines(s) == [s]
  {
    if s != "" {
      assert s[0] in s && forall c :: c in s[1..] ==> c in s;
      OneLine(s[1..]);
      assert s == [s[0]] + s[1..];
    }
  }

  lemma OnePiece(remarkText: string, piece: string)
    requires '\n' !in remarkText && piece in QuotePieces(remarkText)
    ensures piece == Trim(remarkText) && |piece| >= MIN_QUOTE
  {
    OneLine(remarkText);
    PieceIs(remarkText, piece);
  }

  /** For a remark of one line that is exact: the gate lets no unsupported reference through, whatever draft and citations,
      if and only if the remark is too short to be cut or safe to quote. */
  lemma ProtectedIff(remarkText: string)
    requires '\n' !in remarkText
    ensures Protected(remarkText) <==> SafeToQuote(remarkText)
    ensures SafeToQuote(remarkText) <==>
              |Trim(remarkText)| < MIN_QUOTE || (SafePiece(Trim(remarkText)) && SafePiece(WithoutDot(Trim(remarkText))))
  {
    forall piece | piece in QuotePieces(remarkText)
      ensures piece == Trim(remarkText) && |piece| >= MIN_QUOTE
    {
      OnePiece(remarkText, piece);
    }
    if |Trim(remarkText)| >= MIN_QUOTE {
      WholeIsFirst(remarkText);
      assert QuotePieces(remarkText)[0] in QuotePieces(remarkText);
    }
    if SafeToQuote(remarkText) {
      SafeProtects(remarkText);
    } else {
      UnsafeBetrays(remarkText);
    }
  }

  // ---------- behind a headline ----------

  /** A text that a line end closes, or none. */
  predicate Closed(t: string) {
    t == "" || t[|t| - 1] == '\n'
  }

  lemma StaysPrefix(x: string, y: string, piece: string)
    requires piece <= x
    ensures piece <= x + y
  {
    assert x + y == piece + (x[|piece|..] + y);
  }

  lemma LongPrefix(x: string, y: string, piece: string)
    requires x != "" && Closed(x) && piece <= x + y && |piece| >= |x|
    ensures '\n' in piece
  {
    assert piece[|x| - 1] == x[|x| - 1];
  }

  lemma PrefixOfFirst(x: string, y: string, piece: string)
    requires x != "" && Closed(x) && '\n' !in piece && piece <= x + y
    ensures |piece| < |x| && piece <= x
  {
    if |piece| >= |x| { LongPrefix(x, y, piece); }
    assert x + y == x[..|piece|] + (x[|piece|..] + y);
  }

  lemma CutFirst(x: string, y: string, piece: string, rest: string)
    requires piece != "" && piece <= x && rest == x[|piece|..]
    ensures ReplaceAll(x + y, piece) == " " + ReplaceAll(rest + y, piece)
    ensures ReplaceAll(x, piece) == " " + ReplaceAll(rest, piece)
  {
    StaysPrefix(x, y, piece);
    CutWhole(x, y, |piece|);
  }

  lemma KeepFirst(x: string, y: string, piece: string, rest: string)
    requires piece != "" && x != "" && !(piece <= x + y) && rest == x[1..]
    ensures ReplaceAll(x + y, piece) == [x[0]] + ReplaceAll(rest + y, piece)
    ensures ReplaceAll(x, piece) == [x[0]] + ReplaceAll(rest, piece)
  {
    if piece <= x { StaysPrefix(x, y, piece); }
    CutWhole(x, y, 1);
  }

  lemma InFront(c: char, a: string, b: string, ca: string, cab: string)
    requires ca == [c] + a && cab == [c] + (a + b) && Closed(a) && (a == "" ==> c == '\n')
    ensures cab == ca + b && Closed(ca) && ca != ""
  {
    OneInFront(c, a, b, ca, cab);
  }

  /** The cuts in the text are those in `x` and those in `y`. */
  ghost predicate CutsSplit(x: string, y: string, piece: string, whole: string)
    requires piece != ""
  {
    && ReplaceAll(whole, piece) == ReplaceAll(x, piece) + ReplaceAll(y, piece)
    && Closed(ReplaceAll(x, piece)) && (x != "" ==> ReplaceAll(x, piece) != "")
  }

  lemma SplitCut(x: string, y: string, piece: string, whole: string, rest: string)
    requires Closed(x) && piece != "" && whole == x + y && piece <= x && |piece| < |x| && rest == x[|piece|..]
    requires CutsSplit(rest, y, piece, rest + y)
    ensures CutsSplit(x, y, piece, whole)
  {
    CutFirst(x, y, piece, rest);
    InFront(' ', ReplaceAll(rest, piece), ReplaceAll(y, piece), ReplaceAll(x, piece), ReplaceAll(whole, piece));
  }

  lemma SplitKept(x: string, y: string, piece: string, whole: string, rest: string)
    requires Closed(x) && piece != "" && whole == x + y && x != "" && !(piece <= whole) && rest == x[1..]
    requires CutsSplit(rest, y, piece, rest + y)
    ensures CutsSplit(x, y, piece, whole)
  {
    KeepFirst(x, y, piece, rest);
    InFront(x[0], ReplaceAll(rest, piece), ReplaceAll(y, piece), ReplaceAll(x, piece), ReplaceAll(whole, piece));
  }

  /** A piece of one line is cut in front of a line end and behind it, never across. */
  lemma {:induction false} CutsApart(x: string, y: string, piece: string, whole: string)
    requires Closed(x) && piece != "" && '\n' !in piece && whole == x + y
    ensures CutsSplit(x, y, piece, whole)
    decreases |x|
  {
    if x == "" {
      assert whole == y;
    } else if piece <= whole {
      PrefixOfFirst(x, y, piece);
      CutsApart(x[|piece|..], y, piece, x[|piece|..] + y);
      SplitCut(x, y, piece, whole, x[|piece|..]);
    } else {
      CutsApart(x[1..], y, piece, x[1..] + y);
      SplitKept(x, y, piece, whole, x[1..]);
    }
  }

  lemma CutOutApart(x: string, y: string, piece: string, whole: string)
    requires Closed(x) && |piece| >= MIN_QUOTE && '\n' !in piece && whole == x + y
    ensures CutOut(whole, piece) == CutOut(x, piece) + CutOut(y, piece) && Closed(CutOut(x, piece))
  {
    assert forall c :: c in WithoutDot(piece) ==> c in piece;
    CutsApart(x, y, piece, whole);
    CutsApart(ReplaceAll(x, piece), ReplaceAll(y, piece), WithoutDot(piece), ReplaceAll(whole, piece));
  }

  lemma {:induction false} AllCutsApart(x: string, y: string, pieces: seq<string>)
    requires AllLong(pieces) && Closed(x) && forall piece :: piece in pieces ==> '\n' !in piece
    ensures CutOutAll(x + y, pieces) == CutOutAll(x, pieces) + CutOutAll(y, pieces) && Closed(CutOutAll(x, pieces))
  {
    if pieces != [] {
      var n := |pieces| - 1;
      var piece := pieces[n];
      AllCutsApart(x, y, pieces[..n]);
      assert piece in pieces;
      CutOutApart(CutOutAll(x, pieces[..n]), CutOutAll(y, pieces[..n]), piece, CutOutAll(x + y, pieces[..n]));
    }
  }

  lemma SignBehind(x: string, y: string, t: string, k: nat)
    requires t == x + y && '§' !in x && k < |t| && t[k] == '§'
    ensures k >= |x| && t[|x|..] == y
  {
    assert forall i :: 0 <= i < |x| ==> t[i] == x[i] && x[i] in x;
  }

  /** Behind a headline without a section sign: what is left refers to no more than what is left of the text itself. */
  lemma NothingFromFront(x: string, y: string, t: string, r: string)
    requires t == x + y && '§' !in x && RefersTo(t, r)
    ensures RefersTo(y, r)
  {
    var k: nat :| k < |t| && RefAt(t, k) == Some(r);
    RefIs(t, k, r);
    SignBehind(x, y, t, k);
    RefersFrom(t, |x|, y, k, r);
  }

  lemma RefersFrom(t: string, n: nat, rest: string, k: nat, r: string)
    requires n <= k < |t| && rest == t[n..] && RefAt(t, k) == Some(r)
    ensures RefersTo(rest, r)
  {
    RefBehind(t, n, rest, k - n, r);
  }

  lemma NoSignLeft(x: string, remarkText: string)
    requires '§' !in x
    ensures '§' !in OwnText(x, remarkText)
  {
    var own := OwnText(x, remarkText);
    if '§' in own {
      var i :| 0 <= i < |own| && own[i] == '§';
      assert OccursAt("§", own, i);
      OwnTextOccurs(x, remarkText, "§");
      SignIn(x);
    }
  }

  lemma SignIn(x: string)
    requires Occurs("§", x)
    ensures '§' in x
  {
    var k: nat :| k <= |x| && OccursAt("§", x, k);
    assert x[k] == x[k..k + 1][0];
  }

  lemma OneLineOwn(x: string, y: string, remarkText: string)
    requires '\n' !in remarkText && Closed(x)
    ensures OwnText(x + y, remarkText) == OwnText(x, remarkText) + OwnText(y, remarkText)
  {
    if remarkText != "" {
      var a := Trimmed(remarkText);
      forall piece | piece in QuotePieces(remarkText)
        ensures '\n' !in piece
      {
        OnePiece(remarkText, piece);
        assert forall k :: 0 <= k < |piece| ==> piece[k] == remarkText[a + k];
      }
      AllCutsApart(x, y, QuotePieces(remarkText));
    }
  }

  /** What a draft hides it hides behind a headline, too. */
  lemma HiddenBehind(x: string, y: string, remarkText: string, r: string)
    requires '\n' !in remarkText && Closed(x) && '§' !in x
    requires RefersTo(y, r) && !RefersTo(OwnText(y, remarkText), r)
    ensures RefersTo(x + y, r) && !RefersTo(OwnText(x + y, remarkText), r)
  {
    RefersBehind(x, y, r);
    OneLineOwn(x, y, remarkText);
    NoSignLeft(x, remarkText);
    if RefersTo(OwnText(x + y, remarkText), r) {
      NothingFromFront(OwnText(x, remarkText), OwnText(y, remarkText), OwnText(x + y, remarkText), r);
    }
  }

  // ---------- an example ----------

  lemma Untrimmed(s: string)
    requires s != "" && !IsSpace(s[0]) && !IsSpace(s[|s| - 1])
    ensures Trim(s) == s
  {
  }

  lemma CutFromFront(piece: string, rest: string)
    requires |piece| >= MIN_QUOTE && piece[|piece| - 1] != '.' && |rest| + 1 < |piece|
    ensures CutOut(piece + rest, piece) == " " + rest && CutOut(" " + rest, piece) == " " + rest
  {
    assert piece + rest == "" + piece + rest;
    FirstCut("", piece, rest);
    NothingToReplace(rest, piece);
    NothingToReplace(" " + rest, piece);
  }

  /** A quotation of one line with a short text behind it: that text is what is left. */
  lemma QuotedLine(piece: string, rest: string)
    requires '\n' !in piece && |piece| >= MIN_QUOTE && |rest| + 1 < |piece|
    requires !IsSpace(piece[0]) && !IsSpace(piece[|piece| - 1]) && piece[|piece| - 1] != '.'
    ensures OwnText(piece + rest, piece) == " " + rest
  {
    Untrimmed(piece);
    OneLine(piece);
    TwoPieces(piece);
    CutFromFront(piece, rest);
    CutTwice(piece + rest, piece);
  }

  lemma TwoPieces(piece: string)
    requires SplitLines(piece) == [piece] && Trim(piece) == piece && |piece| >= MIN_QUOTE
    ensures QuotePieces(piece) == [piece, piece]
  {
    OneTrimmed(piece, SplitLines(piece));
    OneLong(piece, [piece]);
    LongAnd(piece, [piece], [piece] + [piece]);
  }

  lemma OneTrimmed(piece: string, lines: seq<string>)
    requires lines == [piece]
    ensures TrimAll(lines) == [Trim(piece)]
  {
    assert lines[1..] == [];
  }

  lemma OneLong(piece: string, lines: seq<string>)
    requires lines == [piece] && |piece| >= MIN_QUOTE
    ensures LongEnough(lines) == [piece]
  {
    assert lines[1..] == [];
  }

  lemma LongAnd(piece: string, rest: seq<string>, lines: seq<string>)
    requires lines == [piece] + rest && |piece| >= MIN_QUOTE
    ensures LongEnough(lines) == [piece] + LongEnough(rest)
  {
    assert lines[1..] == rest;
  }

  lemma CutTwice(s: string, piece: string)
    requires |piece| >= MIN_QUOTE
    ensures CutOutAll(s, [piece, piece]) == CutOut(CutOut(s, piece), piece)
  {
    var both, one := [piece, piece], [piece];
    assert both[..1] == one && one[..0] == [];
    assert CutOutAll(s, one) == CutOut(s, piece);
  }

  /** A line that refers to a section at its end, and a draft that goes on with the number: the gate raises no issue. */
  lemma Continued(remarkText: string, rest: string, k: nat, ref: string)
    requires '\n' !in remarkText && |remarkText| >= MIN_QUOTE && |rest| + 1 < |remarkText| && !IsSpace(remarkText[0])
    requires k + 2 == |remarkText| && remarkText[k] == '§' && IsDigit(remarkText[k + 1])
    requires forall i :: 0 <= i < |remarkText| && remarkText[i] == '§' ==> i == k
    requires |rest| > 2 && rest[0] == '.' && IsDigit(rest[1]) && !IsDigit(rest[2]) && rest[2] != '.' && '§' !in rest
    requires ref == [remarkText[k + 1], rest[0], rest[1]]
    ensures var input := Input(remarkText + rest, [], remarkText, Unspecified, [], true);
            Issues(input) == [] && Faithful(input) && RefAt(input.rationale, k) == Some(ref) && !Supported(input, ref)
  {
    var input := Input(remarkText + rest, [], remarkText, Unspecified, [], true);
    QuotedLine(remarkText, rest);
    NoSignNoIssue(input, " " + rest);
    Joined(remarkText, rest, k, ref, input.rationale);
    ShorterAtEnd(remarkText, k, ref);
  }

  lemma ShorterAtEnd(remarkText: string, k: nat, ref: string)
    requires k + 2 == |remarkText| && |ref| == 3
    requires forall i :: 0 <= i < |remarkText| && remarkText[i] == '§' ==> i == k
    ensures !RefersTo(remarkText, ref)
  {
    if RefersTo(remarkText, ref) {
      var i: nat :| i < |remarkText| && RefAt(remarkText, i) == Some(ref);
      RefIs(remarkText, i, ref);
    }
  }

  /** The same, read as what the cut hides. */
  lemma ContinuedHides(remarkText: string, rest: string, k: nat, ref: string)
    requires '\n' !in remarkText && |remarkText| >= MIN_QUOTE && |rest| + 1 < |remarkText| && !IsSpace(remarkText[0])
    requires k + 2 == |remarkText| && remarkText[k] == '§' && IsDigit(remarkText[k + 1])
    requires forall i :: 0 <= i < |remarkText| && remarkText[i] == '§' ==> i == k
    requires |rest| > 2 && rest[0] == '.' && IsDigit(rest[1]) && !IsDigit(rest[2]) && rest[2] != '.' && '§' !in rest
    requires ref == [remarkText[k + 1], rest[0], rest[1]]
    ensures RefersTo(remarkText + rest, ref) && !RefersTo(OwnText(remarkText + rest, remarkText), ref)
    ensures !RefersTo(remarkText, ref)
  {
    QuotedLine(remarkText, rest);
    Joined(remarkText, rest, k, ref, remarkText + rest);
    var own := " " + rest;
    assert forall i :: 0 <= i < |own| ==> own[i] in own;
    ShorterAtEnd(remarkText, k, ref);
  }

  lemma NoSignNoIssue(input: Input, own: string)
    requires own == OwnText(input.rationale, input.remarkText) && '§' !in own
    requires input.hasScreenshot && !input.proposedClass.DefectCandidate?
    ensures Issues(input) == [] && Faithful(input)
  {
    assert forall i :: 0 <= i < |own| ==> own[i] in own;
    NoIssuesMeansFaithful(input);
  }

  lemma Joined(a: string, b: string, k: nat, ref: string, t: string)
    requires k + 2 == |a| && a[k] == '§' && IsDigit(a[k + 1]) && t == a + b
    requires |b| > 2 && b[0] == '.' && IsDigit(b[1]) && !IsDigit(b[2]) && b[2] != '.'
    requires ref == [a[k + 1], b[0], b[1]]
    ensures RefAt(t, k) == Some(ref)
  {
    assert t[k] == '§' && t[k + 1] == ref[0] && t[k + 2] == ref[1] && t[k + 3] == ref[2] && t[k + 4] == b[2];
    assert t[k + 1..k + 1 + |ref|] == ref;
    RefMeaning(t, k, ref);
  }

  /** The remark refers to section 2, the draft to 2.1, which nobody cited. */
  lemma ContinuedQuotation(remarkText: string, rest: string, ref: string)
    requires remarkText == "Кнопка по \U{00A7}2" && rest == ".1 не та" && ref == "2.1"
    ensures var input := Input(remarkText + rest, [], remarkText, Unspecified, [], true);
            Issues(input) == [] && Faithful(input) && RefAt(input.rationale, 10) == Some(ref) && !Supported(input, ref)
  {
    Continued(remarkText, rest, 10, ref);
  }
}
