/** The output gate of the triage graph (agent/faithfulness.ts): no reference to a section that is not among the
    citations, no defect without a citation, no talk of a screenshot that does not exist. */
module Faithfulness {
  import opened Collections
  import opened Prelude
  import opened Text

  datatype ProposedClass = DefectCandidate | ChangeRequestCandidate | Unspecified | Duplicate | CannotTell

  datatype Input = Input(
    rationale: string,
    allowedSections: seq<Option<string>>,
    remarkText: string,
    proposedClass: ProposedClass,
    chunkIds: seq<string>,
    hasScreenshot: bool)

  datatype Issue = MissingSection(ref: string) | DefectWithoutCitation | FrameWithoutScreenshot

  // ---------- section references ----------

  /** End of the run of digits that starts at `i`. */
  function DigitsEnd(t: string, i: nat): (n: nat)
    requires i <= |t|
    ensures i <= n <= |t|
    decreases |t| - i
  {
    if i < |t| && IsDigit(t[i]) then DigitsEnd(t, i + 1) else i
  }

  /** End of the longest match of `\d+(\.\d+)*` at `i`; `i` itself when there is none. */
  function NumberEnd(t: string, i: nat): (n: nat)
    requires i <= |t|
    ensures i <= n <= |t|
    decreases |t| - i
  {
    var n := DigitsEnd(t, i);
    if n > i && n + 1 < |t| && t[n] == '.' && IsDigit(t[n + 1]) then NumberEnd(t, n + 1) else n
  }

  /** A section number: digits, and single dots between digits. */
  predicate IsNumber(r: string) {
    && r != ""
    && forall k :: 0 <= k < |r| && !IsDigit(r[k]) ==> 0 < k < |r| - 1 && r[k] == '.' && IsDigit(r[k - 1]) && IsDigit(r[k + 1])
  }

  predicate Continues(t: string, n: nat) {
    n < |t| && (IsDigit(t[n]) || (t[n] == '.' && n + 1 < |t| && IsDigit(t[n + 1])))
  }

  lemma {:induction false} DigitsEndMeaning(t: string, i: nat)
    requires i <= |t|
    ensures forall k :: i <= k < DigitsEnd(t, i) ==> IsDigit(t[k])
    ensures DigitsEnd(t, i) < |t| ==> !IsDigit(t[DigitsEnd(t, i)])
    decreases |t| - i
  {
    if i < |t| && IsDigit(t[i]) {
      DigitsEndMeaning(t, i + 1);
    }
  }

  lemma {:induction false} NumberEndMeaning(t: string, i: nat)
    requires i <= |t|
    ensures NumberEnd(t, i) > i <==> i < |t| && IsDigit(t[i])
    ensures NumberEnd(t, i) > i ==> IsNumber(t[i..NumberEnd(t, i)]) && !Continues(t, NumberEnd(t, i))
    decreases |t| - i
  {
    DigitsEndMeaning(t, i);
    var n := DigitsEnd(t, i);
    if n > i && n + 1 < |t| && t[n] == '.' && IsDigit(t[n + 1]) {
      NumberEndMeaning(t, n + 1);
      JoinedNumber(t, i, n, NumberEnd(t, i));
    }
  }

  lemma JoinedNumber(t: string, i: nat, n: nat, m: nat)
    requires i < n < m - 1 < |t| && t[n] == '.' && IsNumber(t[n + 1..m])
    requires forall k :: i <= k < n ==> IsDigit(t[k])
    ensures IsNumber(t[i..m])
  {
    var r, tail := t[i..m], t[n + 1..m];
    assert IsDigit(tail[0]);
    forall k | 0 <= k < |r| && !IsDigit(r[k])
      ensures 0 < k < |r| - 1 && r[k] == '.' && IsDigit(r[k - 1]) && IsDigit(r[k + 1])
    {
      var h := k - (n + 1 - i);
      if h >= 0 {
        assert tail[h] == r[k] && tail[h - 1] == r[k - 1] && tail[h + 1] == r[k + 1];
      }
    }
  }

  /** Where the number of a reference at `i` would start: behind `§` and at most one white space. */
  function NumberStart(t: string, i: nat): (n: nat)
    requires i < |t|
    ensures i < n <= |t|
  {
    if i + 1 < |t| && IsSpace(t[i + 1]) then i + 2 else i + 1
  }

  function NumberAt(t: string, from: nat): Option<string>
    requires from <= |t|
  {
    var to := NumberEnd(t, from);
    if to > from then Some(t[from..to]) else None
  }

  /** The section referred to at position `i`: the match of `/§\s?(\d+(?:\.\d+)*)/` there. */
  function RefAt(t: string, i: nat): Option<string>
    requires i < |t|
  {
    if t[i] == '§' then NumberAt(t, NumberStart(t, i)) else None
  }

  function RefsFrom(t: string, i: nat): seq<string>
    requires i <= |t|
    decreases |t| - i
  {
    if i == |t| then []
    else if RefAt(t, i).Some? then [RefAt(t, i).value] + RefsFrom(t, i + 1)
    else RefsFrom(t, i + 1)
  }

  lemma {:induction false} RefsFromMeaning(t: string, i: nat, r: string)
    requires i <= |t|
    ensures r in RefsFrom(t, i) <==> exists k :: i <= k < |t| && RefAt(t, k) == Some(r)
    decreases |t| - i
  {
    if i < |t| {
      RefsFromMeaning(t, i + 1, r);
    }
  }

  lemma {:induction false} NoRefsBetween(t: string, i: nat, j: nat)
    requires i <= j <= |t| && forall k :: i <= k < j ==> t[k] != '§'
    ensures RefsFrom(t, i) == RefsFrom(t, j)
    decreases j - i
  {
    if i < j {
      assert RefAt(t, i) == None;
      NoRefsBetween(t, i + 1, j);
    }
  }

  lemma BehindMatch(t: string, at: nat)
    requires at < |t| && RefAt(t, at).Some?
    ensures RefsFrom(t, at) == [RefAt(t, at).value] + RefsFrom(t, NumberEnd(t, NumberStart(t, at)))
  {
    var from := NumberStart(t, at);
    NumberEndMeaning(t, from);
    forall k | at < k < NumberEnd(t, from)
      ensures t[k] != '§'
    {
      if k >= from {
        assert t[from..NumberEnd(t, from)][k - from] == t[k];
      }
    }
    NoRefsBetween(t, at + 1, NumberEnd(t, NumberStart(t, at)));
  }

  /** `matchAll` continues behind each match; looking at every position finds the same references. */
  method SectionNumbers(text: string) returns (refs: seq<string>)
    ensures refs == RefsFrom(text, 0)
  {
    refs := [];
    var at := 0;
    while at < |text|
      invariant at <= |text|
      invariant RefsFrom(text, 0) == refs + RefsFrom(text, at)
    {
      var ref := RefAt(text, at);
      if ref.Some? {
        BehindMatch(text, at);
        refs := refs + [ref.value];
        at := NumberEnd(text, NumberStart(text, at));
      } else {
        at := at + 1;
      }
    }
  }

  /** The reference at a position, read off the text: `r` is a section number that starts right behind `§` or one
      white space further, and cannot be continued. */
  lemma RefMeaning(t: string, i: nat, r: string)
    requires i < |t|
    ensures RefAt(t, i) == Some(r) <==>
            && t[i] == '§'
            && IsNumber(r)
            && var from := NumberStart(t, i);
               from + |r| <= |t| && t[from..from + |r|] == r && !Continues(t, from + |r|)
  {
    var from := NumberStart(t, i);
    NumberEndMeaning(t, from);
    if from + |r| <= |t| && t[from..from + |r|] == r && IsNumber(r) && !Continues(t, from + |r|) {
      assert IsDigit(r[0]) && t[from] == r[0];
      LongestIsUnique(t, from, from + |r|, NumberEnd(t, from));
    }
  }

  lemma LongestIsUnique(t: string, from: nat, a: nat, b: nat)
    requires from < a <= |t| && from < b <= |t|
    requires IsNumber(t[from..a]) && !Continues(t, a)
    requires IsNumber(t[from..b]) && !Continues(t, b)
    ensures a == b
  {
    if a < b {
      ShorterContinues(t, from, a, b);
    } else if b < a {
      ShorterContinues(t, from, b, a);
    }
  }

  lemma ShorterContinues(t: string, from: nat, a: nat, b: nat)
    requires from < a < b <= |t| && IsNumber(t[from..a]) && IsNumber(t[from..b])
    ensures Continues(t, a)
  {
    var long := t[from..b];
    assert long[a - from] == t[a];
    if !IsDigit(t[a]) {
      assert long[a - from + 1] == t[a + 1];
    }
  }

  // ---------- quotations of the remark ----------

  const MIN_QUOTE: nat := 8

  predicate AllLong(pieces: seq<string>) {
    forall i :: 0 <= i < |pieces| ==> |pieces[i]| >= MIN_QUOTE
  }

  /** The texts to cut out: the whole remark and each of its lines, if long enough. */
  function QuotePieces(remarkText: string): (pieces: seq<string>)
    ensures AllLong(pieces)
  {
    LongEnough([Trim(remarkText)] + TrimAll(SplitLines(remarkText)))
  }

  function LongEnough(lines: seq<string>): (r: seq<string>)
    ensures AllLong(r)
  {
    if lines == [] then []
    else (if |lines[0]| >= MIN_QUOTE then [lines[0]] else []) + LongEnough(lines[1..])
  }

  /** `s.split(piece).join(' ')`. */
  function ReplaceAll(s: string, piece: string): string
    requires piece != ""
    decreases |s|
  {
    if s == "" then ""
    else if piece <= s then " " + ReplaceAll(s[|piece|..], piece)
    else [s[0]] + ReplaceAll(s[1..], piece)
  }

  function WithoutDot(piece: string): string {
    if piece != "" && piece[|piece| - 1] == '.' then piece[..|piece| - 1] else piece
  }

  function CutOut(s: string, piece: string): string
    requires |piece| >= MIN_QUOTE
  {
    ReplaceAll(ReplaceAll(s, piece), WithoutDot(piece))
  }

  function CutOutAll(s: string, pieces: seq<string>): string
    requires AllLong(pieces)
  {
    if pieces == [] then s else CutOut(CutOutAll(s, pieces[..|pieces| - 1]), pieces[|pieces| - 1])
  }

  /** The model's own words: the rationale without verbatim quotations of the remark. */
  function OwnText(rationale: string, remarkText: string): string {
    if remarkText == "" then rationale else CutOutAll(rationale, QuotePieces(remarkText))
  }

  method StripRemarkQuotes(rationale: string, remarkText: string) returns (out: string)
    ensures out == CutOutAll(rationale, QuotePieces(remarkText))
  {
    var pieces := QuotePieces(remarkText);
    out := rationale;
    for k := 0 to |pieces|
      invariant out == CutOutAll(rationale, pieces[..k])
    {
      var piece := pieces[k];
      OneMorePiece(rationale, pieces, k);
      out := ReplaceAll(out, piece);
      out := ReplaceAll(out, WithoutDot(piece));
    }
    assert pieces[..|pieces|] == pieces;
  }

  lemma OneMorePiece(s: string, pieces: seq<string>, k: nat)
    requires k < |pieces| && AllLong(pieces)
    ensures CutOutAll(s, pieces[..k + 1]) == CutOut(CutOutAll(s, pieces[..k]), pieces[k])
  {
    assert pieces[..k + 1][..k] == pieces[..k];
  }

  predicate OccursAt(w: string, t: string, i: nat) {
    i + |w| <= |t| && t[i..i + |w|] == w
  }

  predicate Occurs(w: string, t: string) {
    exists i: nat :: i <= |t| && OccursAt(w, t, i)
  }

  predicate SpaceFree(w: string) {
    ' ' !in w
  }

  lemma {:induction false} ReplacedPrefix(s: string, piece: string, w: string)
    requires piece != "" && SpaceFree(w) && w <= ReplaceAll(s, piece)
    ensures w <= s
    decreases |s|
  {
    if s != "" && w != "" {
      assert w[0] == ReplaceAll(s, piece)[0];
      assert w[0] in w;
      if piece <= s {
        assert false;
      } else {
        assert w[1..] <= ReplaceAll(s[1..], piece);
        ReplacedPrefix(s[1..], piece, w[1..]);
        assert w == [s[0]] + w[1..] && s == [s[0]] + s[1..];
      }
    }
  }

  lemma {:induction false} ReplacedAt(s: string, piece: string, w: string, i: nat) returns (k: nat)
    requires piece != "" && w != "" && SpaceFree(w)
    requires i <= |ReplaceAll(s, piece)| && OccursAt(w, ReplaceAll(s, piece), i)
    ensures k <= |s| && OccursAt(w, s, k)
    decreases |s|
  {
    if i == 0 {
      ReplacedPrefix(s, piece, w);
      k := 0;
    } else {
      var skip := if piece <= s then |piece| else 1;
      Shift(ReplaceAll(s, piece), 1, i - 1);
      assert ReplaceAll(s, piece)[1..] == ReplaceAll(s[skip..], piece);
      var j := ReplacedAt(s[skip..], piece, w, i - 1);
      Shift(s, skip, j);
      k := j + skip;
    }
  }

  /** Cutting a piece out and leaving a blank makes no new word. */
  lemma ReplacedOccurs(s: string, piece: string, w: string)
    requires piece != "" && w != "" && SpaceFree(w) && Occurs(w, ReplaceAll(s, piece))
    ensures Occurs(w, s)
  {
    var i: nat :| i <= |ReplaceAll(s, piece)| && OccursAt(w, ReplaceAll(s, piece), i);
    var k := ReplacedAt(s, piece, w, i);
  }

  lemma {:induction false} CutOutOccurs(s: string, pieces: seq<string>, w: string)
    requires AllLong(pieces)
    requires w != "" && SpaceFree(w) && Occurs(w, CutOutAll(s, pieces))
    ensures Occurs(w, s)
  {
    if pieces != [] {
      var before := CutOutAll(s, pieces[..|pieces| - 1]);
      var piece := pieces[|pieces| - 1];
      ReplacedOccurs(ReplaceAll(before, piece), WithoutDot(piece), w);
      ReplacedOccurs(before, piece, w);
      CutOutOccurs(s, pieces[..|pieces| - 1], w);
    }
  }

  lemma OwnTextOccurs(rationale: string, remarkText: string, w: string)
    requires w != "" && SpaceFree(w) && Occurs(w, OwnText(rationale, remarkText))
    ensures Occurs(w, rationale)
  {
    if remarkText != "" {
      CutOutOccurs(rationale, QuotePieces(remarkText), w);
    }
  }

  /** The first occurrence is cut and the text before it stays. */
  lemma {:induction false} FirstCut(before: string, piece: string, rest: string)
    requires piece != ""
    requires forall i: nat :: i < |before| ==> !OccursAt(piece, before + piece + rest, i)
    ensures ReplaceAll(before + piece + rest, piece) == before + " " + ReplaceAll(rest, piece)
    decreases |before|
  {
    var s := before + piece + rest;
    if before == "" {
      assert s[|piece|..] == rest;
    } else {
      assert !OccursAt(piece, s, 0);
      assert s[1..] == before[1..] + piece + rest;
      forall i: nat | i < |before[1..]|
        ensures !OccursAt(piece, s[1..], i)
      {
        assert !OccursAt(piece, s, i + 1);
      }
      FirstCut(before[1..], piece, rest);
    }
  }

  lemma {:induction false} NothingToReplace(s: string, piece: string)
    requires piece != "" && !Occurs(piece, s)
    ensures ReplaceAll(s, piece) == s
    decreases |s|
  {
    if s != "" {
      assert !OccursAt(piece, s, 0);
      forall i: nat | i <= |s[1..]|
        ensures !OccursAt(piece, s[1..], i)
      {
        assert !OccursAt(piece, s, i + 1);
      }
      NothingToReplace(s[1..], piece);
    }
  }

  /** A draft that quotes nothing of the remark is checked as it stands. */
  lemma OwnTextOfUnquoted(rationale: string, remarkText: string)
    requires forall k :: 0 <= k < |QuotePieces(remarkText)| ==> !Occurs(WithoutDot(QuotePieces(remarkText)[k]), rationale)
    ensures OwnText(rationale, remarkText) == rationale
  {
    NothingToCut(rationale, QuotePieces(remarkText));
  }

  lemma {:induction false} NothingToCut(s: string, pieces: seq<string>)
    requires AllLong(pieces)
    requires forall k :: 0 <= k < |pieces| ==> !Occurs(WithoutDot(pieces[k]), s)
    ensures CutOutAll(s, pieces) == s
  {
    if pieces != [] {
      var piece := pieces[|pieces| - 1];
      NothingToCut(s, pieces[..|pieces| - 1]);
      if Occurs(piece, s) {
        var i: nat :| i <= |s| && OccursAt(piece, s, i);
        assert s[i..i + |WithoutDot(piece)|] == s[i..i + |piece|][..|WithoutDot(piece)|];
        assert OccursAt(WithoutDot(piece), s, i);
      }
      NothingToReplace(s, piece);
      NothingToReplace(s, WithoutDot(piece));
    }
  }

  // ---------- the check ----------

  /** `c`, ignoring case, for the Cyrillic letters the check looks for. */
  function Lower(c: char): char {
    if 'А' <= c <= 'Я' then (c as int + 32) as char else c
  }

  function LowerAll(s: string): (r: string)
    ensures |r| == |s| && forall i :: 0 <= i < |s| ==> r[i] == Lower(s[i])
  {
    if s == "" then "" else [Lower(s[0])] + LowerAll(s[1..])
  }

  /** `/на (кадре|скрине)/i`. */
  predicate MentionsFrame(t: string) {
    Occurs("на кадре", LowerAll(t)) || Occurs("на скрине", LowerAll(t))
  }

  function Unique(refs: seq<string>): (r: seq<string>)
    ensures forall x :: x in r <==> x in refs
  {
    if refs == [] then []
    else
      var before := Unique(refs[..|refs| - 1]);
      assert refs == refs[..|refs| - 1] + [refs[|refs| - 1]];
      if refs[|refs| - 1] in before then before else before + [refs[|refs| - 1]]
  }

  function AllowedRefs(sections: seq<Option<string>>): (r: seq<string>)
    ensures forall x :: x in r <==> exists s :: s in sections && s.Some? && x in RefsFrom(s.value, 0)
  {
    if sections == [] then []
    else
      assert sections == [sections[0]] + sections[1..];
      (if sections[0].Some? then RefsFrom(sections[0].value, 0) else []) + AllowedRefs(sections[1..])
  }

  function MissingIssues(referenced: seq<string>, allowed: seq<string>): (r: seq<Issue>)
    ensures forall x :: x in r <==> x.MissingSection? && x.ref in referenced && x.ref !in allowed
  {
    if referenced == [] then []
    else
      var before := MissingIssues(referenced[..|referenced| - 1], allowed);
      assert referenced == referenced[..|referenced| - 1] + [referenced[|referenced| - 1]];
      var ref := referenced[|referenced| - 1];
      if ref in allowed then before else before + [MissingSection(ref)]
  }

  function Issues(input: Input): seq<Issue> {
    var own := OwnText(input.rationale, input.remarkText);
    MissingIssues(Unique(RefsFrom(own, 0)), AllowedRefs(input.allowedSections))
    + (if input.proposedClass == DefectCandidate && input.chunkIds == [] then [DefectWithoutCitation] else [])
    + (if !input.hasScreenshot && MentionsFrame(own) then [FrameWithoutScreenshot] else [])
  }

  lemma AllowedStep(sections: seq<Option<string>>, k: nat, before: seq<string>)
    requires k < |sections|
    ensures before + AllowedRefs(sections[k..])
         == before + (if sections[k].Some? then RefsFrom(sections[k].value, 0) else []) + AllowedRefs(sections[k + 1..])
  {
    assert sections[k..][1..] == sections[k + 1..];
  }

  method CollectAllowed(sections: seq<Option<string>>) returns (allowed: seq<string>)
    ensures allowed == AllowedRefs(sections)
  {
    allowed := [];
    for k := 0 to |sections|
      invariant AllowedRefs(sections) == allowed + AllowedRefs(sections[k..])
    {
      AllowedStep(sections, k, allowed);
      if sections[k].Some? {
        var refs := SectionNumbers(sections[k].value);
        allowed := allowed + refs;
      }
    }
  }

  method CollectReferenced(own: string) returns (referenced: seq<string>)
    ensures referenced == Unique(RefsFrom(own, 0))
  {
    var matches := SectionNumbers(own);
    referenced := [];
    for k := 0 to |matches|
      invariant referenced == Unique(matches[..k])
    {
      assert matches[..k + 1][..k] == matches[..k];
      if matches[k] !in referenced {
        referenced := referenced + [matches[k]];
      }
    }
    assert matches[..|matches|] == matches;
  }

  method CollectMissing(referenced: seq<string>, allowed: seq<string>) returns (issues: seq<Issue>)
    ensures issues == MissingIssues(referenced, allowed)
  {
    issues := [];
    for k := 0 to |referenced|
      invariant issues == MissingIssues(referenced[..k], allowed)
    {
      assert referenced[..k + 1][..k] == referenced[..k];
      if referenced[k] !in allowed {
        issues := issues + [MissingSection(referenced[k])];
      }
    }
    assert referenced[..|referenced|] == referenced;
  }

  method CheckFaithfulness(input: Input) returns (ok: bool, issues: seq<Issue>)
    ensures issues == Issues(input)
    ensures ok <==> Faithful(input)
  {
    var own := input.rationale;
    if input.remarkText != "" {
      own := StripRemarkQuotes(input.rationale, input.remarkText);
    }
    var allowed := CollectAllowed(input.allowedSections);
    var referenced := CollectReferenced(own);
    issues := CollectMissing(referenced, allowed);
    if input.proposedClass == DefectCandidate && |input.chunkIds| == 0 {
      issues := issues + [DefectWithoutCitation];
    }
    if !input.hasScreenshot && MentionsFrame(own) {
      issues := issues + [FrameWithoutScreenshot];
    }
    ok := |issues| == 0;
    NoIssuesMeansFaithful(input);
  }

  /** What a draft that passes may do, without reference to how the check looks for it. */
  ghost predicate Faithful(input: Input) {
    var own := OwnText(input.rationale, input.remarkText);
    && (forall i, r :: 0 <= i < |own| && RefAt(own, i) == Some(r) ==> CitedSection(input, r))
    && (input.proposedClass == DefectCandidate ==> input.chunkIds != [])
    && (MentionsFrame(own) ==> input.hasScreenshot)
  }

  ghost predicate CitedSection(input: Input, r: string) {
    exists s :: s in input.allowedSections && s.Some? && r in RefsFrom(s.value, 0)
  }

  lemma NoIssuesMeansFaithful(input: Input)
    ensures Issues(input) == [] <==> Faithful(input)
  {
    var own := OwnText(input.rationale, input.remarkText);
    var refs := Unique(RefsFrom(own, 0));
    var allowed := AllowedRefs(input.allowedSections);
    var missing := MissingIssues(refs, allowed);
    if missing != [] {
      assert missing[0] in missing;
      var r := missing[0].ref;
      RefsFromMeaning(own, 0, r);
      assert r in RefsFrom(own, 0) && !CitedSection(input, r);
      assert !Faithful(input);
    } else {
      forall i, r | 0 <= i < |own| && RefAt(own, i) == Some(r)
        ensures CitedSection(input, r)
      {
        RefsFromMeaning(own, 0, r);
        assert MissingSection(r) !in missing;
      }
    }
  }

  // ---------- the fallback draft ----------

  function Concat(pieces: seq<string>): string {
    if pieces == [] then "" else pieces[0] + Concat(pieces[1..])
  }

  function IssuePieces(issue: Issue): seq<string> {
    match issue
    case MissingSection(ref) => ["ссылка на ", "раздел ", ref, ", которого ", "нет среди ", "цитат"]
    case DefectWithoutCitation => ["дефект без ", "цитаты из ", "документов"]
    case FrameWithoutScreenshot => ["черновик ", "описывает ", "кадр, а ", "кадра нет"]
  }

  /** `issues.join('; ')`. */
  function JoinIssues(issues: seq<Issue>): seq<string> {
    if issues == [] then []
    else if |issues| == 1 then IssuePieces(issues[0])
    else IssuePieces(issues[0]) + ["; "] + JoinIssues(issues[1..])
  }

  const CANNOT_TELL_HEADLINE: seq<string> := ["Недостаточно ", "данных."]
  const FALLBACK_OPENING: seq<string> := ["Черновик ", "дважды ", "не прошёл ", "проверку ", "по ", "документам ("]
  const FALLBACK_CLOSING: seq<string> := ["). ", "Разберите ", "вручную или ", "пришлите ", "кадр ", "этого ", "экрана."]

  function FallbackPieces(issues: seq<Issue>): seq<string> {
    CANNOT_TELL_HEADLINE + ["\n\n"] + FALLBACK_OPENING + JoinIssues(issues) + FALLBACK_CLOSING
  }

  /** The draft the gate writes itself after the third failure, joined as it is checked and stored. */
  function FallbackText(issues: seq<Issue>): string {
    Concat(FallbackPieces(issues))
  }

  predicate One(c: char, small: char, capital: char) {
    c == small || c == capital
  }

  /** "дре" or "ск" at `i`, in any case: one of the two is in each word the frame check looks for. */
  predicate TellTale(t: string, i: nat)
    requires i < |t|
  {
    || t[i] == '§'
    || (i + 1 < |t| && One(t[i], 'с', 'С') && One(t[i + 1], 'к', 'К'))
    || (i + 2 < |t| && One(t[i], 'д', 'Д') && One(t[i + 1], 'р', 'Р') && One(t[i + 2], 'е', 'Е'))
  }

  ghost predicate Harmless(t: string) {
    forall i :: 0 <= i < |t| ==> !TellTale(t, i)
  }

  /** Harmless, and whatever follows cannot complete one of the two. */
  ghost predicate Sealed(t: string) {
    Harmless(t) && t != "" && !One(t[|t| - 1], 'с', 'С') && !One(t[|t| - 1], 'д', 'Д') && !One(t[|t| - 1], 'р', 'Р')
  }

  ghost predicate AllSealed(pieces: seq<string>) {
    forall i :: 0 <= i < |pieces| ==> Sealed(pieces[i])
  }

  lemma SealedThen(a: string, b: string)
    requires Sealed(a) && Harmless(b)
    ensures Harmless(a + b)
  {
    forall i | 0 <= i < |a + b|
      ensures !TellTale(a + b, i)
    {
      assert !TellTale(a + b, i) by {
        if i < |a| { assert !TellTale(a, i); } else { assert !TellTale(b, i - |a|); }
      }
    }
  }

  lemma {:induction false} ConcatHarmless(pieces: seq<string>)
    requires AllSealed(pieces)
    ensures Harmless(Concat(pieces))
  {
    if pieces != [] {
      ConcatHarmless(pieces[1..]);
      SealedThen(pieces[0], Concat(pieces[1..]));
    }
  }

  lemma HeadlineSealed()
    ensures AllSealed(CANNOT_TELL_HEADLINE + ["\n\n"])
  {
    assert Sealed("Недостаточно ");
    assert Sealed("данных.");
    assert Sealed("\n\n");
  }

  lemma OpeningSealed()
    ensures AllSealed(FALLBACK_OPENING)
  {
    assert Sealed("Черновик ");
    assert Sealed("дважды ");
    assert Sealed("не прошёл ");
    assert Sealed("проверку ");
    assert Sealed("по ");
    assert Sealed("документам (");
  }

  lemma ClosingSealed()
    ensures AllSealed(FALLBACK_CLOSING)
  {
    assert Sealed("). ");
    assert Sealed("Разберите ");
    assert Sealed("вручную или ");
    assert Sealed("пришлите ");
    assert Sealed("кадр ");
    assert Sealed("этого ");
    assert Sealed("экрана.");
  }

  lemma NumberSealed(r: string)
    requires IsNumber(r)
    ensures Sealed(r)
  {
    assert IsDigit(r[|r| - 1]);
    assert forall i :: 0 <= i < |r| ==> !IsDigit(r[i]) ==> r[i] == '.';
  }

  lemma MissingSealed(ref: string)
    requires IsNumber(ref)
    ensures AllSealed(IssuePieces(MissingSection(ref)))
  {
    NumberSealed(ref);
    assert Sealed("ссылка на ");
    assert Sealed("раздел ");
    assert Sealed(", которого ");
    assert Sealed("нет среди ");
    assert Sealed("цитат");
  }

  lemma FrameSealed()
    ensures AllSealed(IssuePieces(FrameWithoutScreenshot))
  {
    assert Sealed("черновик ");
    assert Sealed("описывает ");
    assert Sealed("кадр, а ");
    assert Sealed("кадра нет");
  }

  lemma IssueSealed(issue: Issue)
    requires issue.MissingSection? ==> IsNumber(issue.ref)
    ensures AllSealed(IssuePieces(issue))
  {
    match issue
    case MissingSection(ref) =>
      MissingSealed(ref);
    case DefectWithoutCitation =>
      assert Sealed("дефект без ");
      assert Sealed("цитаты из ");
      assert Sealed("документов");
    case FrameWithoutScreenshot =>
      FrameSealed();
  }

  ghost predicate NumbersOnly(issues: seq<Issue>) {
    forall i :: 0 <= i < |issues| && issues[i].MissingSection? ==> IsNumber(issues[i].ref)
  }

  lemma {:induction false} JoinSealed(issues: seq<Issue>)
    requires NumbersOnly(issues)
    ensures AllSealed(JoinIssues(issues))
  {
    if issues != [] {
      IssueSealed(issues[0]);
      JoinSealed(issues[1..]);
      assert Sealed("; ");
    }
  }

  lemma IssuesName(input: Input)
    ensures NumbersOnly(Issues(input))
  {
    var own := OwnText(input.rationale, input.remarkText);
    var issues := Issues(input);
    forall i | 0 <= i < |issues| && issues[i].MissingSection?
      ensures IsNumber(issues[i].ref)
    {
      var missing := MissingIssues(Unique(RefsFrom(own, 0)), AllowedRefs(input.allowedSections));
      assert i < |missing| && issues[i] == missing[i] && missing[i] in missing;
      var r := issues[i].ref;
      RefsFromMeaning(own, 0, r);
      var k :| 0 <= k < |own| && RefAt(own, k) == Some(r);
      RefMeaning(own, k, r);
    }
  }

  lemma SectionSign(rationale: string, remarkText: string, i: nat) returns (k: nat)
    requires i < |OwnText(rationale, remarkText)| && OwnText(rationale, remarkText)[i] == '§'
    ensures k < |rationale| && TellTale(rationale, k)
  {
    assert OccursAt("§", OwnText(rationale, remarkText), i);
    k := Traced(rationale, remarkText, "§");
    assert rationale[k] == rationale[k..k + 1][0];
  }

  lemma HarmlessOwnText(rationale: string, remarkText: string)
    requires Harmless(rationale)
    ensures !MentionsFrame(OwnText(rationale, remarkText))
    ensures RefsFrom(OwnText(rationale, remarkText), 0) == []
  {
    var own := OwnText(rationale, remarkText);
    forall i | 0 <= i < |own|
      ensures own[i] != '§'
    {
      if own[i] == '§' {
        var k := SectionSign(rationale, remarkText, i);
      }
    }
    NoRefsBetween(own, 0, |own|);
    if MentionsFrame(own) {
      var k := FrameWord(rationale, remarkText);
    }
  }

  /** Where in the rationale a blank-free stretch of the own text comes from. */
  lemma Traced(rationale: string, remarkText: string, w: string) returns (k: nat)
    requires w != "" && SpaceFree(w) && Occurs(w, OwnText(rationale, remarkText))
    ensures k + |w| <= |rationale| && rationale[k..k + |w|] == w
  {
    OwnTextOccurs(rationale, remarkText, w);
    k :| k <= |rationale| && OccursAt(w, rationale, k);
  }

  lemma LetterCase(c: char, small: char, capital: char)
    requires Lower(c) == small && 'а' <= small <= 'я' && capital as int == small as int - 32
    ensures One(c, small, capital)
  {
  }

  lemma FrameWord(rationale: string, remarkText: string) returns (k: nat)
    requires MentionsFrame(OwnText(rationale, remarkText))
    ensures k < |rationale| && TellTale(rationale, k)
  {
    var own := OwnText(rationale, remarkText);
    if Occurs("на кадре", LowerAll(own)) {
      var w := InAnyCase(own, "на кадре", 5, "дре");
      LetterCase(w[0], 'д', 'Д');
      LetterCase(w[1], 'р', 'Р');
      LetterCase(w[2], 'е', 'Е');
      k := Traced(rationale, remarkText, w);
      assert rationale[k] == w[0] && rationale[k + 1] == w[1] && rationale[k + 2] == w[2];
    } else {
      var w := InAnyCase(own, "на скрине", 3, "ск");
      LetterCase(w[0], 'с', 'С');
      LetterCase(w[1], 'к', 'К');
      k := Traced(rationale, remarkText, w);
      assert rationale[k] == w[0] && rationale[k + 1] == w[1];
    }
  }

  lemma InAnyCase(t: string, word: string, from: nat, part: string) returns (w: string)
    requires Occurs(word, LowerAll(t)) && OccursAt(part, word, from) && SpaceFree(part)
    ensures |w| == |part| && SpaceFree(w) && Occurs(w, t)
    ensures forall m :: 0 <= m < |w| ==> Lower(w[m]) == part[m]
  {
    var low := LowerAll(t);
    var at: nat :| at <= |low| && OccursAt(word, low, at);
    w := t[at + from..at + from + |part|];
    assert OccursAt(w, t, at + from);
    forall m | 0 <= m < |w|
      ensures Lower(w[m]) == part[m] && w[m] != ' '
    {
      assert part[m] == word[from..from + |part|][m] == low[at..at + |word|][from + m];
      assert part[m] in part;
    }
  }

  /** The fallback draft passes the gate that made it necessary, whatever the model wrote, whatever the remark
      says, with or without a screenshot and with no citation at all. */
  lemma FallbackPasses(failed: Input, allowedSections: seq<Option<string>>, hasScreenshot: bool, remarkText: string)
    ensures Issues(Input(FallbackText(Issues(failed)), allowedSections, remarkText, CannotTell, [], hasScreenshot)) == []
  {
    var issues := Issues(failed);
    IssuesName(failed);
    JoinSealed(issues);
    HeadlineSealed();
    OpeningSealed();
    ClosingSealed();
    ConcatHarmless(FallbackPieces(issues));
    HarmlessOwnText(FallbackText(issues), remarkText);
  }
}
