/** What the check reads in a text: which pieces of the remark count as quotations, and what describes a frame
    (agent/faithfulness.ts). */
module GateTexts {
  import opened Collections
  import opened Faithfulness
  import opened Prelude
  import Q = Quotations
  import T = Text

  // ---------- quotations ----------

  lemma {:induction false} LongKept(lines: seq<string>, piece: string)
    ensures piece in LongEnough(lines) <==> piece in lines && |piece| >= 8
  {
    if lines != [] {
      LongKept(lines[1..], piece);
      assert lines == [lines[0]] + lines[1..];
    }
  }

  /** A piece is the whole remark or one of its lines, without the blanks around it and of at least eight characters. */
  lemma PieceIff(remarkText: string, piece: string)
    ensures piece in QuotePieces(remarkText)
            <==> && |piece| >= 8
                 && (piece == T.Trim(remarkText)
                     || exists k :: 0 <= k < |T.SplitLines(remarkText)| && piece == T.Trim(T.SplitLines(remarkText)[k]))
  {
    LongKept([T.Trim(remarkText)] + T.TrimAll(T.SplitLines(remarkText)), piece);
    if piece in QuotePieces(remarkText) { Q.PieceIs(remarkText, piece); }
    if k :| 0 <= k < |T.SplitLines(remarkText)| && piece == T.Trim(T.SplitLines(remarkText)[k]) {
      TrimmedLine(T.SplitLines(remarkText), k);
    }
  }

  lemma {:induction false} TrimmedLine(lines: seq<string>, k: nat)
    requires k < |lines|
    ensures T.Trim(lines[k]) in T.TrimAll(lines)
  {
    if k > 0 { TrimmedLine(lines[1..], k - 1); }
  }

  // ---------- frames ----------

  /** The text spells the word here, in either case. */
  ghost predicate Spells(t: string, k: nat, small: string, capital: string)
    requires |small| == |capital|
  {
    k + |small| <= |t| && forall i :: 0 <= i < |small| ==> t[k + i] == small[i] || t[k + i] == capital[i]
  }

  ghost predicate CasesOf(small: string, capital: string) {
    && |small| == |capital|
    && forall i :: 0 <= i < |small| ==>
         (small[i] == capital[i] == ' ') || ('А' <= capital[i] <= 'Я' && small[i] as int == capital[i] as int + 32)
  }

  lemma LowerIs(c: char, small: char, capital: char)
    requires (small == capital == ' ') || ('А' <= capital <= 'Я' && small as int == capital as int + 32)
    ensures Lower(c) == small <==> c == small || c == capital
  {
  }

  lemma SpelledAt(t: string, k: nat, small: string, capital: string)
    requires CasesOf(small, capital)
    ensures OccursAt(small, LowerAll(t), k) <==> Spells(t, k, small, capital)
  {
    var low := LowerAll(t);
    if k + |small| <= |t| {
      forall i | 0 <= i < |small|
        ensures low[k..k + |small|][i] == small[i] <==> t[k + i] == small[i] || t[k + i] == capital[i]
      {
        assert low[k..k + |small|][i] == Lower(t[k + i]);
        LowerIs(t[k + i], small[i], capital[i]);
      }
      if Spells(t, k, small, capital) { assert low[k..k + |small|] == small; }
    }
  }

  lemma SpelledIff(t: string, small: string, capital: string)
    requires CasesOf(small, capital)
    ensures Occurs(small, LowerAll(t)) <==> exists k: nat :: Spells(t, k, small, capital)
  {
    if k: nat :| k <= |LowerAll(t)| && OccursAt(small, LowerAll(t), k) { SpelledAt(t, k, small, capital); }
    if k: nat :| Spells(t, k, small, capital) { SpelledAt(t, k, small, capital); }
  }

  /** A draft describes a frame if and only if it says so in one of two ways, in any case. */
  lemma FrameIff(t: string)
    ensures MentionsFrame(t)
            <==> exists k: nat :: Spells(t, k, "на кадре", "НА КАДРЕ") || Spells(t, k, "на скрине", "НА СКРИНЕ")
  {
    SpelledIff(t, "на кадре", "НА КАДРЕ");
    SpelledIff(t, "на скрине", "НА СКРИНЕ");
  }

  // ---------- what it finds ----------

  /** A reference to a section that is not cited, a defect without citation, or a frame described that is not there. */
  ghost predicate Raised(input: Input, own: string, issue: Issue) {
    match issue
    case MissingSection(r) => (exists i :: 0 <= i < |own| && RefAt(own, i) == Some(r)) && !CitedSection(input, r)
    case DefectWithoutCitation => input.proposedClass == DefectCandidate && input.chunkIds == []
    case FrameWithoutScreenshot => MentionsFrame(own) && !input.hasScreenshot
  }

  ghost predicate NoneTwice(issues: seq<Issue>) {
    forall i, j :: 0 <= i < j < |issues| ==> issues[i] != issues[j]
  }

  lemma {:induction false} UniqueOnce(refs: seq<string>)
    ensures forall i, j :: 0 <= i < j < |Unique(refs)| ==> Unique(refs)[i] != Unique(refs)[j]
  {
    if refs != [] { UniqueOnce(refs[..|refs| - 1]); }
  }

  lemma {:induction false} MissingOnce(refs: seq<string>, allowed: seq<string>)
    requires forall i, j :: 0 <= i < j < |refs| ==> refs[i] != refs[j]
    ensures NoneTwice(MissingIssues(refs, allowed))
  {
    if refs != [] {
      var rest := refs[..|refs| - 1];
      MissingOnce(rest, allowed);
      var before := MissingIssues(rest, allowed);
      forall k | 0 <= k < |before|
        ensures before[k] != MissingSection(refs[|refs| - 1])
      {
        assert before[k] in before;
      }
    }
  }

  lemma OthersBehind(missing: seq<Issue>, a: seq<Issue>, b: seq<Issue>)
    requires NoneTwice(missing) && forall x :: x in missing ==> x.MissingSection?
    requires (a == [] || a == [DefectWithoutCitation]) && (b == [] || b == [FrameWithoutScreenshot])
    ensures NoneTwice(missing + a + b)
  {
    assert forall k :: 0 <= k < |missing| ==> missing[k] in missing;
  }

  lemma IssuesOnce(input: Input)
    ensures NoneTwice(Issues(input))
  {
    var own := OwnText(input.rationale, input.remarkText);
    var refs := Unique(RefsFrom(own, 0));
    UniqueOnce(RefsFrom(own, 0));
    MissingOnce(refs, AllowedRefs(input.allowedSections));
    OthersBehind(MissingIssues(refs, AllowedRefs(input.allowedSections)),
                 if input.proposedClass == DefectCandidate && input.chunkIds == [] then [DefectWithoutCitation] else [],
                 if !input.hasScreenshot && MentionsFrame(own) then [FrameWithoutScreenshot] else []);
  }

  /** The check finds exactly these issues, and each once. */
  lemma IssuesIff(input: Input, issue: Issue)
    ensures issue in Issues(input) <==> Raised(input, OwnText(input.rationale, input.remarkText), issue)
    ensures NoneTwice(Issues(input))
  {
    if issue.MissingSection? { RefsFromMeaning(OwnText(input.rationale, input.remarkText), 0, issue.ref); }
    IssuesOnce(input);
  }

  // ---------- what it found, in words ----------

  function Said(issue: Issue): string {
    match issue
    case MissingSection(ref) => "ссылка на раздел " + ref + ", которого нет среди цитат"
    case DefectWithoutCitation => "дефект без цитаты из документов"
    case FrameWithoutScreenshot => "черновик описывает " + "кадр, а кадра нет"
  }

  function AllSaid(issues: seq<Issue>): seq<string> {
    seq(|issues|, k requires 0 <= k < |issues| => Said(issues[k]))
  }

  lemma ThreePieces(a: string, b: string, c: string, more: seq<string>)
    ensures Concat([a, b, c] + more) == a + (b + (c + Concat(more)))
  {
    HeadsOff(a, b, c, more);
    assert Concat([a, b, c] + more) == a + Concat([b, c] + more);
    assert Concat([b, c] + more) == b + Concat([c] + more);
  }

  lemma HeadsOff<T>(a: T, b: T, c: T, more: seq<T>)
    ensures ([a, b, c] + more)[1..] == [b, c] + more && ([b, c] + more)[1..] == [c] + more && ([c] + more)[1..] == more
  {
  }

  lemma AroundRef(a: string, b: string, ref: string, tail: string)
    ensures a + (b + (ref + tail)) == (a + b) + ref + tail
  {
  }

  lemma SectionSaid(ref: string)
    ensures Concat(IssuePieces(MissingSection(ref))) == "ссылка на раздел " + ref + ", которого нет среди цитат"
  {
    var more := [", которого ", "нет среди ", "цитат"];
    ThreePieces("ссылка на ", "раздел ", ref, more);
    ThreePieces(", которого ", "нет среди ", "цитат", []);
    assert IssuePieces(MissingSection(ref)) == ["ссылка на ", "раздел ", ref] + more && more == more + [];
    assert Concat([]) == "" && Concat(more) == ", которого нет среди цитат";
    AroundRef("ссылка на ", "раздел ", ref, Concat(more));
  }

  lemma DefectSaid()
    ensures Concat(IssuePieces(DefectWithoutCitation)) == "дефект без цитаты из документов"
  {
    ThreePieces("дефект без ", "цитаты из ", "документов", []);
    assert IssuePieces(DefectWithoutCitation) == ["дефект без ", "цитаты из ", "документов"] + [];
  }

  lemma FrameEnds()
    ensures Concat(["кадр, а ", "кадра нет"]) == "кадр, а кадра нет"
  {
    assert ["кадр, а ", "кадра нет"][1..] == ["кадра нет"] && Concat(["кадра нет"]) == "кадра нет" + "";
  }

  lemma FrameSaid()
    ensures Concat(IssuePieces(FrameWithoutScreenshot)) == "черновик описывает " + "кадр, а кадра нет"
  {
    var begins, ends := ["черновик ", "описывает "], ["кадр, а ", "кадра нет"];
    assert begins[1..] == ["описывает "] && Concat(["описывает "]) == "описывает " + "";
    assert Concat(begins) == "черновик описывает ";
    assert IssuePieces(FrameWithoutScreenshot) == begins + ends;
    ConcatMore(begins, ends);
    FrameEnds();
  }

  lemma IssueSaid(issue: Issue)
    ensures Concat(IssuePieces(issue)) == Said(issue)
  {
    match issue
    case MissingSection(ref) => SectionSaid(ref);
    case DefectWithoutCitation => DefectSaid();
    case FrameWithoutScreenshot => FrameSaid();
  }

  lemma {:induction false} ConcatMore(a: seq<string>, b: seq<string>)
    ensures Concat(a + b) == Concat(a) + Concat(b)
  {
    if a == [] {
      assert a + b == b;
    } else {
      ConcatMore(a[1..], b);
      HeadInFront(a, b);
      Associates(a[0], Concat(a[1..]), Concat(b));
    }
  }

  /** The issues it found are told one behind the other. */
  lemma {:induction false} IssuesSaid(issues: seq<Issue>)
    ensures Concat(JoinIssues(issues)) == T.Join(AllSaid(issues), "; ")
  {
    if issues != [] {
      IssueSaid(issues[0]);
      assert AllSaid(issues)[1..] == AllSaid(issues[1..]);
      if |issues| > 1 {
        IssuesSaid(issues[1..]);
        ConcatMore(IssuePieces(issues[0]), ["; "] + JoinIssues(issues[1..]));
        assert IssuePieces(issues[0]) + ["; "] + JoinIssues(issues[1..]) == IssuePieces(issues[0]) + (["; "] + JoinIssues(issues[1..]));
        assert (["; "] + JoinIssues(issues[1..]))[1..] == JoinIssues(issues[1..]);
      }
    }
  }

  lemma TwoPieces(a: string, b: string)
    ensures Concat([a, b]) == a + b
  {
    assert [a, b][1..] == [b] && Concat([b]) == b + "";
  }

  lemma OpeningEnds()
    ensures Concat(["проверку ", "по "] + ["документам ("]) == "проверку по документам ("
  {
    ConcatMore(["проверку ", "по "], ["документам ("]);
    TwoPieces("проверку ", "по ");
    assert Concat(["документам ("]) == "документам (" + "";
  }

  lemma OpeningSaid()
    ensures Concat(FALLBACK_OPENING) == "Черновик дважды не прошёл " + "проверку по документам ("
  {
    var ends := ["проверку ", "по "] + ["документам ("];
    ThreePieces("Черновик ", "дважды ", "не прошёл ", ends);
    assert FALLBACK_OPENING == ["Черновик ", "дважды ", "не прошёл "] + ends;
    OpeningEnds();
    AroundRef("Черновик ", "дважды ", "не прошёл ", "проверку по документам (");
    assert ("Черновик " + "дважды ") + "не прошёл " == "Черновик дважды не прошёл ";
  }

  lemma ClosingBegins()
    ensures Concat(["). ", "Разберите "] + ["вручную или "]) == "). Разберите вручную или "
  {
    ConcatMore(["). ", "Разберите "], ["вручную или "]);
    TwoPieces("). ", "Разберите ");
    assert Concat(["вручную или "]) == "вручную или " + "";
  }

  lemma ClosingEnds()
    ensures Concat(["пришлите ", "кадр "] + ["этого ", "экрана."]) == "пришлите кадр этого экрана."
  {
    ConcatMore(["пришлите ", "кадр "], ["этого ", "экрана."]);
    TwoPieces("пришлите ", "кадр ");
    TwoPieces("этого ", "экрана.");
  }

  lemma ClosingSaid()
    ensures Concat(FALLBACK_CLOSING) == "). Разберите вручную или " + "пришлите кадр этого экрана."
  {
    var begins, ends := ["). ", "Разберите "] + ["вручную или "], ["пришлите ", "кадр "] + ["этого ", "экрана."];
    assert FALLBACK_CLOSING == begins + ends;
    ConcatMore(begins, ends);
    ClosingBegins();
    ClosingEnds();
  }

  /** The draft written in place of one that failed for the third time, around what the check found. */
  function InsteadOf(found: string): string {
    ("Черновик дважды не прошёл " + "проверку по документам (") + found + ("). Разберите вручную или " + "пришлите кадр этого экрана.")
  }

  lemma FallbackSaid(issues: seq<Issue>)
    ensures Concat(FALLBACK_OPENING + JoinIssues(issues) + FALLBACK_CLOSING) == InsteadOf(T.Join(AllSaid(issues), "; "))
  {
    ConcatMore(FALLBACK_OPENING + JoinIssues(issues), FALLBACK_CLOSING);
    ConcatMore(FALLBACK_OPENING, JoinIssues(issues));
    OpeningSaid();
    ClosingSaid();
    IssuesSaid(issues);
  }
}
