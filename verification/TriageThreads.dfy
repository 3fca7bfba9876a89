/** Threads of the triage graph with given answers: what the graph can be led to, whatever the gate checks. */
module TriageThreads {
  import opened Collections
  import opened Prelude
  import opened Retrieval
  import opened TriageGraph
  import F = Faithfulness
  import Q = Quotations
  import T = Text

  function Last(cs: seq<Config>): Config
    requires cs != []
  {
    cs[|cs| - 1]
  }

  lemma Extended(cs: seq<Config>, ws: seq<World>, canSee: bool, w: World, next: Config)
    requires IsThread(cs, ws, canSee) && Follows(Last(cs), w, canSee, next)
    ensures IsThread(cs + [next], ws + [w], canSee)
  {
    var more, answers := cs + [next], ws + [w];
    forall i | 0 <= i < |answers|
      ensures Follows(more[i], answers[i], canSee, more[i + 1])
    {
      if i < |ws| { assert Follows(cs[i], ws[i], canSee, cs[i + 1]); }
    }
  }

  // ---------- straight to a proposal ----------

  /** The search finds one hit, and one that binds. */
  predicate Finds(s: State, w: World, h: Hit) {
    Merged(s.hits, FoundBy(ExecIngest(s, w), w)) == [h] && h.score >= BOUND_SCORE
  }

  /** The state with its draft, when the graph goes straight to it. */
  function Drafted(s: State, w: World): State {
    ExecDraft(ExecClassify(ExecBind(ExecRetrieve(ExecIngest(s, w), w)), w), w)
  }

  lemma AfterIngest(c: Config, w: World, next: Config)
    requires c.node == Ingest && next == Step(c, w, false)
    ensures next.node == RetrieveDocs && next.s == ExecIngest(c.s, w)
  {
  }

  lemma AfterSearch(c: Config, w: World, next: Config)
    requires c.node == RetrieveDocs && next == Step(c, w, false)
    ensures next.node == BindToClause && next.s == ExecRetrieve(c.s, w)
  {
  }

  lemma AfterBinding(c: Config, w: World, next: Config, h: Hit)
    requires c.node == BindToClause && c.s.hits == [h] && h.score >= BOUND_SCORE && next == Step(c, w, false)
    ensures next.node == ClassifyEvidence && next.s == ExecBind(c.s)
  {
  }

  lemma AfterModel(c: Config, w: World, next: Config)
    requires (c.node == ClassifyEvidence || c.node == DraftRationale) && next == Step(c, w, false)
    ensures if c.node == ClassifyEvidence then next.node == DraftRationale && next.s == ExecClassify(c.s, w)
            else next.node == FaithfulnessGate && next.s == ExecDraft(c.s, w)
  {
  }

  lemma AfterGate(c: Config, w: World, next: Config)
    requires c.node == FaithfulnessGate && F.Issues(GateInput(c.s)) == [] && next == Step(c, w, false)
    ensures next.node == Propose && next.s == c.s.(faithfulnessOk := true, faithfulnessIssue := None)
  {
  }

  lemma AfterAccepted(c: Config, w: World, next: Config)
    requires (c.node == Propose || c.node == Hitl || c.node == Persist) && w.decision.Accept? && next == Step(c, w, false)
    ensures next.node == if c.node == Propose then Hitl else if c.node == Hitl then Persist else End
    ensures next.s.hits == c.s.hits && next.s.facts == c.s.facts
  {
  }

  lemma OneOn(cs: seq<Config>, ws: seq<World>, w: World) returns (more: seq<Config>, answers: seq<World>, next: Config)
    requires IsThread(cs, ws, false)
    ensures IsThread(more, answers, false) && cs <= more && Last(more) == next == Step(Last(cs), w, false)
  {
    next := Step(Last(cs), w, false);
    Extended(cs, ws, false, w, next);
    more, answers := cs + [next], ws + [w];
  }

  lemma Searched(cs: seq<Config>, ws: seq<World>, w: World, s: State) returns (more: seq<Config>, answers: seq<World>)
    requires IsThread(cs, ws, false) && Last(cs).node == Ingest && s == ExecRetrieve(ExecIngest(Last(cs).s, w), w)
    ensures IsThread(more, answers, false) && cs <= more && Last(more).node == BindToClause && Last(more).s == s
  {
    var c1, c2;
    more, answers, c1 := OneOn(cs, ws, w);
    AfterIngest(Last(cs), w, c1);
    more, answers, c2 := OneOn(more, answers, w);
    AfterSearch(c1, w, c2);
  }

  lemma Classified(cs: seq<Config>, ws: seq<World>, w: World, h: Hit, s: State) returns (more: seq<Config>, answers: seq<World>)
    requires IsThread(cs, ws, false) && Last(cs).node == BindToClause && Last(cs).s.hits == [h] && h.score >= BOUND_SCORE
    requires s == ExecClassify(ExecBind(Last(cs).s), w)
    ensures IsThread(more, answers, false) && cs <= more && Last(more).node == DraftRationale && Last(more).s == s
  {
    var c3, c4;
    more, answers, c3 := OneOn(cs, ws, w);
    AfterBinding(Last(cs), w, c3, h);
    more, answers, c4 := OneOn(more, answers, w);
    AfterModel(c3, w, c4);
  }

  lemma ThroughGate(cs: seq<Config>, ws: seq<World>, w: World, s: State) returns (more: seq<Config>, answers: seq<World>)
    requires IsThread(cs, ws, false) && Last(cs).node == DraftRationale
    requires s == ExecDraft(Last(cs).s, w) && F.Issues(GateInput(s)) == []
    ensures IsThread(more, answers, false) && cs <= more && Last(more).node == Propose
    ensures Last(more).s == s.(faithfulnessOk := true, faithfulnessIssue := None)
  {
    var c5, c6;
    more, answers, c5 := OneOn(cs, ws, w);
    AfterModel(Last(cs), w, c5);
    more, answers, c6 := OneOn(more, answers, w);
    AfterGate(c5, w, c6);
  }

  /** One hit that binds and a draft the gate lets through: the thread goes on to its proposal. */
  lemma ToPropose(cs: seq<Config>, ws: seq<World>, w: World, h: Hit) returns (more: seq<Config>, answers: seq<World>)
    requires IsThread(cs, ws, false) && Last(cs).node == Ingest && Finds(Last(cs).s, w, h)
    requires F.Issues(GateInput(Drafted(Last(cs).s, w))) == []
    ensures IsThread(more, answers, false) && cs <= more && Last(more).node == Propose
    ensures Last(more).s == Drafted(Last(cs).s, w).(faithfulnessOk := true, faithfulnessIssue := None)
  {
    var found := ExecRetrieve(ExecIngest(Last(cs).s, w), w);
    var classified := ExecClassify(ExecBind(found), w);
    more, answers := OnTheWay(cs, ws, w, h, found, classified, Drafted(Last(cs).s, w));
  }

  lemma OnTheWay(cs: seq<Config>, ws: seq<World>, w: World, h: Hit, found: State, classified: State, drafted: State)
    returns (more: seq<Config>, answers: seq<World>)
    requires IsThread(cs, ws, false) && Last(cs).node == Ingest && found.hits == [h] && h.score >= BOUND_SCORE
    requires found == ExecRetrieve(ExecIngest(Last(cs).s, w), w) && classified == ExecClassify(ExecBind(found), w)
    requires drafted == ExecDraft(classified, w) && F.Issues(GateInput(drafted)) == []
    ensures IsThread(more, answers, false) && cs <= more && Last(more).node == Propose
    ensures Last(more).s == drafted.(faithfulnessOk := true, faithfulnessIssue := None)
  {
    more, answers := Searched(cs, ws, w, found);
    more, answers := Classified(more, answers, w, h, classified);
    more, answers := ThroughGate(more, answers, w, drafted);
  }

  lemma OneHit(h: Hit)
    ensures Merged([h], []) == [h] && Merged([], [h]) == [h]
  {
    MergeDistinct([h]);
    assert [h] + [] == [h] && [] + [h] == [h];
    assert [h][..0] == [];
  }

  /** What the gate is handed of such a draft. */
  lemma DraftedInput(s: State, w: World, h: Hit)
    requires Finds(s, w, h) && w.injectionMatches == []
    ensures var d := Drafted(s, w);
            && d.hits == [h] && d.chunkIds == Among(w.chunkIds, [h.chunkId])
            && d.excludeChunkIds == ExecIngest(s, w).excludeChunkIds
            && d.rationale == [Headline(w.proposedClass, w.duplicateOfNumber), w.body]
            && GateInput(d) == F.Input(
                 Headline(w.proposedClass, w.duplicateOfNumber) + "\n\n" + w.body, CitedSections([h], d.chunkIds),
                 w.facts.description, w.proposedClass, d.chunkIds, Truthy(w.facts.screenshotKey))
  {
    IdsOfOne(h);
    JoinTwo(Headline(w.proposedClass, w.duplicateOfNumber), w.body, "\n\n");
  }

  lemma IdsOfOne(h: Hit)
    ensures Ids([h]) == [h.chunkId]
  {
    assert [h][1..] == [];
  }

  // ---------- references nobody cited ----------

  function FallbackHead(): string {
    F.Concat(F.CANNOT_TELL_HEADLINE)
  }

  lemma HeadIsHarmless(head: string)
    requires head == FallbackHead() + "\n\n"
    ensures F.Harmless(head) && '§' !in head && Q.Closed(head)
  {
    F.HeadlineSealed();
    F.ConcatHarmless(F.CANNOT_TELL_HEADLINE + ["\n\n"]);
    ConcatAppend(F.CANNOT_TELL_HEADLINE, ["\n\n"]);
    assert ["\n\n"][1..] == [];
    assert F.Concat(["\n\n"]) == "\n\n" + "";
    assert forall i :: 0 <= i < |head| ==> !F.TellTale(head, i);
  }

  /** Answers to a remark with a screenshot nobody can see: one hit with the given section, cited, and a draft. */
  function Answers(remarkText: string, section: string, body: string): World {
    World(Facts(remarkText, None, None, Some("frame"), []), [], "", [Hit("", Some(section), 1.0)], None, "", F.CannotTell, [""],
          None, "", body, Accept)
  }

  lemma FreshFinds(w: World, h: Hit)
    requires w.results == [h] && h.score >= BOUND_SCORE && w.facts.citedChunkIds == []
    ensures Finds(Start(None, []).s, w, h)
  {
    OneHit(h);
    assert [h][1..] == [];
    assert Admitted([h], {}) == [h];
    assert (set id | id in ExecIngest(Start(None, []).s, w).excludeChunkIds) == {};
  }

  /** A draft that hides a reference from the gate reaches the human, headline and all. */
  lemma HiddenIsProposed(remarkText: string, body: string, r: string) returns (cs: seq<Config>, ws: seq<World>)
    requires '\n' !in remarkText && Q.RefersTo(body, r)
    requires !Q.RefersTo(F.OwnText(body, remarkText), r) && !Q.RefersTo(remarkText, r)
    ensures IsThread(cs, ws, false) && Last(cs).node == Propose && GateInput(Last(cs).s).remarkText == remarkText
    ensures Last(cs).s.rationale == [FallbackHead(), body]
    ensures Q.RefersTo(GateInput(Last(cs).s).rationale, r) && !Q.Supported(GateInput(Last(cs).s), r)
  {
    var head := FallbackHead() + "\n\n";
    HeadIsHarmless(head);
    Q.HiddenBehind(head, body, remarkText, r);
    var own := F.OwnText(head + body, remarkText);
    var w, h := Answers(remarkText, own, body), Hit("", Some(own), 1.0);
    cs, ws := AnsweredThread(remarkText, own, body, w, h);
    Q.SelfCited(GateInput(Last(cs).s), own, r);
  }

  /** The thread with these answers, if the section covers what the draft refers to. */
  lemma AnsweredThread(remarkText: string, own: string, body: string, w: World, h: Hit)
    returns (cs: seq<Config>, ws: seq<World>)
    requires own == F.OwnText(FallbackHead() + "\n\n" + body, remarkText)
    requires w == Answers(remarkText, own, body) && h == Hit("", Some(own), 1.0)
    ensures IsThread(cs, ws, false) && Last(cs).node == Propose && Last(cs).s.rationale == [FallbackHead(), body]
    ensures GateInput(Last(cs).s)
         == F.Input(FallbackHead() + "\n\n" + body, [Some(own)], remarkText, F.CannotTell, [""], true)
  {
    var c := Start(None, []);
    FreshFinds(w, h);
    DraftedInput(c.s, w, h);
    CitesOne(h);
    var input := F.Input(FallbackHead() + "\n\n" + body, [Some(own)], remarkText, F.CannotTell, [""], true);
    assert GateInput(Drafted(c.s, w)) == input;
    Q.CoveredPasses(input, own);
    OnlyStart(c);
    cs, ws := ToPropose([c], [], w, h);
  }

  lemma CitesOne(h: Hit)
    ensures Among([h.chunkId], [h.chunkId]) == [h.chunkId] && CitedSections([h], [h.chunkId]) == [h.section]
  {
    assert [h.chunkId][1..] == [] && [h][1..] == [];
  }

  lemma OnlyStart(c: Config)
    requires c == Start(None, [])
    ensures IsThread([c], [], false)
  {
  }

  /** A one-line remark that is not safe to quote: some draft about it reaches the human with a reference that is neither
      cited nor the remark's. */
  lemma UnsafeIsProposed(remarkText: string) returns (cs: seq<Config>, ws: seq<World>)
    requires '\n' !in remarkText && !Q.SafeToQuote(remarkText)
    ensures IsThread(cs, ws, false) && Last(cs).node == Propose && GateInput(Last(cs).s).remarkText == remarkText
    ensures !Q.AllSupported(GateInput(Last(cs).s))
  {
    Q.ProtectedIff(remarkText);
    var body := Q.UnsafeHides(remarkText, T.Trim(remarkText));
    var r :| Q.RefersTo(body, r) && !Q.RefersTo(F.OwnText(body, remarkText), r) && !Q.RefersTo(remarkText, r);
    cs, ws := HiddenIsProposed(remarkText, body, r);
  }

  /** No thread proposes a draft about the remark with a reference that is neither cited nor the remark's. */
  ghost predicate ProposalsProtected(remarkText: string) {
    forall cs: seq<Config>, ws: seq<World>, canSee: bool, i: nat ::
      IsThread(cs, ws, canSee) && i < |cs| && cs[i].node == Propose && GateInput(cs[i].s).remarkText == remarkText ==>
        Q.AllSupported(GateInput(cs[i].s))
  }

  /** For a remark of one line the graph lets no unsupported reference through, whatever model, search and human, if and only
      if the remark is too short to be cut or safe to quote. */
  lemma ProposalsProtectedIff(remarkText: string)
    requires '\n' !in remarkText
    ensures ProposalsProtected(remarkText) <==> Q.SafeToQuote(remarkText)
  {
    if Q.SafeToQuote(remarkText) {
      forall cs: seq<Config>, ws: seq<World>, canSee: bool, i: nat |
        IsThread(cs, ws, canSee) && i < |cs| && cs[i].node == Propose && GateInput(cs[i].s).remarkText == remarkText
        ensures Q.AllSupported(GateInput(cs[i].s))
      {
        ProposalsAreSupported(cs, ws, canSee, i);
      }
    } else {
      var cs, ws := UnsafeIsProposed(remarkText);
      var i: nat := |cs| - 1;
      assert IsThread(cs, ws, false) && cs[i].node == Propose && !Q.AllSupported(GateInput(cs[i].s));
    }
  }

  /** The remark names section 2, and a proposal about it section 2.1, which nobody cited. */
  lemma ContinuationIsProposed(remarkText: string, rest: string, ref: string) returns (cs: seq<Config>, ws: seq<World>)
    requires remarkText == "Кнопка по \U{00A7}2" && rest == ".1 не та" && ref == "2.1"
    ensures IsThread(cs, ws, false) && Last(cs).node == Propose && GateInput(Last(cs).s).remarkText == remarkText
    ensures Last(cs).s.rationale == [FallbackHead(), remarkText + rest]
    ensures Q.RefersTo(GateInput(Last(cs).s).rationale, ref) && !Q.Supported(GateInput(Last(cs).s), ref)
  {
    Q.ContinuedHides(remarkText, rest, 10, ref);
    cs, ws := HiddenIsProposed(remarkText, remarkText + rest, ref);
  }

  // ---------- a rejected citation comes back ----------

  /** Answers that find, cite and say nothing, whatever the remark. */
  function Again(h: Hit): World {
    World(Facts("", None, None, None, []), [], "", [h], None, "", F.CannotTell, [h.chunkId], None, "", "", Accept)
  }

  lemma SaysNothing(s: State, w: World, h: Hit)
    requires w == Again(h) && Finds(s, w, h)
    ensures F.Issues(GateInput(Drafted(s, w))) == []
  {
    SaidNothing(s, w, h);
    SilencePasses(GateInput(Drafted(s, w)));
  }

  lemma SilencePasses(input: F.Input)
    requires input.rationale == FallbackHead() + "\n\n" && input.proposedClass == F.CannotTell
    ensures F.Issues(input) == []
  {
    HeadIsHarmless(input.rationale);
    F.HarmlessOwnText(input.rationale, input.remarkText);
    Q.NoRefsPass(input);
  }

  lemma SaidNothing(s: State, w: World, h: Hit)
    requires w == Again(h) && Finds(s, w, h)
    ensures var input := GateInput(Drafted(s, w));
            input.rationale == FallbackHead() + "\n\n" && input.proposedClass == F.CannotTell
  {
    DraftedInput(s, w, h);
    CitesOne(h);
  }

  lemma Accepted(cs: seq<Config>, ws: seq<World>, w: World) returns (more: seq<Config>, answers: seq<World>)
    requires IsThread(cs, ws, false) && Last(cs).node == Propose && w.decision.Accept?
    ensures IsThread(more, answers, false) && cs <= more && Last(more).node == End
    ensures Last(more).s.hits == Last(cs).s.hits
  {
    var c1, c2, c3;
    more, answers, c1 := OneOn(cs, ws, w);
    AfterAccepted(Last(cs), w, c1);
    more, answers, c2 := OneOn(more, answers, w);
    AfterAccepted(c1, w, c2);
    more, answers, c3 := OneOn(more, answers, w);
    AfterAccepted(c2, w, c3);
  }

  lemma NoneAdmitted(h: Hit, exclude: set<ChunkId>)
    requires h.chunkId in exclude
    ensures Admitted([h], exclude) == []
  {
    assert [h][1..] == [];
  }

  /** The hits left behind are found again, though excluded. */
  lemma LeftIsFound(left: Config, w: World, h: Hit, comment: string)
    requires left.s.hits == [h] && w == Again(h) && h.score >= BOUND_SCORE && comment != ""
    ensures Finds(StartOver(left, Some(comment), [h.chunkId]).s, w, h)
    ensures h.chunkId in ExecIngest(StartOver(left, Some(comment), [h.chunkId]).s, w).excludeChunkIds
  {
    OneHit(h);
    var s := ExecIngest(StartOver(left, Some(comment), [h.chunkId]).s, w);
    assert h.chunkId in s.excludeChunkIds;
    NoneAdmitted(h, set id | id in s.excludeChunkIds);
  }

  /** One hit, cited and accepted; then its citation is rejected by a verdict on the finished run and the thread is started
      over with it excluded: the next proposal cites it again. */
  lemma RejectedIsCitedAgain(h: Hit, comment: string) returns (cs: seq<Config>, ws: seq<World>, start: nat)
    requires h.score >= BOUND_SCORE && comment != ""
    ensures IsThread(cs, ws, false) && 0 < start < |cs| - 1 && Last(cs).node == Propose
    ensures cs[start - 1].node == End && cs[start] == StartOver(cs[start - 1], Some(comment), [h.chunkId])
    ensures h.chunkId in Last(cs).s.excludeChunkIds && h.chunkId in Last(cs).s.chunkIds && !Clear(Last(cs))
  {
    var w, c := Again(h), Start(None, []);
    OnlyStart(c);
    FreshFinds(w, h);
    SaysNothing(c.s, w, h);
    DraftedInput(c.s, w, h);
    cs, ws := ToPropose([c], [], w, h);
    cs, ws := Accepted(cs, ws, w);
    cs, ws, start := CitedAgain(cs, ws, w, h, comment);
  }

  lemma CitedAgain(before: seq<Config>, answers: seq<World>, w: World, h: Hit, comment: string)
    returns (cs: seq<Config>, ws: seq<World>, start: nat)
    requires IsThread(before, answers, false) && Last(before).node == End && Last(before).s.hits == [h]
    requires w == Again(h) && h.score >= BOUND_SCORE && comment != ""
    ensures IsThread(cs, ws, false) && 0 < start < |cs| - 1 && Last(cs).node == Propose
    ensures cs[start - 1].node == End && cs[start] == StartOver(cs[start - 1], Some(comment), [h.chunkId])
    ensures h.chunkId in Last(cs).s.excludeChunkIds && h.chunkId in Last(cs).s.chunkIds && !Clear(Last(cs))
  {
    var left := Last(before);
    var again := StartOver(left, Some(comment), [h.chunkId]);
    start := |before|;
    assert Restarts(left, again);
    Extended(before, answers, false, w, again);
    LeftIsFound(left, w, h, comment);
    cs, ws := CitesIt(before + [again], answers + [w], w, h);
    BehindPrefix(before, again, cs);
  }

  lemma BehindPrefix(before: seq<Config>, c: Config, cs: seq<Config>)
    requires before != [] && before + [c] <= cs
    ensures cs[|before|] == c && cs[|before| - 1] == Last(before)
  {
    var start := before + [c];
    assert start[|before|] == c && start[|before| - 1] == Last(before);
  }

  lemma CitesIt(before: seq<Config>, answers: seq<World>, w: World, h: Hit) returns (cs: seq<Config>, ws: seq<World>)
    requires IsThread(before, answers, false) && Last(before).node == Ingest && w == Again(h)
    requires Finds(Last(before).s, w, h) && h.chunkId in ExecIngest(Last(before).s, w).excludeChunkIds
    ensures IsThread(cs, ws, false) && before <= cs && Last(cs).node == Propose
    ensures h.chunkId in Last(cs).s.excludeChunkIds && h.chunkId in Last(cs).s.chunkIds && !Clear(Last(cs))
  {
    SaysNothing(Last(before).s, w, h);
    CitesExcluded(Last(before).s, w, h);
    cs, ws := ToPropose(before, answers, w, h);
    HitIsExcluded(Last(cs), h);
  }

  lemma CitesExcluded(s: State, w: World, h: Hit)
    requires w == Again(h) && Finds(s, w, h) && h.chunkId in ExecIngest(s, w).excludeChunkIds
    ensures var d := Drafted(s, w); d.hits == [h] && h.chunkId in d.excludeChunkIds && h.chunkId in d.chunkIds
  {
    DraftedInput(s, w, h);
    CitesOne(h);
  }

  lemma HitIsExcluded(c: Config, h: Hit)
    requires c.s.hits == [h] && h.chunkId in c.s.excludeChunkIds
    ensures !Clear(c)
  {
    assert h in c.s.hits;
  }
}
