/** The triage graph (agent/triage.graph.ts) as a state machine over `TriageState` (agent/graph-state.ts). Nothing
    is assumed of the model, the search or the human: whatever they answer at a node is part of that node's `World`. */
module TriageGraph {
  import opened Collections
  import opened Prelude
  import opened Retrieval
  import F = Faithfulness
  import Q = Quotations
  import T = Text

  // ---------- state ----------

  datatype Facts = Facts(
    description: string,
    expected: Option<string>,
    pageOrScreen: Option<string>,
    screenshotKey: Option<string>,
    citedChunkIds: seq<ChunkId>)

  datatype Binding = Clause(chunkId: ChunkId, clauseRef: Option<string>, confidence: real) | NoBinding

  datatype Decision = Accept | RejectBinding(comment: string) | RequestScreenshot | Cancel

  datatype State = State(
    facts: Option<Facts>,
    query: string,
    rewriteCount: nat,
    bindLoops: nat,
    hits: seq<Hit>,
    retrievedChunkIds: seq<ChunkId>,
    excludeChunkIds: seq<ChunkId>,
    visionFacts: Option<string>,
    binding: Binding,
    proposedClass: Option<F.ProposedClass>,
    chunkIds: seq<ChunkId>,
    duplicateOfNumber: Option<nat>,
    reason: string,
    rationale: seq<string>,
    faithfulnessOk: bool,
    faithfulnessIssue: Option<string>,
    humanComment: Option<string>,
    injectionMatches: seq<string>,
    decision: Option<Decision>)

  const DEFAULTS := State(None, "", 0, 0, [], [], [], None, NoBinding, None, [], None, "", [], false, None, None, [], None)

  /** The graph's input on a thread without checkpoints. */
  function Input(humanComment: Option<string>, excludeChunkIds: seq<ChunkId>): State {
    DEFAULTS.(humanComment := humanComment, excludeChunkIds := excludeChunkIds)
  }

  /** What the outside answers while one node runs. */
  datatype World = World(
    facts: Facts,
    injectionMatches: seq<string>,
    injectionNote: string,
    results: seq<Hit>,
    frameFacts: Option<string>,
    query: string,
    proposedClass: F.ProposedClass,
    chunkIds: seq<ChunkId>,
    duplicateOfNumber: Option<nat>,
    reason: string,
    body: string,
    decision: Decision)

  datatype Node =
    | Ingest | RetrieveDocs | MaybeVision | BindToClause | RewriteQuery | ClassifyEvidence
    | DraftRationale | FaithfulnessGate | Propose | Hitl | Persist | Pause | End

  const MAX_REWRITES: nat := 2
  const MAX_BIND_LOOPS: nat := 2
  const BOUND_SCORE: real := 0.45

  // ---------- nodes ----------

  predicate Truthy(s: Option<string>) {
    s.Some? && s.value != ""
  }

  function Words(s: Option<string>): seq<string> {
    if Truthy(s) then [s.value] else []
  }

  function BuildQuery(facts: Facts, humanComment: Option<string>): string {
    T.Join(Words(Some(facts.description)) + Words(facts.expected) + Words(facts.pageOrScreen) + Words(humanComment), ". ")
  }

  /** `[...new Set([...a, ...b])]`. */
  function Union(a: seq<ChunkId>, b: seq<ChunkId>): (r: seq<ChunkId>)
    ensures forall id :: id in r <==> id in a || id in b
  {
    F.Unique(a + b)
  }

  function ExecIngest(s: State, w: World): State {
    s.(facts := Some(w.facts),
       query := BuildQuery(w.facts, s.humanComment),
       excludeChunkIds := if Truthy(s.humanComment) then Union(s.excludeChunkIds, w.facts.citedChunkIds) else s.excludeChunkIds,
       injectionMatches := w.injectionMatches)
  }

  function FoundBy(s: State, w: World): seq<Hit> {
    Admitted(w.results, set id | id in s.excludeChunkIds)
  }

  function Ids(hits: seq<Hit>): (ids: seq<ChunkId>)
    ensures forall id :: id in ids <==> exists h :: h in hits && h.chunkId == id
  {
    if hits == [] then []
    else
      assert hits == [hits[0]] + hits[1..];
      [hits[0].chunkId] + Ids(hits[1..])
  }

  function ExecRetrieve(s: State, w: World): State {
    var hits := Merged(s.hits, FoundBy(s, w));
    s.(hits := hits, retrievedChunkIds := Ids(hits))
  }

  function ExecVision(s: State, w: World): State {
    s.(visionFacts := Some(if w.frameFacts.Some? then w.frameFacts.value else ""))
  }

  function ExecBind(s: State): State {
    if s.hits != [] && (s.hits[0].score >= BOUND_SCORE || Truthy(s.humanComment))
    then s.(binding := Clause(s.hits[0].chunkId, s.hits[0].section, s.hits[0].score))
    else s.(binding := NoBinding)
  }

  function ExecRewrite(s: State, w: World): State {
    s.(query := w.query, rewriteCount := s.rewriteCount + 1)
  }

  function Among(ids: seq<ChunkId>, allowed: seq<ChunkId>): (r: seq<ChunkId>)
    ensures forall id :: id in r <==> id in ids && id in allowed
  {
    if ids == [] then [] else (if ids[0] in allowed then [ids[0]] else []) + Among(ids[1..], allowed)
  }

  function ExecClassify(s: State, w: World): State {
    s.(proposedClass := Some(w.proposedClass),
       chunkIds := Among(w.chunkIds, s.retrievedChunkIds),
       duplicateOfNumber := w.duplicateOfNumber,
       reason := w.reason)
  }

  function Decimal(n: nat): string {
    (if n < 10 then "" else Decimal(n / 10)) + [('0' as int + n % 10) as char]
  }

  function Headline(c: F.ProposedClass, duplicateOfNumber: Option<nat>): string {
    match c
    case DefectCandidate => "Похоже, это поломка относительно ТЗ."
    case ChangeRequestCandidate => "Похоже, это новое желание."
    case Unspecified => "В бумагах нет опоры."
    case Duplicate =>
      if duplicateOfNumber.Some? && duplicateOfNumber.value != 0
      then "Похоже на повтор №" + Decimal(duplicateOfNumber.value) + "."
      else "Похоже на повтор."
    case CannotTell => F.Concat(F.CANNOT_TELL_HEADLINE)
  }

  function ExecDraft(s: State, w: World): State {
    if s.proposedClass.None? then s
    else
      var head := Headline(s.proposedClass.value, s.duplicateOfNumber);
      s.(rationale := if s.injectionMatches != [] then [head, w.body, w.injectionNote] else [head, w.body])
  }

  function CitedSections(hits: seq<Hit>, cited: seq<ChunkId>): seq<Option<string>> {
    if hits == [] then []
    else (if hits[0].chunkId in cited then [hits[0].section] else []) + CitedSections(hits[1..], cited)
  }

  /** What the gate hands to `checkFaithfulness`. */
  function GateInput(s: State): F.Input {
    F.Input(
      T.Join(s.rationale, "\n\n"),
      CitedSections(s.hits, s.chunkIds),
      if s.facts.Some? then s.facts.value.description else "",
      if s.proposedClass.Some? then s.proposedClass.value else F.CannotTell,
      s.chunkIds,
      s.facts.Some? && Truthy(s.facts.value.screenshotKey))
  }

  function ExecGate(s: State): State {
    AfterCheck(s, F.Issues(GateInput(s)))
  }

  function AfterCheck(s: State, issues: seq<F.Issue>): State {
    var issue := F.Concat(F.JoinIssues(issues));
    if issues == [] then s.(faithfulnessOk := true, faithfulnessIssue := None)
    else if s.bindLoops < MAX_BIND_LOOPS then
      s.(faithfulnessOk := false, faithfulnessIssue := Some(issue), bindLoops := s.bindLoops + 1)
    else
      s.(faithfulnessOk := true,
         faithfulnessIssue := Some(issue),
         proposedClass := Some(F.CannotTell),
         chunkIds := [],
         duplicateOfNumber := None,
         rationale := [Headline(F.CannotTell, None),
                       F.Concat(F.FALLBACK_OPENING + F.JoinIssues(issues) + F.FALLBACK_CLOSING)])
  }

  function ExecHitl(s: State, w: World): State {
    match w.decision
    case RejectBinding(comment) =>
      s.(decision := Some(w.decision),
         injectionMatches := w.injectionMatches,
         humanComment := Some(comment),
         query := if s.facts.Some? then BuildQuery(s.facts.value, Some(comment)) else "",
         excludeChunkIds := Union(s.excludeChunkIds, s.chunkIds),
         hits := [],
         rewriteCount := 0,
         bindLoops := 0,
         faithfulnessIssue := None,
         binding := NoBinding)
    case _ => s.(decision := Some(w.decision))
  }

  function Exec(node: Node, s: State, w: World): State {
    match node
    case Ingest => ExecIngest(s, w)
    case RetrieveDocs => ExecRetrieve(s, w)
    case MaybeVision => ExecVision(s, w)
    case BindToClause => ExecBind(s)
    case RewriteQuery => ExecRewrite(s, w)
    case ClassifyEvidence => ExecClassify(s, w)
    case DraftRationale => ExecDraft(s, w)
    case FaithfulnessGate => ExecGate(s)
    case Hitl => ExecHitl(s, w)
    case _ => s
  }

  // ---------- edges ----------

  /** A frame is there, nobody looked at it yet and the model can see. */
  predicate FrameUnseen(s: State, canSee: bool) {
    s.facts.Some? && Truthy(s.facts.value.screenshotKey) && s.visionFacts.None? && canSee
  }

  /** The node that follows `node`, given the state after it. */
  function Route(node: Node, s: State, canSee: bool): Node {
    match node
    case Ingest => RetrieveDocs
    case RetrieveDocs => if FrameUnseen(s, canSee) then MaybeVision else BindToClause
    case MaybeVision => BindToClause
    case BindToClause =>
      if s.binding.NoBinding? && s.rewriteCount < MAX_REWRITES && !Truthy(s.humanComment) then RewriteQuery else ClassifyEvidence
    case RewriteQuery => RetrieveDocs
    case ClassifyEvidence => DraftRationale
    case DraftRationale => FaithfulnessGate
    case FaithfulnessGate => if s.faithfulnessOk then Propose else BindToClause
    case Propose => Hitl
    case Hitl =>
      (match s.decision
       case Some(Accept) => Persist
       case Some(RejectBinding(_)) => RetrieveDocs
       case Some(RequestScreenshot) => Pause
       case _ => End)
    case _ => End
  }

  // ---------- runs ----------

  /** A checkpoint, with what the proofs remember of the run: the hits each retrieval since the last reset found,
      and how many proposals that cited something were rejected. */
  datatype Config = Config(node: Node, s: State, rounds: seq<seq<Hit>>, rejections: nat)

  function Start(humanComment: Option<string>, excludeChunkIds: seq<ChunkId>): Config {
    Config(Ingest, Input(humanComment, excludeChunkIds), [], 0)
  }

  predicate Rejects(c: Config, w: World) {
    c.node == Hitl && w.decision.RejectBinding?
  }

  function Step(c: Config, w: World, canSee: bool): Config {
    Moved(c, Exec(c.node, c.s, w), w, canSee)
  }

  /** The checkpoint after `c.node` left the state `s`. */
  function Moved(c: Config, s: State, w: World, canSee: bool): Config {
    Config(
      Route(c.node, s, canSee),
      s,
      if c.node == RetrieveDocs then c.rounds + [FoundBy(c.s, w)] else if Rejects(c, w) then [] else c.rounds,
      if Rejects(c, w) && c.s.chunkIds != [] then c.rejections + 1 else c.rejections)
  }

  /** Every search result is a chunk of the project. */
  ghost predicate InProject(w: World, project: set<ChunkId>) {
    forall h :: h in w.results ==> h.chunkId in project
  }

  /** The graph invoked with a fresh input on a thread that has checkpoints: the input replaces its own fields, every other
      channel keeps the value of the last one. */
  function StartOver(left: Config, humanComment: Option<string>, excludeChunkIds: seq<ChunkId>): Config {
    left.(node := Ingest, s := left.s.(humanComment := humanComment, excludeChunkIds := excludeChunkIds))
  }

  ghost predicate Restarts(c: Config, next: Config) {
    exists comment, exclude :: next == StartOver(c, comment, exclude)
  }

  ghost predicate Follows(c: Config, w: World, canSee: bool, next: Config) {
    next == Step(c, w, canSee) || Restarts(c, next)
  }

  /** A run from the start of a thread, over any number of interrupts and resumes, and started over any number of times. */
  ghost predicate IsThread(cs: seq<Config>, ws: seq<World>, canSee: bool) {
    && |cs| == |ws| + 1 && (exists comment, exclude :: cs[0] == Start(comment, exclude))
    && forall i :: 0 <= i < |ws| ==> Follows(cs[i], ws[i], canSee, cs[i + 1])
  }

  /** Between the two checkpoints the thread is not started over. */
  ghost predicate GoesOn(cs: seq<Config>, ws: seq<World>, canSee: bool, from: nat, to: nat) {
    |cs| == |ws| + 1 && from <= to < |cs| && forall k :: from <= k < to ==> cs[k + 1] == Step(cs[k], ws[k], canSee)
  }

  // ---------- invariant ----------

  ghost predicate Disjoint(hits: seq<Hit>, ids: seq<ChunkId>) {
    forall h :: h in hits ==> h.chunkId !in ids
  }

  ghost predicate AllAmong(ids: seq<ChunkId>, hits: seq<Hit>) {
    forall id :: id in ids ==> id in Ids(hits)
  }

  predicate PastGate(node: Node) {
    node.Propose? || node.Hitl?
  }

  predicate PastClassification(node: Node) {
    node.DraftRationale? || node.FaithfulnessGate? || PastGate(node)
  }

  /** Between a retrieval and the next reset the ids offered to the model are those of the hits. */
  predicate PastRetrieval(node: Node) {
    node.MaybeVision? || node.BindToClause? || node.RewriteQuery? || node.ClassifyEvidence? || PastClassification(node)
  }

  ghost predicate Sound(c: Config) {
    && c.s.rewriteCount <= MAX_REWRITES
    && c.s.bindLoops <= MAX_BIND_LOOPS
    && (c.node == RewriteQuery ==> c.s.rewriteCount < MAX_REWRITES)
    && c.s.hits == Incremental(c.rounds)
    && (c.node != Ingest ==> c.s.facts.Some?)
    && (PastRetrieval(c.node) ==> c.s.retrievedChunkIds == Ids(c.s.hits))
    && (PastClassification(c.node) ==> c.s.proposedClass.Some? && AllAmong(c.s.chunkIds, c.s.hits))
  }

  /** No hit is excluded; a thread started over may lose this. */
  ghost predicate Clear(c: Config) {
    Disjoint(c.s.hits, c.s.excludeChunkIds) && (c.node == Ingest ==> c.s.hits == [])
  }

  /** Behind the gate the draft passes the check. */
  ghost predicate Gated(c: Config) {
    PastGate(c.node) ==> F.Issues(GateInput(c.s)) == []
  }

  lemma IngestInv(c: Config, w: World, canSee: bool)
    requires Sound(c) && c.node.Ingest?
    ensures Sound(Moved(c, ExecIngest(c.s, w), w, canSee))
  {
    FactsInv(c, ExecIngest(c.s, w), w, canSee);
  }

  lemma FactsInv(c: Config, s: State, w: World, canSee: bool)
    requires Sound(c) && c.node.Ingest? && s.facts.Some? && s.hits == c.s.hits
    requires s.rewriteCount == c.s.rewriteCount && s.bindLoops == c.s.bindLoops
    ensures Sound(Moved(c, s, w, canSee))
  {
  }

  lemma RetrieveInv(c: Config, w: World, canSee: bool)
    requires Sound(c) && c.node.RetrieveDocs?
    ensures Sound(Moved(c, ExecRetrieve(c.s, w), w, canSee))
  {
    OneMoreRound(c.rounds, FoundBy(c.s, w));
  }

  lemma OneMoreRound(rounds: seq<seq<Hit>>, found: seq<Hit>)
    ensures Incremental(rounds + [found]) == Merged(Incremental(rounds), found)
  {
    assert (rounds + [found])[..|rounds|] == rounds;
  }

  lemma VisionInv(c: Config, w: World, canSee: bool)
    requires Sound(c) && c.node.MaybeVision?
    ensures Sound(Moved(c, ExecVision(c.s, w), w, canSee))
  {
  }

  lemma BindInv(c: Config, w: World, canSee: bool)
    requires Sound(c) && c.node.BindToClause?
    ensures Sound(Moved(c, ExecBind(c.s), w, canSee))
  {
  }

  lemma RewriteInv(c: Config, w: World, canSee: bool)
    requires Sound(c) && c.node.RewriteQuery?
    ensures Sound(Moved(c, ExecRewrite(c.s, w), w, canSee))
  {
  }

  lemma ModelInv(c: Config, w: World, canSee: bool)
    requires Sound(c)
    ensures c.node.ClassifyEvidence? ==> Sound(Moved(c, ExecClassify(c.s, w), w, canSee))
    ensures c.node.DraftRationale? ==> Sound(Moved(c, ExecDraft(c.s, w), w, canSee))
  {
  }

  lemma GateInv(c: Config, issues: seq<F.Issue>, w: World, canSee: bool)
    requires Sound(c) && c.node.FaithfulnessGate?
    ensures Sound(Moved(c, AfterCheck(c.s, issues), w, canSee))
  {
  }

  lemma HitlInv(c: Config, w: World, canSee: bool)
    requires Sound(c) && c.node.Hitl?
    ensures Sound(Moved(c, ExecHitl(c.s, w), w, canSee))
  {
    if Rejects(c, w) {
      RejectInv(c, w, canSee, ExecHitl(c.s, w));
    }
  }

  lemma RejectInv(c: Config, w: World, canSee: bool, s: State)
    requires Sound(c) && Rejects(c, w) && s == ExecHitl(c.s, w)
    ensures Sound(Moved(c, s, w, canSee))
  {
    assert s.hits == [] == Incremental([]);
  }

  lemma IdleInv(c: Config, w: World, canSee: bool)
    requires Sound(c) && (c.node.Propose? || c.node.Persist? || c.node.Pause? || c.node.End?)
    ensures Sound(Moved(c, c.s, w, canSee))
  {
    var next := Moved(c, c.s, w, canSee);
    assert next.s == c.s && next.rounds == c.rounds && (next.node.Hitl? || next.node.End?);
  }

  lemma {:induction false} ConcatAppend(a: seq<string>, b: seq<string>)
    ensures F.Concat(a + b) == F.Concat(a) + F.Concat(b)
  {
    if a == [] {
      assert a + b == b;
    } else {
      assert (a + b)[1..] == a[1..] + b;
      ConcatAppend(a[1..], b);
    }
  }

  lemma JoinTwo(a: string, b: string, separator: string)
    ensures T.Join([a, b], separator) == a + separator + b
  {
    assert [a, b][1..] == [b];
  }

  lemma FallbackJoined(issues: seq<F.Issue>)
    ensures F.FallbackText(issues)
         == F.Concat(F.CANNOT_TELL_HEADLINE) + "\n\n" + F.Concat(F.FALLBACK_OPENING + F.JoinIssues(issues) + F.FALLBACK_CLOSING)
  {
    var head, opening := F.CANNOT_TELL_HEADLINE, F.FALLBACK_OPENING;
    FourParts(head + ["\n\n"], opening, F.JoinIssues(issues), F.FALLBACK_CLOSING);
    Associates(opening, F.JoinIssues(issues), F.FALLBACK_CLOSING);
    JoinedAround(head, "\n\n", opening + F.JoinIssues(issues) + F.FALLBACK_CLOSING);
  }

  lemma JoinedAround(head: seq<string>, gap: string, tail: seq<string>)
    ensures F.Concat(head + [gap] + tail) == F.Concat(head) + gap + F.Concat(tail)
  {
    ConcatAppend(head + [gap], tail);
    ConcatAppend(head, [gap]);
    assert [gap][1..] == [];
    assert F.Concat([gap]) == gap + "";
  }

  lemma FallbackLetThrough(s: State)
    requires F.Issues(GateInput(s)) != [] && s.bindLoops >= MAX_BIND_LOOPS
    ensures F.Issues(GateInput(ExecGate(s))) == []
  {
    var issues := F.Issues(GateInput(s));
    var input := GateInput(ExecGate(s));
    FallbackJoined(issues);
    JoinTwo(F.Concat(F.CANNOT_TELL_HEADLINE), F.Concat(F.FALLBACK_OPENING + F.JoinIssues(issues) + F.FALLBACK_CLOSING), "\n\n");
    assert input.rationale == F.FallbackText(issues);
    F.FallbackPasses(GateInput(s), input.allowedSections, input.hasScreenshot, input.remarkText);
  }

  /** What leaves the gate towards `Propose` passes it. */
  lemma GateLetsThrough(s: State)
    requires ExecGate(s).faithfulnessOk
    ensures F.Issues(GateInput(ExecGate(s))) == []
  {
    if F.Issues(GateInput(s)) == [] {
      assert GateInput(ExecGate(s)) == GateInput(s);
    } else {
      FallbackLetThrough(s);
    }
  }

  lemma GateIsTheOnlyWay(c: Config, s: State, w: World, canSee: bool)
    requires !c.node.FaithfulnessGate? && !c.node.Propose?
    ensures !PastGate(Moved(c, s, w, canSee).node)
  {
  }

  lemma GateGated(c: Config, s: State, w: World, canSee: bool)
    requires c.node.FaithfulnessGate? && (s.faithfulnessOk ==> F.Issues(GateInput(s)) == [])
    ensures Gated(Moved(c, s, w, canSee))
  {
  }

  lemma ProposeGated(c: Config, w: World, canSee: bool)
    requires c.node.Propose? && Gated(c)
    ensures Gated(Moved(c, c.s, w, canSee))
  {
  }

  lemma StepGated(c: Config, w: World, canSee: bool)
    requires Gated(c)
    ensures Gated(Step(c, w, canSee))
  {
    match c.node
    case FaithfulnessGate =>
      if ExecGate(c.s).faithfulnessOk { GateLetsThrough(c.s); }
      GateGated(c, ExecGate(c.s), w, canSee);
    case Propose => ProposeGated(c, w, canSee);
    case _ => GateIsTheOnlyWay(c, Exec(c.node, c.s, w), w, canSee);
  }

  lemma StepInv(c: Config, w: World, canSee: bool)
    requires Sound(c)
    ensures Sound(Step(c, w, canSee))
  {
    match c.node
    case Ingest => IngestInv(c, w, canSee);
    case RetrieveDocs => RetrieveInv(c, w, canSee);
    case MaybeVision => VisionInv(c, w, canSee);
    case BindToClause => BindInv(c, w, canSee);
    case RewriteQuery => RewriteInv(c, w, canSee);
    case ClassifyEvidence => ModelInv(c, w, canSee);
    case DraftRationale => ModelInv(c, w, canSee);
    case FaithfulnessGate => GateInv(c, F.Issues(GateInput(c.s)), w, canSee);
    case Hitl => HitlInv(c, w, canSee);
    case _ => IdleInv(c, w, canSee);
  }

  lemma StepClear(c: Config, w: World, canSee: bool)
    requires Clear(c)
    ensures Clear(Step(c, w, canSee))
  {
    match c.node
    case RetrieveDocs => MergedMeaning(c.s.hits, FoundBy(c.s, w));
    case _ =>
  }

  lemma RestartInv(c: Config, next: Config)
    requires Sound(c) && Restarts(c, next)
    ensures Sound(next) && Gated(next)
  {
  }

  lemma {:induction false} ThreadInv(cs: seq<Config>, ws: seq<World>, canSee: bool, i: nat)
    requires IsThread(cs, ws, canSee) && i < |cs|
    ensures Sound(cs[i]) && Gated(cs[i])
  {
    if i > 0 {
      ThreadInv(cs, ws, canSee, i - 1);
      assert Follows(cs[i - 1], ws[i - 1], canSee, cs[i - 1 + 1]);
      if Restarts(cs[i - 1], cs[i]) {
        RestartInv(cs[i - 1], cs[i]);
      } else {
        StepInv(cs[i - 1], ws[i - 1], canSee);
        StepGated(cs[i - 1], ws[i - 1], canSee);
      }
    }
  }

  /** Without a restart no hit is excluded. */
  lemma {:induction false} StaysClear(cs: seq<Config>, ws: seq<World>, canSee: bool, i: nat, j: nat)
    requires GoesOn(cs, ws, canSee, i, j) && Clear(cs[i])
    ensures Clear(cs[j])
  {
    if i < j {
      StaysClear(cs, ws, canSee, i, j - 1);
      StepClear(cs[j - 1], ws[j - 1], canSee);
      assert cs[j - 1 + 1] == Step(cs[j - 1], ws[j - 1], canSee);
    }
  }

  // ---------- main results ----------

  /** Whatever the model answers, a proposal is faithful: every section it refers to in its own words is the section
      of a cited hit, a defect cites something, and everything cited was retrieved. */
  lemma FaithfulProposals(cs: seq<Config>, ws: seq<World>, canSee: bool, i: nat)
    requires IsThread(cs, ws, canSee) && i < |cs| && cs[i].node == Propose
    ensures F.Faithful(GateInput(cs[i].s))
    ensures AllAmong(cs[i].s.chunkIds, cs[i].s.hits)
    ensures cs[i].s.proposedClass == Some(F.DefectCandidate) ==> cs[i].s.chunkIds != []
  {
    ThreadInv(cs, ws, canSee, i);
    F.NoIssuesMeansFaithful(GateInput(cs[i].s));
  }

  /** The whole draft of a proposal, quotations included, refers only to sections cited or named by the remark, if no cut
      hid a reference, as none does when the remark is safe to quote. */
  lemma ProposalsAreSupported(cs: seq<Config>, ws: seq<World>, canSee: bool, i: nat)
    requires IsThread(cs, ws, canSee) && i < |cs| && cs[i].node == Propose
    requires var input := GateInput(cs[i].s);
             Q.NothingHidden(input.rationale, input.remarkText) || Q.SafeToQuote(input.remarkText)
    ensures Q.AllSupported(GateInput(cs[i].s))
  {
    var input := GateInput(cs[i].s);
    ThreadInv(cs, ws, canSee, i);
    Q.GateProtectsIff(input.rationale, input.remarkText);
    if Q.SafeToQuote(input.remarkText) { Q.SafeProtects(input.remarkText); }
    assert Q.Draft(input, input.rationale, input.remarkText);
  }

  /** In every state of every run: the hits are distinct, best first, and their scores are those of the best hits of
      everything retrieved since the last reset. */
  lemma HitsAreTheBest(cs: seq<Config>, ws: seq<World>, canSee: bool, i: nat)
    requires IsThread(cs, ws, canSee) && i < |cs|
    ensures TopOf(cs[i].s.hits, Flatten(cs[i].rounds))
    ensures Scores(cs[i].s.hits) == Scores(Merged([], Flatten(cs[i].rounds)))
  {
    ThreadInv(cs, ws, canSee, i);
    IncrementalEqualsBatch(cs[i].rounds);
  }

  // ---------- termination ----------

  /** Node executions from here until the graph waits for the human, that wait included; a run that is over has none. */
  function Remaining(c: Config, canSee: bool): nat
    requires c.s.rewriteCount <= MAX_REWRITES && c.s.bindLoops <= MAX_BIND_LOOPS
  {
    var loops := 4 * (MAX_BIND_LOOPS - c.s.bindLoops) + 3 * (MAX_REWRITES - c.s.rewriteCount);
    var look := if c.node == Ingest || FrameUnseen(c.s, canSee) then 1 else 0;
    match c.node
    case Ingest => 8 + look + loops
    case RetrieveDocs => 7 + look + loops
    case MaybeVision => 6 + look + loops
    case BindToClause => 6 + look + loops
    case RewriteQuery => 5 + look + loops
    case ClassifyEvidence => 5 + look + loops
    case DraftRationale => 4 + look + loops
    case FaithfulnessGate => 3 + look + loops
    case Propose => 2
    case Hitl => 1
    case Persist => 1
    case Pause => 1
    case End => 0
  }

  /** The vision node is entered only to look at a frame nobody looked at. */
  ghost predicate LooksOnce(c: Config, canSee: bool) {
    c.node == MaybeVision ==> FrameUnseen(c.s, canSee)
  }

  lemma MoveCountsDown(c: Config, s: State, w: World, canSee: bool)
    requires Sound(c) && LooksOnce(c, canSee) && Before(c.node) && c.node != FaithfulnessGate
    requires s.bindLoops == c.s.bindLoops
    requires s.rewriteCount == (if c.node == RewriteQuery then c.s.rewriteCount + 1 else c.s.rewriteCount)
    requires if c.node == MaybeVision then s.visionFacts.Some?
             else c.node != Ingest ==> FrameUnseen(s, canSee) == FrameUnseen(c.s, canSee)
    ensures Remaining(Moved(c, s, w, canSee), canSee) < Remaining(c, canSee)
  {
  }

  predicate Before(node: Node) {
    !PastGate(node) && !node.Persist? && !node.Pause? && !node.End?
  }

  lemma GateMoveCounts(c: Config, s: State, w: World, canSee: bool)
    requires c.s.rewriteCount <= MAX_REWRITES && c.s.bindLoops <= s.bindLoops <= MAX_BIND_LOOPS && c.node == FaithfulnessGate
    requires s.rewriteCount == c.s.rewriteCount && FrameUnseen(s, canSee) == FrameUnseen(c.s, canSee)
    requires s.faithfulnessOk || s.bindLoops == c.s.bindLoops + 1
    ensures Remaining(Moved(c, s, w, canSee), canSee) < Remaining(c, canSee)
  {
  }

  lemma GateCountsDown(c: Config, issues: seq<F.Issue>, w: World, canSee: bool)
    requires Sound(c) && c.node == FaithfulnessGate
    requires Sound(Moved(c, AfterCheck(c.s, issues), w, canSee))
    ensures Remaining(Moved(c, AfterCheck(c.s, issues), w, canSee), canSee) < Remaining(c, canSee)
  {
    var s := AfterCheck(c.s, issues);
    assert FrameUnseen(s, canSee) == FrameUnseen(c.s, canSee);
    assert s.faithfulnessOk || s.bindLoops == c.s.bindLoops + 1;
    GateMoveCounts(c, s, w, canSee);
  }

  lemma SearchCountsDown(c: Config, w: World, canSee: bool, next: Config)
    requires Sound(c) && LooksOnce(c, canSee) && (c.node == Ingest || c.node == RetrieveDocs || c.node == MaybeVision)
    requires next == Step(c, w, canSee) && Sound(next)
    ensures Remaining(next, canSee) < Remaining(c, canSee)
  {
    match c.node
    case Ingest => MoveCountsDown(c, ExecIngest(c.s, w), w, canSee);
    case RetrieveDocs => MoveCountsDown(c, ExecRetrieve(c.s, w), w, canSee);
    case MaybeVision => MoveCountsDown(c, ExecVision(c.s, w), w, canSee);
  }

  lemma BindCountsDown(c: Config, w: World, canSee: bool, next: Config)
    requires Sound(c) && (c.node == BindToClause || c.node == RewriteQuery)
    requires next == Step(c, w, canSee) && Sound(next)
    ensures Remaining(next, canSee) < Remaining(c, canSee)
  {
    match c.node
    case BindToClause => MoveCountsDown(c, ExecBind(c.s), w, canSee);
    case RewriteQuery => MoveCountsDown(c, ExecRewrite(c.s, w), w, canSee);
  }

  lemma ModelCountsDown(c: Config, w: World, canSee: bool, next: Config)
    requires Sound(c) && (c.node == ClassifyEvidence || c.node == DraftRationale)
    requires next == Step(c, w, canSee) && Sound(next)
    ensures Remaining(next, canSee) < Remaining(c, canSee)
  {
    match c.node
    case ClassifyEvidence => MoveCountsDown(c, ExecClassify(c.s, w), w, canSee);
    case DraftRationale => MoveCountsDown(c, ExecDraft(c.s, w), w, canSee);
  }

  lemma EndCountsDown(c: Config, w: World, canSee: bool, next: Config)
    requires Sound(c) && (c.node == Propose || c.node == Persist || c.node == Pause)
    requires next == Step(c, w, canSee) && Sound(next)
    ensures Remaining(next, canSee) < Remaining(c, canSee)
  {
  }

  /** Every node that is not the wait for the human uses up one of the remaining executions. */
  lemma StepCountsDown(c: Config, w: World, canSee: bool)
    requires Sound(c) && LooksOnce(c, canSee) && c.node != Hitl && c.node != End
    ensures Sound(Step(c, w, canSee))
    ensures Remaining(Step(c, w, canSee), canSee) < Remaining(c, canSee)
  {
    StepInv(c, w, canSee);
    var next := Step(c, w, canSee);
    match c.node
    case FaithfulnessGate => GateCountsDown(c, F.Issues(GateInput(c.s)), w, canSee);
    case Ingest => SearchCountsDown(c, w, canSee, next);
    case RetrieveDocs => SearchCountsDown(c, w, canSee, next);
    case MaybeVision => SearchCountsDown(c, w, canSee, next);
    case BindToClause => BindCountsDown(c, w, canSee, next);
    case RewriteQuery => BindCountsDown(c, w, canSee, next);
    case ClassifyEvidence => ModelCountsDown(c, w, canSee, next);
    case DraftRationale => ModelCountsDown(c, w, canSee, next);
    case _ => EndCountsDown(c, w, canSee, next);
  }

  lemma EntersVisionToLook(c: Config, w: World, canSee: bool, next: Config)
    requires Follows(c, w, canSee, next)
    ensures LooksOnce(next, canSee)
  {
  }

  lemma LooksOnceAt(cs: seq<Config>, ws: seq<World>, canSee: bool, i: nat)
    requires IsThread(cs, ws, canSee) && i < |cs|
    ensures LooksOnce(cs[i], canSee)
  {
    if i > 0 {
      assert Follows(cs[i - 1], ws[i - 1], canSee, cs[i - 1 + 1]);
      EntersVisionToLook(cs[i - 1], ws[i - 1], canSee, cs[i]);
    }
  }

  /** Nodes `from` to `to` ran in one call of the graph: without a wait or a new start in between. */
  ghost predicate Uninterrupted(cs: seq<Config>, ws: seq<World>, canSee: bool, from: nat, to: nat) {
    GoesOn(cs, ws, canSee, from, to) && forall k :: from <= k < to ==> cs[k].node != Hitl && cs[k].node != End
  }

  lemma {:induction false} SegmentCountsDown(cs: seq<Config>, ws: seq<World>, canSee: bool, from: nat, to: nat)
    requires IsThread(cs, ws, canSee) && Uninterrupted(cs, ws, canSee, from, to)
    ensures Sound(cs[from]) && Sound(cs[to])
    ensures Remaining(cs[from], canSee) >= to - from + Remaining(cs[to], canSee)
  {
    ThreadInv(cs, ws, canSee, to);
    if from < to {
      SegmentCountsDown(cs, ws, canSee, from, to - 1);
      LooksOnceAt(cs, ws, canSee, to - 1);
      CountsDownAt(cs, ws, canSee, to - 1);
    }
  }

  lemma CountsDownAt(cs: seq<Config>, ws: seq<World>, canSee: bool, i: nat)
    requires GoesOn(cs, ws, canSee, i, i + 1) && Sound(cs[i]) && LooksOnce(cs[i], canSee)
    requires cs[i].node != Hitl && cs[i].node != End
    ensures Sound(cs[i + 1]) && Remaining(cs[i + 1], canSee) < Remaining(cs[i], canSee)
  {
    StepCountsDown(cs[i], ws[i], canSee);
  }

  const INVOCATION_LIMIT: nat := 23

  /** However often the graph looped before, a new start leaves it no more. */
  lemma AtStart(c: Config, canSee: bool)
    requires Sound(c) && c.node == Ingest
    ensures Remaining(c, canSee) <= INVOCATION_LIMIT
  {
  }

  /** A rejection leads back to the search with the counters reset. */
  lemma AfterRejection(c: Config, w: World, canSee: bool, s: State)
    requires Rejects(c, w) && s == ExecHitl(c.s, w)
    ensures var next := Moved(c, s, w, canSee); next.node == RetrieveDocs && next.s.rewriteCount == next.s.bindLoops == 0
  {
  }

  lemma AfterDecision(c: Config, w: World, canSee: bool, s: State)
    requires c.node == Hitl && !Rejects(c, w) && s == ExecHitl(c.s, w)
    ensures var next := Moved(c, s, w, canSee);
            && (next.node == Persist || next.node == Pause || next.node == End)
            && next.s.rewriteCount == c.s.rewriteCount && next.s.bindLoops == c.s.bindLoops
  {
  }

  lemma SearchAgain(c: Config, canSee: bool)
    requires c.node == RetrieveDocs && c.s.rewriteCount == c.s.bindLoops == 0
    ensures Remaining(c, canSee) < INVOCATION_LIMIT
  {
  }

  lemma AfterWait(c: Config, w: World, canSee: bool)
    requires Sound(c) && c.node == Hitl
    ensures var next := Step(c, w, canSee);
            next.s.rewriteCount <= MAX_REWRITES && next.s.bindLoops <= MAX_BIND_LOOPS && Remaining(next, canSee) < INVOCATION_LIMIT
  {
    var next := Moved(c, ExecHitl(c.s, w), w, canSee);
    if Rejects(c, w) {
      AfterRejection(c, w, canSee, ExecHitl(c.s, w));
      SearchAgain(next, canSee);
    } else {
      AfterDecision(c, w, canSee, ExecHitl(c.s, w));
    }
  }

  /** One call of the graph runs at most 23 nodes: from a start of the thread, the first or a later one, up to the first wait
      or the end... */
  lemma FirstInvocationIsBounded(cs: seq<Config>, ws: seq<World>, canSee: bool, from: nat, to: nat)
    requires IsThread(cs, ws, canSee) && Uninterrupted(cs, ws, canSee, from, to)
    requires cs[from].node == Ingest && cs[to].node != End
    ensures to - from + 1 <= INVOCATION_LIMIT
  {
    SegmentCountsDown(cs, ws, canSee, from, to);
    AtStart(cs[from], canSee);
    RunningCounts(cs[to], canSee);
  }

  /** ... and from a resumed wait up to the next one. The recursion limit it is called with is 80. */
  lemma ResumedInvocationIsBounded(cs: seq<Config>, ws: seq<World>, canSee: bool, from: nat, to: nat)
    requires IsThread(cs, ws, canSee) && from < to < |cs| && cs[to].node != End
    requires cs[from].node == Hitl && GoesOn(cs, ws, canSee, from, to) && Uninterrupted(cs, ws, canSee, from + 1, to)
    ensures to - from + 1 <= INVOCATION_LIMIT
  {
    SegmentCountsDown(cs, ws, canSee, from + 1, to);
    assert GoesOn(cs, ws, canSee, from, from + 1);
    ResumedAt(cs, ws, canSee, from);
    RunningCounts(cs[to], canSee);
  }

  lemma ResumedAt(cs: seq<Config>, ws: seq<World>, canSee: bool, i: nat)
    requires IsThread(cs, ws, canSee) && GoesOn(cs, ws, canSee, i, i + 1) && cs[i].node == Hitl
    ensures cs[i + 1].s.rewriteCount <= MAX_REWRITES && cs[i + 1].s.bindLoops <= MAX_BIND_LOOPS
    ensures Remaining(cs[i + 1], canSee) < INVOCATION_LIMIT
  {
    ThreadInv(cs, ws, canSee, i);
    AfterWait(cs[i], ws[i], canSee);
  }

  lemma RunningCounts(c: Config, canSee: bool)
    requires c.s.rewriteCount <= MAX_REWRITES && c.s.bindLoops <= MAX_BIND_LOOPS && c.node != End
    ensures Remaining(c, canSee) >= 1
  {
  }

  // The bound is reached: a screenshot, nothing found, and a model that insists on a defect it cannot cite.

  const WORST := World(
    Facts("", None, None, Some("frame.png"), []), [], "", [], None, "", F.DefectCandidate, [], None, "", "", Accept)

  datatype Place = Place(node: Node, rewrites: nat, loops: nat, seen: bool)

  function NextPlace(p: Place): Place {
    match p.node
    case Ingest => p.(node := RetrieveDocs)
    case RetrieveDocs => p.(node := if p.seen then BindToClause else MaybeVision)
    case MaybeVision => p.(node := BindToClause, seen := true)
    case BindToClause => p.(node := if p.rewrites < 2 then RewriteQuery else ClassifyEvidence)
    case RewriteQuery => p.(node := RetrieveDocs, rewrites := p.rewrites + 1)
    case ClassifyEvidence => p.(node := DraftRationale)
    case DraftRationale => p.(node := FaithfulnessGate)
    case FaithfulnessGate => if p.loops < 2 then p.(node := BindToClause, loops := p.loops + 1) else p.(node := Propose)
    case _ => p.(node := Hitl)
  }

  function PlaceAfter(n: nat): Place {
    if n == 0 then Place(Ingest, 0, 0, false) else NextPlace(PlaceAfter(n - 1))
  }

  predicate IsAt(c: Config, p: Place) {
    && c.node == p.node
    && (Before(p.node) ==>
          && c.s.rewriteCount == p.rewrites && c.s.bindLoops == p.loops && p.loops <= 2
          && c.s.hits == [] && c.s.humanComment == None
          && c.s.visionFacts == (if p.seen then Some("") else None)
          && (p.node != Ingest ==> c.s.facts == Some(WORST.facts))
          && (PastClassification(p.node) ==> c.s.proposedClass == Some(F.DefectCandidate) && c.s.chunkIds == [])
          && (PastRetrieval(p.node) ==> c.s.retrievedChunkIds == []))
  }

  lemma WorstRetrieve(s: State)
    requires s.hits == []
    ensures ExecRetrieve(s, WORST).hits == []
  {
    assert FoundBy(s, WORST) == [];
    assert [] + FoundBy(s, WORST) == [];
  }

  lemma DefectStepsBack(s: State)
    requires s.proposedClass == Some(F.DefectCandidate) && s.chunkIds == []
    ensures F.Issues(GateInput(s)) != []
  {
    F.NoIssuesMeansFaithful(GateInput(s));
  }

  lemma WorstStep(c: Config, p: Place)
    requires IsAt(c, p) && Before(p.node) && p.node != FaithfulnessGate && p.node != RetrieveDocs
    ensures IsAt(Step(c, WORST, true), NextPlace(p))
  {
  }

  lemma WorstGate(c: Config, p: Place, issues: seq<F.Issue>)
    requires IsAt(c, p) && p.node == FaithfulnessGate && issues != []
    ensures IsAt(Moved(c, AfterCheck(c.s, issues), WORST, true), NextPlace(p))
  {
  }

  lemma WorstSearch(c: Config, p: Place, s: State)
    requires IsAt(c, p) && p.node == RetrieveDocs && s == ExecRetrieve(c.s, WORST)
    ensures IsAt(Moved(c, s, WORST, true), NextPlace(p))
  {
    WorstRetrieve(c.s);
  }

  lemma WorstMove(c: Config, p: Place, after: Config, next: Place)
    requires IsAt(c, p) && Before(p.node) && Walk(c, p, after, next)
    ensures IsAt(after, next)
  {
    if p.node == FaithfulnessGate {
      DefectStepsBack(c.s);
      WorstGate(c, p, F.Issues(GateInput(c.s)));
    } else if p.node == RetrieveDocs {
      WorstSearch(c, p, ExecRetrieve(c.s, WORST));
    } else {
      WorstStep(c, p);
    }
  }

  predicate Walk(c: Config, p: Place, after: Config, next: Place) {
    after == Step(c, WORST, true) && next == NextPlace(p)
  }

  /** Each configuration and place follow from the ones before. */
  ghost predicate Walks(cs: seq<Config>, ps: seq<Place>) {
    && |cs| == |ps|
    && forall k :: 0 < k < |cs| ==> Walk(cs[k - 1], ps[k - 1], cs[k], ps[k])
  }

  lemma {:induction false} PlacesVisited(cs: seq<Config>, ps: seq<Place>, n: nat)
    requires Walks(cs, ps) && n < |cs| && IsAt(cs[0], ps[0])
    requires forall k :: 0 <= k < n ==> Before(ps[k].node)
    ensures IsAt(cs[n], ps[n])
  {
    if n > 0 {
      PlacesVisited(cs, ps, n - 1);
      WorstMove(cs[n - 1], ps[n - 1], cs[n], ps[n]);
    }
  }

  lemma {:induction false} WorstWalk(n: nat) returns (cs: seq<Config>, ps: seq<Place>)
    ensures Walks(cs, ps) && |cs| == n + 1 && cs[0] == Start(None, [])
    ensures forall k: nat :: k <= n ==> ps[k] == PlaceAfter(k)
  {
    if n == 0 {
      cs, ps := [Start(None, [])], [PlaceAfter(0)];
    } else {
      cs, ps := WorstWalk(n - 1);
      cs, ps := cs + [Step(cs[n - 1], WORST, true)], ps + [NextPlace(ps[n - 1])];
    }
  }

  lemma PlacesBefore(k: nat)
    requires k < INVOCATION_LIMIT - 2
    ensures Before(PlaceAfter(k).node) && PlaceAfter(INVOCATION_LIMIT - 2).node == Propose
  {
    assert PlaceAfter(3) == Place(BindToClause, 0, 0, true);
    assert PlaceAfter(6) == Place(BindToClause, 1, 0, true);
    assert PlaceAfter(9) == Place(BindToClause, 2, 0, true);
    assert PlaceAfter(13) == Place(BindToClause, 2, 1, true);
    assert PlaceAfter(17) == Place(BindToClause, 2, 2, true);
    assert PlaceAfter(21) == Place(Propose, 2, 2, true);
  }

  /** A first invocation that executes 23 nodes: it waits at the 23rd and not before. */
  lemma BoundIsReached() returns (cs: seq<Config>, ws: seq<World>)
    ensures IsThread(cs, ws, true) && |cs| == INVOCATION_LIMIT
    ensures Uninterrupted(cs, ws, true, 0, INVOCATION_LIMIT - 1) && cs[INVOCATION_LIMIT - 1].node == Hitl
  {
    var n := INVOCATION_LIMIT - 1;
    var ps;
    cs, ps := WorstWalk(n);
    ws := seq(n, _ => WORST);
    StartsAt(cs[0], ps[0]);
    forall k: nat | k < n
      ensures cs[k + 1] == Step(cs[k], WORST, true) && cs[k].node != Hitl && cs[k].node != End
    {
      assert Walk(cs[k], ps[k], cs[k + 1], ps[k + 1]);
      VisitedOn(cs, ps, k);
    }
    VisitedOn(cs, ps, n - 1);
    AfterPropose(cs[n - 1]);
  }

  lemma StartsAt(c: Config, p: Place)
    requires c == Start(None, []) && p == PlaceAfter(0)
    ensures IsAt(c, p)
  {
  }

  lemma VisitedOn(cs: seq<Config>, ps: seq<Place>, k: nat)
    requires Walks(cs, ps) && |cs| == INVOCATION_LIMIT && IsAt(cs[0], ps[0]) && k < INVOCATION_LIMIT - 1
    requires forall i: nat :: i < INVOCATION_LIMIT ==> ps[i] == PlaceAfter(i)
    ensures cs[k].node != Hitl && cs[k].node != End && (k == INVOCATION_LIMIT - 2 ==> cs[k].node == Propose)
  {
    forall i: nat | i < INVOCATION_LIMIT - 2
      ensures Before(ps[i].node)
    {
      PlacesBefore(i);
    }
    PlacesBefore(0);
    PlacesVisited(cs, ps, k);
  }

  lemma AfterPropose(c: Config)
    requires c.node == Propose
    ensures Step(c, WORST, true).node == Hitl
  {
  }

  // ---------- rejected citations ----------

  ghost predicate Grows(a: seq<ChunkId>, b: seq<ChunkId>) {
    forall id :: id in a ==> id in b
  }

  lemma ExclusionGrowsOnce(c: Config, w: World, canSee: bool)
    ensures Grows(c.s.excludeChunkIds, Step(c, w, canSee).s.excludeChunkIds)
    ensures Rejects(c, w) ==> Grows(c.s.chunkIds, Step(c, w, canSee).s.excludeChunkIds)
  {
    assert Step(c, w, canSee).s == Exec(c.node, c.s, w);
    if c.node.Hitl? {
      HitlExcludes(c.s, w);
    } else {
      NodeExcludes(c.node, c.s, w);
    }
  }

  lemma HitlExcludes(s: State, w: World)
    ensures Grows(s.excludeChunkIds, ExecHitl(s, w).excludeChunkIds)
    ensures w.decision.RejectBinding? ==> Grows(s.chunkIds, ExecHitl(s, w).excludeChunkIds)
  {
  }

  lemma NodeExcludes(node: Node, s: State, w: World)
    requires !node.Hitl?
    ensures Grows(s.excludeChunkIds, Exec(node, s, w).excludeChunkIds)
  {
  }

  lemma GrowsOn(a: seq<ChunkId>, b: seq<ChunkId>, c: seq<ChunkId>)
    requires Grows(a, b) && Grows(b, c)
    ensures Grows(a, c)
  {
  }

  lemma ExclusionGrowsAt(cs: seq<Config>, ws: seq<World>, canSee: bool, i: nat)
    requires GoesOn(cs, ws, canSee, i, i + 1)
    ensures Grows(cs[i].s.excludeChunkIds, cs[i + 1].s.excludeChunkIds)
    ensures Rejects(cs[i], ws[i]) ==> Grows(cs[i].s.chunkIds, cs[i + 1].s.excludeChunkIds) && Clear(cs[i + 1])
  {
    ExclusionGrowsOnce(cs[i], ws[i], canSee);
  }

  /** Excluded chunks stay excluded until the thread is started over. */
  lemma {:induction false} ExclusionGrows(cs: seq<Config>, ws: seq<World>, canSee: bool, i: nat, j: nat)
    requires GoesOn(cs, ws, canSee, i, j)
    ensures Grows(cs[i].s.excludeChunkIds, cs[j].s.excludeChunkIds)
  {
    if i < j {
      ExclusionGrows(cs, ws, canSee, i, j - 1);
      ExclusionGrowsAt(cs, ws, canSee, j - 1);
      GrowsOn(cs[i].s.excludeChunkIds, cs[j - 1].s.excludeChunkIds, cs[j].s.excludeChunkIds);
    }
  }

  /** Once the human rejected a proposal's citations, no later state finds one of them again and no later proposal
      cites one of them, until the thread is started over. */
  lemma RejectedNeverReturn(cs: seq<Config>, ws: seq<World>, canSee: bool, i: nat, j: nat)
    requires IsThread(cs, ws, canSee) && i < j && GoesOn(cs, ws, canSee, i, j) && Rejects(cs[i], ws[i])
    ensures Disjoint(cs[j].s.hits, cs[i].s.chunkIds)
    ensures cs[j].node == Propose ==> forall id :: id in cs[j].s.chunkIds ==> id !in cs[i].s.chunkIds
  {
    ThreadInv(cs, ws, canSee, j);
    ExclusionGrowsAt(cs, ws, canSee, i);
    ExclusionGrows(cs, ws, canSee, i + 1, j);
    StaysClear(cs, ws, canSee, i + 1, j);
    GrowsOn(cs[i].s.chunkIds, cs[i + 1].s.excludeChunkIds, cs[j].s.excludeChunkIds);
  }

  // ---------- how often citations can be rejected ----------

  ghost function ExcludedOf(c: Config, project: set<ChunkId>): set<ChunkId> {
    set id | id in project && id in c.s.excludeChunkIds
  }

  ghost predicate HitsInProject(c: Config, project: set<ChunkId>) {
    forall h :: h in c.s.hits ==> h.chunkId in project
  }

  lemma StepStaysInProject(c: Config, w: World, canSee: bool, project: set<ChunkId>)
    requires HitsInProject(c, project) && InProject(w, project)
    ensures HitsInProject(Step(c, w, canSee), project)
  {
    if c.node == RetrieveDocs {
      MergedMeaning(c.s.hits, FoundBy(c.s, w));
    }
  }

  lemma RejectionExcludesMore(c: Config, w: World, canSee: bool, project: set<ChunkId>)
    requires Sound(c) && Clear(c) && HitsInProject(c, project)
    ensures |ExcludedOf(Step(c, w, canSee), project)| - |ExcludedOf(c, project)|
         >= Step(c, w, canSee).rejections - c.rejections
  {
    var was, now := ExcludedOf(c, project), ExcludedOf(Step(c, w, canSee), project);
    ExclusionGrowsOnce(c, w, canSee);
    Subset(was, now);
    if Rejects(c, w) && c.s.chunkIds != [] {
      var id := c.s.chunkIds[0];
      assert id in c.s.chunkIds && id in Ids(c.s.hits);
      var h :| h in c.s.hits && h.chunkId == id;
      assert id in now && id !in was;
    }
  }

  lemma {:induction false} RejectionsExclude(cs: seq<Config>, ws: seq<World>, canSee: bool, project: set<ChunkId>, i: nat)
    requires IsThread(cs, ws, canSee) && i < |cs| && GoesOn(cs, ws, canSee, 0, i)
    requires forall k :: 0 <= k < |ws| ==> InProject(ws[k], project)
    ensures HitsInProject(cs[i], project) && Clear(cs[i])
    ensures cs[i].rejections <= |ExcludedOf(cs[i], project)|
  {
    if i > 0 {
      RejectionsExclude(cs, ws, canSee, project, i - 1);
      ThreadInv(cs, ws, canSee, i - 1);
      RejectionCounted(cs, ws, canSee, project, i - 1);
    }
  }

  lemma RejectionCounted(cs: seq<Config>, ws: seq<World>, canSee: bool, project: set<ChunkId>, i: nat)
    requires GoesOn(cs, ws, canSee, i, i + 1) && InProject(ws[i], project)
    requires Sound(cs[i]) && Clear(cs[i]) && HitsInProject(cs[i], project)
    ensures HitsInProject(cs[i + 1], project) && Clear(cs[i + 1])
    ensures |ExcludedOf(cs[i + 1], project)| - |ExcludedOf(cs[i], project)| >= cs[i + 1].rejections - cs[i].rejections
  {
    StepStaysInProject(cs[i], ws[i], canSee, project);
    RejectionExcludesMore(cs[i], ws[i], canSee, project);
    StepClear(cs[i], ws[i], canSee);
  }

  /** Proposals with citations can be rejected at most once per chunk of the project, while a thread is not started over. */
  lemma RejectionsAreBounded(cs: seq<Config>, ws: seq<World>, canSee: bool, project: set<ChunkId>, i: nat)
    requires IsThread(cs, ws, canSee) && i < |cs| && GoesOn(cs, ws, canSee, 0, i)
    requires forall k :: 0 <= k < |ws| ==> InProject(ws[k], project)
    ensures cs[i].rejections <= |project|
  {
    RejectionsExclude(cs, ws, canSee, project, i);
    Subset(ExcludedOf(cs[i], project), project);
  }

  // ---------- a thread that is started again ----------

  /** The state right after the first retrieval of a thread started over. */
  function FirstHits(left: Config, humanComment: Option<string>, excludeChunkIds: seq<ChunkId>, w: World, results: World, canSee: bool): Config {
    Step(Step(StartOver(left, humanComment, excludeChunkIds), w, canSee), results, canSee)
  }

  /** Rejected citations stay out of the hits whatever the search finds if and only if none of them was among the
      hits the old run left behind. */
  lemma StartedOverExcludes(left: Config, humanComment: Option<string>, excludeChunkIds: seq<ChunkId>, w: World, canSee: bool)
    requires Distinct(left.s.hits) && BestFirst(left.s.hits) && |left.s.hits| <= KEEP
    ensures (forall results: World :: Clear(FirstHits(left, humanComment, excludeChunkIds, w, results, canSee)))
       <==> Disjoint(left.s.hits, ExecIngest(StartOver(left, humanComment, excludeChunkIds).s, w).excludeChunkIds)
  {
    var hits, exclude := left.s.hits, ExecIngest(StartOver(left, humanComment, excludeChunkIds).s, w).excludeChunkIds;
    if Disjoint(hits, exclude) {
      forall results: World
        ensures Clear(FirstHits(left, humanComment, excludeChunkIds, w, results, canSee))
      {
        MergedMeaning(hits, Admitted(results.results, set id | id in exclude));
      }
    } else {
      var results := w.(results := []);
      MergingNothing(hits);
      assert !Clear(FirstHits(left, humanComment, excludeChunkIds, w, results, canSee));
    }
  }

  lemma MergingNothing(hits: seq<Hit>)
    requires Distinct(hits) && BestFirst(hits) && |hits| <= KEEP
    ensures forall h :: h in Merged(hits, []) <==> h in hits
  {
    assert hits + [] == hits;
    MergeDistinct(hits);
  }

  lemma {:induction false} MergeDistinct(hits: seq<Hit>)
    requires Distinct(hits)
    ensures MergeAll(hits) == hits
  {
    if hits != [] {
      var rest := hits[..|hits| - 1];
      MergeDistinct(rest);
      assert IndexOf(rest, hits[|hits| - 1].chunkId) == |rest|;
      assert hits == rest + [hits[|hits| - 1]];
    }
  }
}
