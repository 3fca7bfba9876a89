/** What the graph looks for, what it binds to, and what it lays before the human (agent/triage.graph.ts), in every thread. */
module TriageProposals {
  import opened Prelude
  import opened Retrieval
  import opened TriageGraph
  import F = Faithfulness
  import G = GateTexts
  import T = Text

  /** The state behind the start of a thread comes from the one before: by a step, unless the thread was started over. */
  lemma StepBefore(cs: seq<Config>, ws: seq<World>, canSee: bool, i: nat)
    requires IsThread(cs, ws, canSee) && 0 < i < |cs| && cs[i].node != Ingest
    ensures cs[i] == Step(cs[i - 1], ws[i - 1], canSee)
  {
    assert Follows(cs[i - 1], ws[i - 1], canSee, cs[i - 1 + 1]);
  }

  lemma BehindStart(cs: seq<Config>, ws: seq<World>, canSee: bool, i: nat)
    requires IsThread(cs, ws, canSee) && i < |cs| && cs[i].node != Ingest
    ensures i > 0
  {
  }

  // ---------- what it binds to ----------

  predicate Commented(s: State) {
    s.humanComment.Some? && s.humanComment.value != ""
  }

  /** There is a hit, and one that is good enough or a human who wants an answer from those there are. */
  predicate Supported(s: State) {
    s.hits != [] && (Commented(s) || exists h :: h in s.hits && h.score >= 0.45)
  }

  ghost predicate BindsTo(s: State, h: Hit) {
    && s.binding == Clause(h.chunkId, h.section, h.score)
    && h in s.hits && forall g :: g in s.hits ==> g.score <= h.score
  }

  lemma BindMeaning(s: State)
    requires BestFirst(s.hits)
    ensures ExecBind(s).binding.Clause? <==> Supported(s)
    ensures Supported(s) ==> BindsTo(ExecBind(s), s.hits[0])
  {
    if s.hits != [] {
      forall h | h in s.hits
        ensures h.score <= s.hits[0].score
      {
        var k :| 0 <= k < |s.hits| && s.hits[k] == h;
      }
    }
  }

  lemma BestFirstAt(cs: seq<Config>, ws: seq<World>, canSee: bool, i: nat)
    requires IsThread(cs, ws, canSee) && i < |cs|
    ensures Distinct(cs[i].s.hits) && BestFirst(cs[i].s.hits)
  {
    HitsAreTheBest(cs, ws, canSee, i);
  }

  lemma OnlyBindLeadsOn(c: Config, w: World, canSee: bool)
    requires Step(c, w, canSee).node == ClassifyEvidence || Step(c, w, canSee).node == RewriteQuery
    ensures c.node == BindToClause && Step(c, w, canSee).s == ExecBind(c.s)
  {
  }

  /** Behind the binding, in every thread: it is a clause if and only if there is a hit, and one of at least 0.45 or a human's
      comment; a clause is a hit that no hit outscores. What an earlier pass bound is gone. */
  lemma BoundIffSupported(cs: seq<Config>, ws: seq<World>, canSee: bool, i: nat)
    requires IsThread(cs, ws, canSee) && i < |cs| && (cs[i].node == ClassifyEvidence || cs[i].node == RewriteQuery)
    ensures cs[i].s.binding.Clause? <==> Supported(cs[i].s)
    ensures Supported(cs[i].s) ==> exists h :: BindsTo(cs[i].s, h)
  {
    BehindStart(cs, ws, canSee, i);
    StepBefore(cs, ws, canSee, i);
    OnlyBindLeadsOn(cs[i - 1], ws[i - 1], canSee);
    BestFirstAt(cs, ws, canSee, i - 1);
    BindMeaning(cs[i - 1].s);
  }

  /** `classify` looks up the bound hit by its chunk. */
  function FoundIn(hits: seq<Hit>, id: ChunkId): Option<Hit> {
    if hits == [] then None else if hits[0].chunkId == id then Some(hits[0]) else FoundIn(hits[1..], id)
  }

  function ToldAsBound(s: State): Option<Hit> {
    if s.binding.Clause? then FoundIn(s.hits, s.binding.chunkId) else None
  }

  lemma {:induction false} FoundFirst(hits: seq<Hit>, h: Hit)
    requires h in hits && Distinct(hits)
    ensures FoundIn(hits, h.chunkId) == Some(h)
  {
    if hits[0].chunkId != h.chunkId {
      assert h in hits[1..];
      FoundFirst(hits[1..], h);
    } else {
      var k :| 0 <= k < |hits| && hits[k] == h;
    }
  }

  /** In every thread the model that classifies is told the best hit, or none if nothing supports an answer. */
  lemma ClassifyIsToldTheBest(cs: seq<Config>, ws: seq<World>, canSee: bool, i: nat)
    requires IsThread(cs, ws, canSee) && i < |cs| && cs[i].node == ClassifyEvidence
    ensures ToldAsBound(cs[i].s).Some? <==> Supported(cs[i].s)
    ensures var h := ToldAsBound(cs[i].s); h.Some? ==> h.value in cs[i].s.hits && forall g :: g in cs[i].s.hits ==> g.score <= h.value.score
  {
    BoundIffSupported(cs, ws, canSee, i);
    if Supported(cs[i].s) {
      var h :| BindsTo(cs[i].s, h);
      BestFirstAt(cs, ws, canSee, i);
      FoundFirst(cs[i].s.hits, h);
    }
  }

  /** The query is rewritten if and only if no hit is good enough, no human commented and it was rewritten less than twice. */
  lemma RewrittenIff(cs: seq<Config>, ws: seq<World>, canSee: bool, i: nat)
    requires IsThread(cs, ws, canSee) && GoesOn(cs, ws, canSee, i, i + 1) && cs[i].node == BindToClause
    ensures cs[i + 1].node == RewriteQuery
            <==> !(exists h :: h in cs[i].s.hits && h.score >= 0.45) && !Commented(cs[i].s) && cs[i].s.rewriteCount < 2
    ensures cs[i + 1].node != RewriteQuery ==> cs[i + 1].node == ClassifyEvidence
  {
    BestFirstAt(cs, ws, canSee, i);
    BindMeaning(cs[i].s);
  }

  // ---------- what it looks for ----------

  /** Two sentences, or the one there is. */
  function Sentences(a: string, b: string): string {
    if a == "" then b else if b == "" then a else a + ". " + b
  }

  function OrNothing(s: Option<string>): string {
    if s.Some? then s.value else ""
  }

  /** All that is known of the remark, and what the human said of the last answer. */
  function AllSaid(facts: Facts, comment: Option<string>): string {
    Sentences(Sentences(Sentences(facts.description, OrNothing(facts.expected)), OrNothing(facts.pageOrScreen)), OrNothing(comment))
  }

  lemma FirstSaid(first: string, s: Option<string>)
    requires first != ""
    ensures T.Join([first] + Words(s), ". ") == Sentences(first, OrNothing(s))
  {
    if Words(s) != [] { assert ([first] + Words(s))[1..] == Words(s); }
  }

  lemma JoinBegins(first: string, rest: seq<string>)
    requires rest != []
    ensures T.Join([first] + rest, ". ") == first + ". " + T.Join(rest, ". ")
  {
    assert ([first] + rest)[1..] == rest;
  }

  lemma SaidBehind(first: string, joined: string, s: Option<string>)
    requires joined != ""
    ensures first + ". " + Sentences(joined, OrNothing(s)) == Sentences(first + ". " + joined, OrNothing(s))
  {
  }

  lemma {:induction false} OneMoreSaid(parts: seq<string>, s: Option<string>)
    requires forall p :: p in parts ==> p != ""
    ensures T.Join(parts + Words(s), ". ") == Sentences(T.Join(parts, ". "), OrNothing(s))
    ensures parts != [] ==> T.Join(parts, ". ") != ""
    decreases |parts|
  {
    if parts == [] {
      assert parts + Words(s) == Words(s);
    } else {
      var first, rest := parts[0], parts[1..];
      assert first in parts && forall p :: p in rest ==> p in parts;
      assert parts == [first] + rest;
      if rest == [] {
        FirstSaid(first, s);
      } else {
        OneMoreSaid(rest, s);
        JoinBegins(first, rest);
        JoinBegins(first, rest + Words(s));
        assert parts + Words(s) == [first] + (rest + Words(s));
        SaidBehind(first, T.Join(rest, ". "), s);
      }
    }
  }

  lemma QueryMeaning(facts: Facts, comment: Option<string>)
    ensures BuildQuery(facts, comment) == AllSaid(facts, comment)
  {
    var d, e, p := Words(Some(facts.description)), Words(facts.expected), Words(facts.pageOrScreen);
    OneMoreSaid([], Some(facts.description));
    assert [] + d == d;
    OneMoreSaid(d, facts.expected);
    OneMoreSaid(d + e, facts.pageOrScreen);
    OneMoreSaid(d + e + p, comment);
  }

  /** In every thread a search is for all that is known of the remark and what the human said, or for what the model made
      of it just before. */
  lemma SearchesFor(cs: seq<Config>, ws: seq<World>, canSee: bool, i: nat)
    requires IsThread(cs, ws, canSee) && 0 < i < |cs| && cs[i].node == RetrieveDocs
    ensures cs[i].s.facts.Some?
    ensures cs[i].s.query == if cs[i - 1].node == RewriteQuery then ws[i - 1].query
                             else AllSaid(cs[i].s.facts.value, cs[i].s.humanComment)
    ensures cs[i - 1].node == Ingest ==> cs[i].s.facts.value == ws[i - 1].facts && cs[i].s.humanComment == cs[i - 1].s.humanComment
    ensures cs[i - 1].node == Hitl ==> ws[i - 1].decision == RejectBinding(OrNothing(cs[i].s.humanComment))
  {
    StepBefore(cs, ws, canSee, i);
    ThreadInv(cs, ws, canSee, i);
    ThreadInv(cs, ws, canSee, i - 1);
    SearchFrom(cs[i - 1], ws[i - 1], canSee);
  }

  lemma SearchFrom(c: Config, w: World, canSee: bool)
    requires Sound(c) && Step(c, w, canSee).node == RetrieveDocs
    ensures var next := Step(c, w, canSee).s;
            && next.facts.Some?
            && next.query == (if c.node == RewriteQuery then w.query else AllSaid(next.facts.value, next.humanComment))
            && (c.node == Ingest ==> next.facts.value == w.facts && next.humanComment == c.s.humanComment)
            && (c.node == Hitl ==> w.decision == RejectBinding(OrNothing(next.humanComment)))
            && (c.node == Ingest || c.node == Hitl || c.node == RewriteQuery)
  {
    QueryMeaning(w.facts, c.s.humanComment);
    if c.s.facts.Some? && w.decision.RejectBinding? { QueryMeaning(c.s.facts.value, Some(w.decision.comment)); }
  }

  /** A search keeps what it finds but for what is excluded. */
  lemma SearchKeeps(cs: seq<Config>, ws: seq<World>, canSee: bool, i: nat)
    requires GoesOn(cs, ws, canSee, i, i + 1) && cs[i].node == RetrieveDocs
    ensures var rounds := cs[i + 1].rounds;
            && rounds != [] && rounds[..|rounds| - 1] == cs[i].rounds
            && forall h :: h in rounds[|rounds| - 1] <==> h in ws[i].results && h.chunkId !in cs[i].s.excludeChunkIds
  {
  }

  // ---------- what it leaves out ----------

  /** The human rejected a proposal that cites this chunk, between these states. */
  ghost predicate RejectedBetween(cs: seq<Config>, ws: seq<World>, id: ChunkId, i: nat, j: nat)
    requires j <= |ws| && |ws| < |cs|
  {
    exists k :: i <= k < j && Rejects(cs[k], ws[k]) && id in cs[k].s.chunkIds
  }

  /** What this step adds to the chunks left out: those of the remark's last proposal if a human commented, and those of a
      proposal that is rejected. */
  ghost predicate Excludes(c: Config, w: World, id: ChunkId) {
    (c.node == Ingest && Commented(c.s) && id in w.facts.citedChunkIds) || (Rejects(c, w) && id in c.s.chunkIds)
  }

  lemma StepExcludes(c: Config, w: World, canSee: bool, id: ChunkId)
    ensures id in Step(c, w, canSee).s.excludeChunkIds <==> id in c.s.excludeChunkIds || Excludes(c, w, id)
  {
    if c.node == Hitl { assert Step(c, w, canSee).s == ExecHitl(c.s, w); }
  }

  lemma ExcludedOnce(cs: seq<Config>, ws: seq<World>, canSee: bool, k: nat, id: ChunkId)
    requires GoesOn(cs, ws, canSee, k, k + 1)
    ensures id in cs[k + 1].s.excludeChunkIds <==> id in cs[k].s.excludeChunkIds || Excludes(cs[k], ws[k], id)
  {
    StepExcludes(cs[k], ws[k], canSee, id);
  }

  predicate Adds(ins: seq<bool>, adds: seq<bool>, k: nat)
    requires k < |adds| && k + 1 < |ins|
  {
    ins[k + 1] <==> ins[k] || adds[k]
  }

  lemma {:induction false} AddedUp(ins: seq<bool>, adds: seq<bool>, i: nat, n: nat)
    requires i <= n <= |adds| && |adds| < |ins| && forall k :: i <= k < n ==> Adds(ins, adds, k)
    ensures ins[n] <==> ins[i] || exists k :: i <= k < n && adds[k]
  {
    if n > i {
      AddedUp(ins, adds, i, n - 1);
      assert Adds(ins, adds, n - 1);
    }
  }

  lemma AddedBetween(cs: seq<Config>, ws: seq<World>, i: nat, j: nat, id: ChunkId, adds: seq<bool>)
    requires i < j <= |ws| && |ws| < |cs| && cs[i].node == Ingest && forall k :: i < k < j ==> cs[k].node != Ingest
    requires |adds| == |ws| && forall k :: i <= k < j ==> (adds[k] <==> Excludes(cs[k], ws[k], id))
    ensures (exists k :: i <= k < j && adds[k])
            <==> (Commented(cs[i].s) && id in ws[i].facts.citedChunkIds) || RejectedBetween(cs, ws, id, i, j)
  {
    if Commented(cs[i].s) && id in ws[i].facts.citedChunkIds { assert adds[i]; }
    if RejectedBetween(cs, ws, id, i, j) {
      var k :| i <= k < j && Rejects(cs[k], ws[k]) && id in cs[k].s.chunkIds;
      assert adds[k];
    }
    if k :| i <= k < j && adds[k] {
      assert Excludes(cs[k], ws[k], id);
    }
  }

  /** Until a thread is started over, exactly these chunks are left out: those it was told to leave out, those of the
      remark's last proposal if it began with a comment, and those of proposals rejected since. */
  lemma ExcludedIff(cs: seq<Config>, ws: seq<World>, canSee: bool, i: nat, j: nat, id: ChunkId)
    requires GoesOn(cs, ws, canSee, i, j) && i < j && cs[i].node == Ingest
    ensures id in cs[j].s.excludeChunkIds
            <==> || id in cs[i].s.excludeChunkIds
                 || (Commented(cs[i].s) && id in ws[i].facts.citedChunkIds)
                 || RejectedBetween(cs, ws, id, i, j)
  {
    forall k | i <= k < j
      ensures ExcludedAt(cs, ws, k, id) && (k > i ==> cs[k].node != Ingest)
    {
      ExcludedThere(cs, ws, canSee, i, j, k, id);
    }
    ExcludedSteps(cs, ws, i, j, id);
  }

  ghost predicate ExcludedAt(cs: seq<Config>, ws: seq<World>, k: nat, id: ChunkId)
    requires k < |ws| && k + 1 < |cs|
  {
    id in cs[k + 1].s.excludeChunkIds <==> id in cs[k].s.excludeChunkIds || Excludes(cs[k], ws[k], id)
  }

  lemma ExcludedThere(cs: seq<Config>, ws: seq<World>, canSee: bool, i: nat, j: nat, k: nat, id: ChunkId)
    requires GoesOn(cs, ws, canSee, i, j) && i <= k < j
    ensures ExcludedAt(cs, ws, k, id) && (k > i ==> cs[k].node != Ingest)
  {
    ExcludedOnce(cs, ws, canSee, k, id);
    if k > i { NoIngestAgain(cs, ws, canSee, i, k); }
  }

  lemma ExcludedSteps(cs: seq<Config>, ws: seq<World>, i: nat, j: nat, id: ChunkId)
    requires i < j <= |ws| && |ws| < |cs| && cs[i].node == Ingest
    requires forall k :: i <= k < j ==> ExcludedAt(cs, ws, k, id) && (k > i ==> cs[k].node != Ingest)
    ensures id in cs[j].s.excludeChunkIds
            <==> || id in cs[i].s.excludeChunkIds
                 || (Commented(cs[i].s) && id in ws[i].facts.citedChunkIds)
                 || RejectedBetween(cs, ws, id, i, j)
  {
    var ins := seq(|cs|, k requires 0 <= k < |cs| => id in cs[k].s.excludeChunkIds);
    var adds := seq(|ws|, k requires 0 <= k < |ws| => Excludes(cs[k], ws[k], id));
    forall k | i <= k < j
      ensures Adds(ins, adds, k)
    {
      assert ExcludedAt(cs, ws, k, id);
    }
    AddedUp(ins, adds, i, j);
    AddedBetween(cs, ws, i, j, id, adds);
  }

  lemma NoIngestAgain(cs: seq<Config>, ws: seq<World>, canSee: bool, i: nat, j: nat)
    requires GoesOn(cs, ws, canSee, i, j) && i < j
    ensures cs[j].node != Ingest
  {
    assert cs[j - 1 + 1] == Step(cs[j - 1], ws[j - 1], canSee);
  }

  // ---------- what it looks at ----------

  lemma SeenKept(node: Node, s: State, w: World)
    requires s.visionFacts.Some?
    ensures Exec(node, s, w).visionFacts.Some?
  {
  }

  lemma SeenStays(c: Config, w: World, canSee: bool)
    requires c.s.visionFacts.Some?
    ensures Step(c, w, canSee).s.visionFacts.Some? && Step(c, w, canSee).node != MaybeVision
  {
    SeenKept(c.node, c.s, w);
  }

  lemma {:induction false} SeenFromThen(cs: seq<Config>, ws: seq<World>, canSee: bool, i: nat, j: nat)
    requires IsThread(cs, ws, canSee) && i < j < |cs| && cs[i].node == MaybeVision && cs[i + 1] == Step(cs[i], ws[i], canSee)
    ensures cs[j].s.visionFacts.Some? && cs[j].node != MaybeVision
    decreases j
  {
    if j > i + 1 {
      SeenFromThen(cs, ws, canSee, i, j - 1);
      assert Follows(cs[j - 1], ws[j - 1], canSee, cs[j - 1 + 1]);
      if cs[j] == Step(cs[j - 1], ws[j - 1], canSee) { SeenStays(cs[j - 1], ws[j - 1], canSee); }
    }
  }

  /** The frame is looked at. */
  ghost predicate Looks(cs: seq<Config>, ws: seq<World>, canSee: bool, i: nat) {
    GoesOn(cs, ws, canSee, i, i + 1) && cs[i].node == MaybeVision
  }

  /** A frame is looked at only if there is one and the model can see; what was seen is kept, and in a whole thread, started
      over or not, none is looked at twice. */
  lemma FrameSeenOnce(cs: seq<Config>, ws: seq<World>, canSee: bool, i: nat, j: nat)
    requires IsThread(cs, ws, canSee) && Looks(cs, ws, canSee, i)
    ensures canSee && cs[i].s.facts.Some? && OrNothing(cs[i].s.facts.value.screenshotKey) != ""
    ensures cs[i + 1].s.visionFacts == Some(OrNothing(ws[i].frameFacts))
    ensures Looks(cs, ws, canSee, j) ==> j == i
  {
    BehindStart(cs, ws, canSee, i);
    StepBefore(cs, ws, canSee, i);
    if Looks(cs, ws, canSee, j) {
      if i < j { SeenFromThen(cs, ws, canSee, i, j); }
      if j < i { SeenFromThen(cs, ws, canSee, j, i); }
    }
  }

  // ---------- what it lays before the human ----------

  /** The number a text of digits stands for. */
  function Reads(digits: string): nat {
    if digits == "" then 0
    else
      var c := digits[|digits| - 1];
      Reads(digits[..|digits| - 1]) * 10 + if T.IsDigit(c) then c as nat - '0' as nat else 0
  }

  lemma {:induction false} DecimalReads(n: nat)
    ensures Reads(Decimal(n)) == n && Decimal(n) != "" && (n > 0 ==> Decimal(n)[0] != '0')
    ensures forall c :: c in Decimal(n) ==> T.IsDigit(c)
  {
    var last := [('0' as int + n % 10) as char];
    if n >= 10 {
      DecimalReads(n / 10);
      assert Decimal(n)[..|Decimal(n)| - 1] == Decimal(n / 10);
    } else {
      assert Decimal(n) == "" + last;
      assert Decimal(n)[..0] == "";
    }
  }

  /** The headline of each class; a duplicate is named by its number if there is one. */
  ghost predicate Says(head: string, c: F.ProposedClass, duplicateOfNumber: Option<nat>) {
    match c
    case DefectCandidate => head == "Похоже, это поломка относительно ТЗ."
    case ChangeRequestCandidate => head == "Похоже, это новое желание."
    case Unspecified => head == "В бумагах нет опоры."
    case CannotTell => head == "Недостаточно данных."
    case Duplicate =>
      if duplicateOfNumber.Some? && duplicateOfNumber.value > 0 then
        exists d :: head == "Похоже на повтор №" + d + "." && d != "" && d[0] != '0' && Reads(d) == duplicateOfNumber.value
      else head == "Похоже на повтор."
  }

  lemma HeadlineSays(c: F.ProposedClass, duplicateOfNumber: Option<nat>)
    ensures Says(Headline(c, duplicateOfNumber), c, duplicateOfNumber)
  {
    if c.Duplicate? && duplicateOfNumber.Some? && duplicateOfNumber.value > 0 {
      DecimalReads(duplicateOfNumber.value);
    }
    var words := F.CANNOT_TELL_HEADLINE;
    assert words[1..] == ["данных."] && words[1..][1..] == [];
    assert F.Concat(words) == "Недостаточно " + ("данных." + "");
  }

  /** The proposal is the model's answer: class, number of the duplicate and reason as it gave them, those of its citations
      that are hits, and its draft under the headline of the class, with a note if the remark tried to instruct it. */
  ghost predicate IsAnswer(s: State, classified: World, drafted: World) {
    && s.proposedClass == Some(classified.proposedClass)
    && s.duplicateOfNumber == classified.duplicateOfNumber && s.reason == classified.reason
    && (forall id :: id in s.chunkIds <==> id in classified.chunkIds && exists h :: h in s.hits && h.chunkId == id)
    && |s.rationale| == (if s.injectionMatches == [] then 2 else 3)
    && Says(s.rationale[0], classified.proposedClass, classified.duplicateOfNumber) && s.rationale[1] == drafted.body
    && (s.injectionMatches != [] ==> s.rationale[2] == drafted.injectionNote)
  }

  /** What the check found, one issue behind the other. */
  function Told(issues: seq<F.Issue>): string {
    T.Join(G.AllSaid(issues), "; ")
  }

  /** The proposal gives up: no class, no citations, and the issues the check found in place of the draft. */
  ghost predicate IsGivenUp(s: State, issues: seq<F.Issue>) {
    && s.proposedClass == Some(F.CannotTell) && s.chunkIds == [] && s.duplicateOfNumber == None
    && s.bindLoops == 2 && issues != [] && s.faithfulnessIssue == Some(Told(issues))
    && |s.rationale| == 2 && Says(s.rationale[0], F.CannotTell, None) && s.rationale[1] == G.InsteadOf(Told(issues))
    && |s.rationale| == 2 && Says(s.rationale[0], F.CannotTell, None)
  }

  lemma OneWayToClassify(c: Config, w: World, canSee: bool)
    ensures Step(c, w, canSee).node == DraftRationale ==> c.node == ClassifyEvidence
    ensures Step(c, w, canSee).node == FaithfulnessGate ==> c.node == DraftRationale
    ensures Step(c, w, canSee).node == Propose ==> c.node == FaithfulnessGate
  {
  }

  lemma ClassifiedAs(s: State, w: World)
    requires s.retrievedChunkIds == Ids(s.hits)
    ensures var c := ExecClassify(s, w);
            && c.proposedClass == Some(w.proposedClass) && c.duplicateOfNumber == w.duplicateOfNumber && c.reason == w.reason
            && c.hits == s.hits && c.bindLoops == s.bindLoops
            && forall id :: id in c.chunkIds <==> id in w.chunkIds && exists h :: h in s.hits && h.chunkId == id
  {
  }

  lemma DraftedAs(s: State, classified: World, w: World)
    requires s.proposedClass == Some(classified.proposedClass) && s.duplicateOfNumber == classified.duplicateOfNumber
    requires s.reason == classified.reason
    requires forall id :: id in s.chunkIds <==> id in classified.chunkIds && exists h :: h in s.hits && h.chunkId == id
    ensures IsAnswer(ExecDraft(s, w), classified, w) && ExecDraft(s, w).bindLoops == s.bindLoops
  {
    HeadlineSays(classified.proposedClass, classified.duplicateOfNumber);
  }

  lemma GateOutcome(s: State, issues: seq<F.Issue>, classified: World, drafted: World)
    requires IsAnswer(s, classified, drafted) && AfterCheck(s, issues).faithfulnessOk && s.bindLoops <= MAX_BIND_LOOPS
    ensures if issues == [] then IsAnswer(AfterCheck(s, issues), classified, drafted) else IsGivenUp(AfterCheck(s, issues), issues)
  {
    HeadlineSays(F.CannotTell, None);
    G.IssuesSaid(issues);
    G.FallbackSaid(issues);
  }

  /** In every thread a proposal is the answer of the model's last pass if the check finds nothing in it, and gives up, naming
      what the check found, if it does. */
  lemma ProposalIsAnswer(cs: seq<Config>, ws: seq<World>, canSee: bool, i: nat)
    requires IsThread(cs, ws, canSee) && i < |cs| && cs[i].node == Propose
    ensures i > 3 && cs[i - 3].node == ClassifyEvidence && cs[i - 2].node == DraftRationale && cs[i - 1].node == FaithfulnessGate
    ensures var issues := F.Issues(GateInput(cs[i - 1].s));
            if issues == [] then IsAnswer(cs[i].s, ws[i - 3], ws[i - 2]) else IsGivenUp(cs[i].s, issues)
  {
    LastPass(cs, ws, canSee, i);
    ThreadInv(cs, ws, canSee, i - 3);
    ClassifiedAs(cs[i - 3].s, ws[i - 3]);
    DraftedAs(cs[i - 2].s, ws[i - 3], ws[i - 2]);
    GateOutcome(cs[i - 1].s, F.Issues(GateInput(cs[i - 1].s)), ws[i - 3], ws[i - 2]);
  }

  lemma LastPass(cs: seq<Config>, ws: seq<World>, canSee: bool, i: nat)
    requires IsThread(cs, ws, canSee) && i < |cs| && cs[i].node == Propose
    ensures i > 3 && cs[i - 3].node == ClassifyEvidence && cs[i - 2].node == DraftRationale && cs[i - 1].node == FaithfulnessGate
    ensures cs[i - 2].s == ExecClassify(cs[i - 3].s, ws[i - 3]) && cs[i - 1].s == ExecDraft(cs[i - 2].s, ws[i - 2])
    ensures cs[i].s == AfterCheck(cs[i - 1].s, F.Issues(GateInput(cs[i - 1].s))) && cs[i].s.faithfulnessOk
  {
    FromGate(cs, ws, canSee, i);
    FromDraft(cs, ws, canSee, i - 1);
    FromClassify(cs, ws, canSee, i - 2);
    BehindStart(cs, ws, canSee, i - 3);
  }

  lemma FromGate(cs: seq<Config>, ws: seq<World>, canSee: bool, i: nat)
    requires IsThread(cs, ws, canSee) && i < |cs| && cs[i].node == Propose
    ensures i > 0 && cs[i - 1].node == FaithfulnessGate && cs[i].s.faithfulnessOk
    ensures cs[i].s == AfterCheck(cs[i - 1].s, F.Issues(GateInput(cs[i - 1].s)))
  {
    BehindStart(cs, ws, canSee, i);
    StepBefore(cs, ws, canSee, i);
    OneWayToClassify(cs[i - 1], ws[i - 1], canSee);
  }

  lemma FromDraft(cs: seq<Config>, ws: seq<World>, canSee: bool, i: nat)
    requires IsThread(cs, ws, canSee) && i < |cs| && cs[i].node == FaithfulnessGate
    ensures i > 0 && cs[i - 1].node == DraftRationale && cs[i].s == ExecDraft(cs[i - 1].s, ws[i - 1])
  {
    BehindStart(cs, ws, canSee, i);
    StepBefore(cs, ws, canSee, i);
    OneWayToClassify(cs[i - 1], ws[i - 1], canSee);
  }

  lemma FromClassify(cs: seq<Config>, ws: seq<World>, canSee: bool, i: nat)
    requires IsThread(cs, ws, canSee) && i < |cs| && cs[i].node == DraftRationale
    ensures i > 0 && cs[i - 1].node == ClassifyEvidence && cs[i].s == ExecClassify(cs[i - 1].s, ws[i - 1])
  {
    BehindStart(cs, ws, canSee, i);
    StepBefore(cs, ws, canSee, i);
    OneWayToClassify(cs[i - 1], ws[i - 1], canSee);
  }

  // ---------- what the check was told ----------

  /** The text the human reads. */
  function TextOf(rationale: seq<string>): string {
    if |rationale| == 2 then rationale[0] + "\n\n" + rationale[1]
    else if |rationale| == 3 then rationale[0] + "\n\n" + rationale[1] + "\n\n" + rationale[2]
    else T.Join(rationale, "\n\n")
  }

  lemma TextJoined(rationale: seq<string>)
    ensures T.Join(rationale, "\n\n") == TextOf(rationale)
  {
    if |rationale| == 2 {
      assert rationale[1..] == [rationale[1]];
    } else if |rationale| == 3 {
      assert rationale[1..] == [rationale[1], rationale[2]] && rationale[1..][1..] == [rationale[2]];
      assert rationale[0] + "\n\n" + (rationale[1] + "\n\n" + rationale[2]) == TextOf(rationale);
    }
  }

  lemma {:induction false} SectionsCited(hits: seq<Hit>, cited: seq<ChunkId>, section: Option<string>)
    ensures section in CitedSections(hits, cited) <==> exists h :: h in hits && h.chunkId in cited && h.section == section
  {
    if hits != [] {
      SectionsCited(hits[1..], cited, section);
      assert hits == [hits[0]] + hits[1..];
    }
  }

  /** A hit the proposal cites has this section. */
  ghost predicate CitesSection(s: State, ref: string) {
    exists h :: h in s.hits && h.chunkId in s.chunkIds && h.section.Some? && ref in F.RefsFrom(h.section.value, 0)
  }

  /** In every thread, of a proposal's text without its quotations of the remark: every section it refers to is the section of
      a hit it cites, and a frame is described only if the remark has one; a defect cites something. */
  lemma ProposalsCite(cs: seq<Config>, ws: seq<World>, canSee: bool, i: nat)
    requires IsThread(cs, ws, canSee) && i < |cs| && cs[i].node == Propose
    ensures cs[i].s.facts.Some?
    ensures var s := cs[i].s; var own := F.OwnText(TextOf(s.rationale), s.facts.value.description);
            && (forall k, ref :: 0 <= k < |own| && F.RefAt(own, k) == Some(ref) ==> CitesSection(s, ref))
            && (F.MentionsFrame(own) ==> OrNothing(s.facts.value.screenshotKey) != "")
            && (s.proposedClass == Some(F.DefectCandidate) ==> s.chunkIds != [])
  {
    var s := cs[i].s;
    ThreadInv(cs, ws, canSee, i);
    FaithfulProposals(cs, ws, canSee, i);
    TextJoined(s.rationale);
    var own := F.OwnText(TextOf(s.rationale), s.facts.value.description);
    forall k, ref | 0 <= k < |own| && F.RefAt(own, k) == Some(ref)
      ensures CitesSection(s, ref)
    {
      assert F.CitedSection(GateInput(s), ref);
      var section :| section in CitedSections(s.hits, s.chunkIds) && section.Some? && ref in F.RefsFrom(section.value, 0);
      SectionsCited(s.hits, s.chunkIds, section);
    }
  }

  // ---------- where it begins, what it is told, where it ends ----------

  /** A thread begins with what it is given; one started over keeps what it has, hits and counters included, but for that. */
  lemma ThreadBegins(comment: Option<string>, exclude: seq<ChunkId>, left: Config)
    ensures var c := Start(comment, exclude);
            && c.node == Ingest && c.s.humanComment == comment && c.s.excludeChunkIds == exclude
            && c.s.hits == [] && c.s.rewriteCount == 0 && c.s.bindLoops == 0 && c.s.visionFacts == None && c.s.facts == None
    ensures var c := StartOver(left, comment, exclude);
            && c.node == Ingest && c.s.humanComment == comment && c.s.excludeChunkIds == exclude
            && c.s.hits == left.s.hits && c.s.rewriteCount == left.s.rewriteCount && c.s.bindLoops == left.s.bindLoops
            && c.s.visionFacts == left.s.visionFacts
  {
  }

  /** In every thread another pass behind the check is told what it found, and there are two such passes at most until a human
      decides. */
  lemma NextPassIsTold(cs: seq<Config>, ws: seq<World>, canSee: bool, i: nat)
    requires IsThread(cs, ws, canSee) && 0 < i < |cs| && cs[i].node == BindToClause && cs[i - 1].node == FaithfulnessGate
    ensures var issues := F.Issues(GateInput(cs[i - 1].s));
            issues != [] && cs[i].s.faithfulnessIssue == Some(Told(issues))
    ensures cs[i].s.bindLoops == cs[i - 1].s.bindLoops + 1 <= 2
  {
    StepBefore(cs, ws, canSee, i);
    ThreadInv(cs, ws, canSee, i);
    AgainTold(cs[i - 1], ws[i - 1], canSee, F.Issues(GateInput(cs[i - 1].s)));
  }

  lemma AgainTold(c: Config, w: World, canSee: bool, issues: seq<F.Issue>)
    requires c.node == FaithfulnessGate && issues == F.Issues(GateInput(c.s)) && Step(c, w, canSee).node == BindToClause
    ensures issues != [] && Step(c, w, canSee).s.faithfulnessIssue == Some(Told(issues))
    ensures Step(c, w, canSee).s.bindLoops == c.s.bindLoops + 1
  {
    assert Step(c, w, canSee).s == AfterCheck(c.s, issues);
    G.IssuesSaid(issues);
  }

  /** What the human decides: an accepted proposal is kept, a rejected one looked for again from the start, a wished frame
      waited for, and a cancelled one left; then the thread is over. */
  lemma HumanDecides(c: Config, w: World, canSee: bool)
    requires c.node == Hitl
    ensures var next := Step(c, w, canSee);
            match w.decision
            case Accept => next.node == Persist && next.s == c.s.(decision := Some(Accept))
            case RequestScreenshot => next.node == Pause && next.s == c.s.(decision := Some(RequestScreenshot))
            case Cancel => next.node == End && next.s == c.s.(decision := Some(Cancel))
            case RejectBinding(comment) =>
              && next.node == RetrieveDocs && next.s.humanComment == Some(comment) && next.s.hits == []
              && next.s.rewriteCount == 0 && next.s.bindLoops == 0 && next.s.faithfulnessIssue == None && next.s.binding == NoBinding
              && next.s.facts == c.s.facts && next.s.visionFacts == c.s.visionFacts && next.s.injectionMatches == w.injectionMatches
  {
    assert Step(c, w, canSee).s == ExecHitl(c.s, w);
  }

  lemma ThreadEnds(c: Config, w: World, canSee: bool)
    ensures Step(c, w, canSee).node == End
            <==> c.node == Persist || c.node == Pause || c.node == End || (c.node == Hitl && w.decision == Cancel)
    ensures c.node == Persist || c.node == Pause || c.node == End ==> Step(c, w, canSee).s == c.s
  {
    if c.node == Hitl { HumanDecides(c, w, canSee); }
  }
}
