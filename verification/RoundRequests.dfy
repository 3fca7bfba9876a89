/** Requests to the rounds of a project whose reading and writing others come between (rounds/rounds.service.ts `close`,
    `openRound` and `createNumbered` in remarks/remarks.service.ts). */
module RoundRequests {
  import opened Prelude
  import opened Rounds
  import R = Remarks

  /** A request that was read: what it saw, and what it is to write. */
  datatype Request = Request(seen: Project, c: Command)

  /** The project and the requests that were read and are not written yet. */
  datatype Shared = Shared(project: Project, open: seq<Request>)

  datatype Step =
    /** A request with nothing between its reading and its writing. */
    | AtOnce(c: Command)
    | Read(c: Command)
    | Write(k: nat)

  /** What the read lets through: the role, an open round, and for a close that nothing in the round is pending. */
  predicate Begins(p: Project, c: Command) {
    match c
    case DoCloseRound(_, round) => Do(p, c).Ok? && !p.rounds[round].closed
    case DoCreateRemark(_, _, _) => Do(p, c).Ok?
    case DoImportRemark(_, _, _, _) => Do(p, c).Ok?
    case DoReopenRemark(_, _, _, _) => Do(p, c).Ok?
    case _ => false
  }

  /** The remark a request adds. */
  function NewOf(c: Command): R.Remark
    requires c.DoCreateRemark? || c.DoImportRemark? || c.DoReopenRemark?
  {
    match c
    case DoCreateRemark(role, _, screenshot) => R.NewRemark(R.Imported, R.Created, role, ShotsOf(screenshot))
    case DoImportRemark(role, _, parsed, screenshot) =>
      R.NewRemark(if parsed then R.Imported else R.NeedsHumanParse, R.ImportedRow, role, ShotsOf(screenshot))
    case DoReopenRemark(role, _, _, screenshot) => R.NewRemark(R.Reopened, R.ReopenedHere, role, ShotsOf(screenshot))
  }

  function ClosedNow(p: Project, role: R.Role, round: RoundId): Project
    requires round < |p.rounds|
  {
    p.(rounds := p.rounds[round := p.rounds[round].(closed := true)], events := p.events + [Event(round, ClosedAgain, role)])
  }

  /** What the request was about is there; it is never gone. */
  predicate CanWrite(p: Project, c: Command) {
    && (c.DoCloseRound? || c.DoCreateRemark? || c.DoImportRemark? || c.DoReopenRemark?) && c.round < |p.rounds|
    && (c.DoReopenRemark? ==> c.k < |p.entries|)
  }

  /** The write: a close checks only that the round is still open, a new remark nothing. */
  function Commit(p: Project, c: Command): Project
    requires CanWrite(p, c)
  {
    match c
    case DoCloseRound(role, round) => if p.rounds[round].closed then p else ClosedNow(p, role, round)
    case DoReopenRemark(role, k, round, _) =>
      var created := WithEntry(p, round, NewOf(c));
      created.(entries := created.entries[k := created.entries[k].(remark := R.Next(p.entries[k].remark, R.DoNoteReopened(role, true)))])
    case _ => WithEntry(p, c.round, NewOf(c))
  }

  // ---------- what was read, later ----------

  ghost predicate EntryLater(seen: Project, p: Project, k: nat)
    requires k < |seen.entries|
  {
    && k < |p.entries| && p.entries[k].round == seen.entries[k].round
    && (!Pending(seen.entries[k]) ==> p.entries[k].remark.status == seen.entries[k].remark.status)
  }

  /** Rounds and remarks are only added, and what was decided stays as it was decided. */
  ghost predicate Later(seen: Project, p: Project) {
    |seen.rounds| <= |p.rounds| && forall k :: 0 <= k < |seen.entries| ==> EntryLater(seen, p, k)
  }

  lemma LaterStill(seen: Project, p: Project, next: Project)
    requires Later(seen, p) && Later(p, next)
    ensures Later(seen, next)
  {
    forall k | 0 <= k < |seen.entries|
      ensures EntryLater(seen, next, k)
    {
      assert EntryLater(seen, p, k) && EntryLater(p, next, k);
    }
  }

  lemma LaterAtOnce(p: Project, c: Command)
    ensures Later(p, Next(p, c))
  {
    forall k | 0 <= k < |p.entries|
      ensures EntryLater(p, Next(p, c), k)
    {
      var rc := EntryMoves(p, c, k);
      if !Pending(p.entries[k]) { DecidedStays(p.entries[k].remark, rc); }
    }
  }

  lemma LaterWritten(p: Project, c: Command)
    requires CanWrite(p, c)
    ensures Later(p, Commit(p, c))
  {
    forall k | 0 <= k < |p.entries|
      ensures EntryLater(p, Commit(p, c), k)
    {
      if c.DoReopenRemark? && k == c.k && !Pending(p.entries[k]) {
        DecidedStays(p.entries[k].remark, R.DoNoteReopened(c.role, true));
      }
    }
  }

  // ---------- when a write is the operation ----------

  /** A close: the round was closed meanwhile, or all that was created in it since is decided. A new remark: its round is
      still open. */
  predicate Fits(p: Project, q: Request)
    requires CanWrite(p, q.c)
  {
    if q.c.DoCloseRound? then
      p.rounds[q.c.round].closed
      || forall k :: |q.seen.entries| <= k < |p.entries| && p.entries[k].round == q.c.round ==> !Pending(p.entries[k])
    else !p.rounds[q.c.round].closed
  }

  /** What was counted is still decided: only what came since can be pending. */
  lemma PendingCameSince(p: Project, q: Request)
    requires Begins(q.seen, q.c) && Later(q.seen, p) && CanWrite(p, q.c)
    requires q.c.DoCloseRound? && !p.rounds[q.c.round].closed
    ensures NothingPendingIn(p.entries, q.c.round) <==> Fits(p, q)
  {
    forall k | 0 <= k < |q.seen.entries| && k < |p.entries| && p.entries[k].round == q.c.round
      ensures !Pending(p.entries[k])
    {
      assert EntryLater(q.seen, p, k);
    }
  }

  lemma StillThere(p: Project, q: Request)
    requires Begins(q.seen, q.c) && Later(q.seen, p)
    ensures CanWrite(p, q.c)
  {
    if q.c.DoReopenRemark? { assert EntryLater(q.seen, p, q.c.k); }
  }

  lemma AddsOne(p: Project, c: Command)
    requires CanWrite(p, c) && !c.DoCloseRound?
    ensures |Commit(p, c).entries| == |p.entries| + 1 && Commit(p, c).rounds == p.rounds
    ensures Commit(p, c).entries[|p.entries|].round == c.round && Pending(Commit(p, c).entries[|p.entries|])
  {
  }

  /** The write is the operation as one step if and only if what it was let through on still holds. */
  lemma CommitRefinesIff(p: Project, q: Request)
    requires Begins(q.seen, q.c) && Later(q.seen, p)
    ensures CanWrite(p, q.c) && (Commit(p, q.c) == Next(p, q.c) <==> Fits(p, q))
  {
    StillThere(p, q);
    if q.c.DoCloseRound? {
      if !p.rounds[q.c.round].closed { PendingCameSince(p, q); }
    } else {
      AddsOne(p, q.c);
      if q.c.DoReopenRemark? { assert EntryLater(q.seen, p, q.c.k); }
    }
  }

  /** It keeps closed rounds decided exactly then, too. */
  lemma KeepsRoundsIff(p: Project, q: Request)
    requires Begins(q.seen, q.c) && Later(q.seen, p) && RoundsOk(p)
    ensures CanWrite(p, q.c) && (RoundsOk(Commit(p, q.c)) <==> Fits(p, q))
  {
    CommitRefinesIff(p, q);
    if Fits(p, q) {
      NextRounds(p, q.c);
    } else if q.c.DoCloseRound? {
      PendingCameSince(p, q);
      ClosedUndecided(p, q.c);
    } else {
      AddsOne(p, q.c);
      assert !InRound(Commit(p, q.c), |p.entries|);
    }
  }

  lemma ClosedUndecided(p: Project, c: Command)
    requires CanWrite(p, c) && c.DoCloseRound? && !p.rounds[c.round].closed && !NothingPendingIn(p.entries, c.round)
    ensures !RoundsOk(Commit(p, c))
  {
    var k :| 0 <= k < |p.entries| && p.entries[k].round == c.round && Pending(p.entries[k]);
    assert !InRound(Commit(p, c), k);
  }

  // ---------- every interleaving ----------

  function Moved(s: Shared, e: Step): Shared {
    match e
    case AtOnce(c) => s.(project := Next(s.project, c))
    case Read(c) => if Begins(s.project, c) then s.(open := s.open + [Request(s.project, c)]) else s
    case Write(k) =>
      if k < |s.open| && CanWrite(s.project, s.open[k].c) then
        Shared(Commit(s.project, s.open[k].c), s.open[..k] + s.open[k + 1..])
      else s
  }

  const NOBODY := Shared(EMPTY, [])

  function AfterSteps(es: seq<Step>): Shared {
    if es == [] then NOBODY else Moved(AfterSteps(es[..|es| - 1]), es[|es| - 1])
  }

  ghost predicate RequestOk(p: Project, q: Request) {
    Begins(q.seen, q.c) && Later(q.seen, p)
  }

  ghost predicate AllOk(s: Shared) {
    forall k :: 0 <= k < |s.open| ==> RequestOk(s.project, s.open[k])
  }

  lemma OthersOk(s: Shared, p: Project, k: nat)
    requires AllOk(s) && k < |s.open| && Later(s.project, p)
    ensures RequestOk(p, s.open[k])
  {
    assert RequestOk(s.project, s.open[k]);
    LaterStill(s.open[k].seen, s.project, p);
  }

  lemma LaterSame(p: Project)
    ensures Later(p, p)
  {
    forall k | 0 <= k < |p.entries|
      ensures EntryLater(p, p, k)
    {
    }
  }

  lemma ProjectMoved(s: Shared, p: Project)
    requires AllOk(s) && Later(s.project, p)
    ensures AllOk(s.(project := p))
  {
    forall i | 0 <= i < |s.open|
      ensures RequestOk(p, s.open[i])
    {
      OthersOk(s, p, i);
    }
  }

  lemma ReadOk(s: Shared, c: Command)
    requires AllOk(s) && Begins(s.project, c)
    ensures AllOk(s.(open := s.open + [Request(s.project, c)]))
  {
    LaterSame(s.project);
    var open := s.open + [Request(s.project, c)];
    forall i | 0 <= i < |open|
      ensures RequestOk(s.project, open[i])
    {
      if i < |s.open| { assert RequestOk(s.project, s.open[i]); }
    }
  }

  lemma WrittenOk(s: Shared, k: nat)
    requires AllOk(s) && k < |s.open|
    ensures AllOk(s.(open := s.open[..k] + s.open[k + 1..]))
  {
    var open := s.open[..k] + s.open[k + 1..];
    forall i | 0 <= i < |open|
      ensures RequestOk(s.project, open[i])
    {
      assert RequestOk(s.project, s.open[if i < k then i else i + 1]);
    }
  }

  lemma MovedOk(s: Shared, e: Step)
    requires AllOk(s)
    ensures AllOk(Moved(s, e))
  {
    match e
    case AtOnce(c) =>
      LaterAtOnce(s.project, c);
      ProjectMoved(s, Next(s.project, c));
    case Read(c) => if Begins(s.project, c) { ReadOk(s, c); }
    case Write(k) =>
      if k < |s.open| && CanWrite(s.project, s.open[k].c) {
        LaterWritten(s.project, s.open[k].c);
        WrittenOk(s, k);
        ProjectMoved(s.(open := s.open[..k] + s.open[k + 1..]), Commit(s.project, s.open[k].c));
      }
  }

  lemma {:induction false} RequestsAreOk(es: seq<Step>)
    ensures AllOk(AfterSteps(es))
  {
    if es != [] {
      RequestsAreOk(es[..|es| - 1]);
      MovedOk(AfterSteps(es[..|es| - 1]), es[|es| - 1]);
    }
  }

  /** If the step writes a request, what it was let through on still holds. */
  ghost predicate StepFits(s: Shared, e: Step) {
    e.Write? && e.k < |s.open| && CanWrite(s.project, s.open[e.k].c) ==>
      Fits(s.project, s.open[e.k])
  }

  ghost predicate AllFit(es: seq<Step>) {
    es == [] || (AllFit(es[..|es| - 1]) && StepFits(AfterSteps(es[..|es| - 1]), es[|es| - 1]))
  }

  ghost predicate AlwaysDecided(es: seq<Step>) {
    RoundsOk(AfterSteps(es).project) && (es == [] || AlwaysDecided(es[..|es| - 1]))
  }

  lemma StepKeepsIff(s: Shared, e: Step)
    requires AllOk(s) && RoundsOk(s.project)
    ensures RoundsOk(Moved(s, e).project) <==> StepFits(s, e)
  {
    match e
    case AtOnce(c) => NextRounds(s.project, c);
    case Read(_) =>
    case Write(k) =>
      if k < |s.open| {
        assert RequestOk(s.project, s.open[k]);
        if CanWrite(s.project, s.open[k].c) { KeepsRoundsIff(s.project, s.open[k]); }
      }
  }

  /** Over all interleavings of all requests: closed rounds hold only decided remarks all the time if and only if every close
      was written with nothing undecided created since its count, and every remark into a round still open. */
  lemma {:induction false} AlwaysDecidedIff(es: seq<Step>)
    ensures AlwaysDecided(es) <==> AllFit(es)
  {
    if es != [] {
      var before := es[..|es| - 1];
      AlwaysDecidedIff(before);
      RequestsAreOk(before);
      if AlwaysDecided(before) { StepKeepsIff(AfterSteps(before), es[|es| - 1]); }
    } else {
      assert RoundsOk(EMPTY);
    }
  }

  /** Numbers count up whatever comes between: they are given at the write. */
  lemma {:induction false} NumbersAlwaysOk(es: seq<Step>)
    ensures NumbersOk(AfterSteps(es).project)
  {
    if es == [] {
      ProjectIsSound([]);
    } else {
      var before, e := es[..|es| - 1], es[|es| - 1];
      var s := AfterSteps(before);
      NumbersAlwaysOk(before);
      match e
      case AtOnce(c) => NextNumbers(s.project, c);
      case Read(_) =>
      case Write(k) =>
        if k < |s.open| && CanWrite(s.project, s.open[k].c) { WrittenNumbers(s.project, s.open[k].c); }
    }
  }

  lemma WrittenNumbers(p: Project, c: Command)
    requires NumbersOk(p) && CanWrite(p, c)
    ensures NumbersOk(Commit(p, c))
  {
    if c.DoCloseRound? {
      SameEntriesCount(p, Commit(p, c));
    } else {
      NewEntryCounts(p, c.round, NewOf(c));
      if c.DoReopenRemark? {
        ChangedEntryCounts(WithEntry(p, c.round, NewOf(c)), c.k, R.Next(p.entries[c.k].remark, R.DoNoteReopened(c.role, true)));
      }
    }
  }

  lemma StepsMore(es: seq<Step>, e: Step)
    ensures AfterSteps(es + [e]) == Moved(AfterSteps(es), e)
  {
    assert (es + [e])[..|es|] == es;
  }

  /** A remark created between the count and the close: the round is closed with an undecided remark in it. */
  lemma CloseOverlooks() returns (es: seq<Step>)
    ensures var p := AfterSteps(es).project;
            && |p.rounds| == 1 && p.rounds[0].closed
            && |p.entries| == 1 && p.entries[0].round == 0 && p.entries[0].remark.status.Imported?
  {
    es := [];
    StepsMore(es, AtOnce(DoCreateRound(R.Pm, None)));
    es := es + [AtOnce(DoCreateRound(R.Pm, None))];
    StepsMore(es, Read(DoCloseRound(R.Pm, 0)));
    es := es + [Read(DoCloseRound(R.Pm, 0))];
    StepsMore(es, AtOnce(DoCreateRemark(R.Business, 0, false)));
    es := es + [AtOnce(DoCreateRemark(R.Business, 0, false))];
    StepsMore(es, Write(0));
    es := es + [Write(0)];
  }
}
