/** Who may do what to rounds and their remarks, and what comes of it (rounds/rounds.service.ts, and creating, importing and
    reopening in remarks/remarks.service.ts). */
module RoundRules {
  import opened Prelude
  import opened Rounds
  import K = RemarkRules
  import R = Remarks

  predicate IsOpen(p: Project, round: RoundId) {
    round < |p.rounds| && !p.rounds[round].closed
  }

  predicate Undecided(e: Entry) {
    e.remark.status != R.Closed && e.remark.status != R.ChangeRequest && e.remark.status != R.Duplicate
  }

  predicate NumberTaken(p: Project, number: nat) {
    exists k :: 0 <= k < |p.rounds| && p.rounds[k].number == number
  }

  predicate RoleMay(c: Command) {
    match c
    case DoCreateRound(_, _) => true
    case DoCloseRound(role, _) => K.CustomerOrPm(role)
    case DoReopenRound(role, _) => K.CustomerOrPm(role)
    case DoCreateRemark(role, _, _) => K.CustomerOrPm(role)
    case DoImportRemark(role, _, _, _) => K.CustomerOrPm(role)
    case DoReopenRemark(role, _, _, _) => role == R.Business
    case DoOnRemark(_, _) => true
  }

  /** A link to an original is refused in a closed round; other commands do not ask. */
  function WithRound(p: Project, k: nat, c: R.Command): R.Command
    requires k < |p.entries|
  {
    if c.DoLinkDuplicate? then R.DoLinkDuplicate(c.role, IsOpen(p, p.entries[k].round), c.found) else c
  }

  /** Rounds are closed when all in them is decided, and opened when all in the project is; only open ones take remarks. */
  predicate Ready(p: Project, c: Command) {
    match c
    case DoCreateRound(_, number) =>
      && (forall k :: 0 <= k < |p.entries| ==> !Undecided(p.entries[k]))
      && (number.Some? ==> !NumberTaken(p, number.value))
    case DoCloseRound(_, round) =>
      && round < |p.rounds|
      && (p.rounds[round].closed || forall k :: 0 <= k < |p.entries| && p.entries[k].round == round ==> !Undecided(p.entries[k]))
    case DoReopenRound(_, round) => round < |p.rounds|
    case DoCreateRemark(_, round, _) => IsOpen(p, round)
    case DoImportRemark(_, round, _, _) => IsOpen(p, round)
    case DoReopenRemark(_, k, round, _) => k < |p.entries| && p.entries[k].remark.status == R.Closed && IsOpen(p, round)
    case DoOnRemark(k, command) =>
      && k < |p.entries|
      && var r, told := p.entries[k].remark, WithRound(p, k, command);
         K.Repeats(r, told) || (K.RoleMay(r, told) && K.Ready(r, told))
  }

  /** The round or remark it names, where it comes to that, is not there. */
  predicate NamesNothing(p: Project, c: Command) {
    match c
    case DoCreateRound(_, _) => false
    case DoCloseRound(_, round) => round >= |p.rounds|
    case DoReopenRound(_, round) => round >= |p.rounds|
    case DoCreateRemark(_, round, _) => round >= |p.rounds|
    case DoImportRemark(_, round, _, _) => round >= |p.rounds|
    case DoReopenRemark(_, k, round, _) => k >= |p.entries| || (p.entries[k].remark.status == R.Closed && round >= |p.rounds|)
    case DoOnRemark(k, _) => k >= |p.entries|
  }

  lemma {:induction false} HighestIsMost(numbers: seq<nat>, n: nat)
    requires n in numbers
    ensures n <= Highest(numbers)
  {
    var last := |numbers| - 1;
    if numbers[last] != n {
      assert n in numbers[..last];
      HighestIsMost(numbers[..last], n);
    }
  }

  lemma NumberIsFree(p: Project, n: nat)
    ensures n in RoundNumbers(p.rounds) <==> NumberTaken(p, n)
    ensures Highest(RoundNumbers(p.rounds)) + 1 !in RoundNumbers(p.rounds)
  {
    if NumberTaken(p, n) {
      var k :| 0 <= k < |p.rounds| && p.rounds[k].number == n;
      assert RoundNumbers(p.rounds)[k] == n;
    }
    var next := Highest(RoundNumbers(p.rounds)) + 1;
    if next in RoundNumbers(p.rounds) { HighestIsMost(RoundNumbers(p.rounds), next); }
  }

  /** A command is accepted if and only if its role may give it and project, round and remark are ready for it. */
  lemma AcceptedIff(p: Project, c: Command)
    ensures Do(p, c).Ok? <==> RoleMay(c) && Ready(p, c)
  {
    match c
    case DoCreateRound(_, number) => NumberIsFree(p, if number.Some? then number.value else Highest(RoundNumbers(p.rounds)) + 1);
    case DoOnRemark(k, command) =>
      if k < |p.entries| { K.AcceptedIff(p.entries[k].remark, Told(p, p.entries[k].round, command)); }
    case _ =>
  }

  /** The answer to a command that is refused: forbidden to the role; not found, if it names what is not there; else in conflict,
      but for a command on a remark, which is refused as the remark refuses it. */
  lemma RefusedWith(p: Project, c: Command)
    requires Do(p, c).Err?
    ensures Do(p, c).error == R.Forbidden <==>
              !RoleMay(c)
              || (c.DoOnRemark? && c.k < |p.entries| && var r, told := p.entries[c.k].remark, WithRound(p, c.k, c.c);
                                                        !K.RoleMay(r, told) && !(told.DoVerdict? && told.run >= |r.runs|))
    ensures Do(p, c).error == R.NotFound <==>
              (RoleMay(c) && NamesNothing(p, c))
              || (c.DoOnRemark? && c.k < |p.entries| && c.c.DoLinkDuplicate? && c.c.role == R.Pm && IsOpen(p, p.entries[c.k].round))
  {
    if c.DoOnRemark? && c.k < |p.entries| { K.RefusedWith(p.entries[c.k].remark, Told(p, p.entries[c.k].round, c.c)); }
  }

  /** One more remark, in this round, with the highest number there, as yet without runs or verdicts, and with the one row
      that tells how it came and from whom. */
  ghost predicate Adds(p: Project, next: Project, round: RoundId, status: R.Status, action: R.Action, role: R.Role, screenshot: bool) {
    && |next.entries| == |p.entries| + 1 && next.rounds == p.rounds && next.events == p.events
    && var e := next.entries[|p.entries|];
    && e.round == round && e.number > 0
    && (forall k :: 0 <= k < |p.entries| && p.entries[k].round == round ==> p.entries[k].number < e.number)
    && e.remark.status == status && e.remark.runs == [] && e.remark.verdicts == []
    && e.remark.history == [R.Row(None, status, action, Some(role), None)]
    && e.remark.shots == if screenshot then [R.Shot(R.Original, false)] else []
  }

  lemma {:induction false} NumbersHave(entries: seq<Entry>, round: RoundId, k: nat)
    requires k < |entries| && entries[k].round == round
    ensures entries[k].number in NumbersIn(entries, round)
  {
    var n := |entries| - 1;
    if k < n { NumbersHave(entries[..n], round, k); }
  }

  lemma NextNumber(p: Project, round: RoundId)
    ensures forall k :: 0 <= k < |p.entries| && p.entries[k].round == round ==>
              p.entries[k].number < Highest(NumbersIn(p.entries, round)) + 1
  {
    forall k | 0 <= k < |p.entries| && p.entries[k].round == round
      ensures p.entries[k].number < Highest(NumbersIn(p.entries, round)) + 1
    {
      NumbersHave(p.entries, round, k);
      HighestIsMost(NumbersIn(p.entries, round), p.entries[k].number);
    }
  }

  /** What is created begins imported; a journal row begins imported if it was understood and waits for a human if not; a
      claim raised again begins reopened, and the closed original keeps all but one row more. */
  lemma NewRemarkBegins(p: Project, c: Command)
    requires Do(p, c).Ok?
    ensures c.DoCreateRemark? ==>
              && Adds(p, Next(p, c), c.round, R.Imported, R.Created, c.role, c.screenshot)
              && Next(p, c).entries[..|p.entries|] == p.entries
    ensures c.DoImportRemark? ==>
              && Adds(p, Next(p, c), c.round, if c.parsed then R.Imported else R.NeedsHumanParse, R.ImportedRow, c.role, c.screenshot)
              && Next(p, c).entries[..|p.entries|] == p.entries
    ensures c.DoReopenRemark? ==>
              && Adds(p, Next(p, c), c.round, R.Reopened, R.ReopenedHere, c.role, c.screenshot)
              && var was, now := p.entries[c.k], Next(p, c).entries[c.k];
                 && now == was.(remark := was.remark.(history := now.remark.history))
                 && now.remark.history == was.remark.history + [R.Row(Some(R.Closed), R.Closed, R.ReopenedAs, Some(c.role), None)]
                 && forall k :: 0 <= k < |p.entries| && k != c.k ==> Next(p, c).entries[k] == p.entries[k]
  {
    if c.DoCreateRemark? || c.DoImportRemark? || c.DoReopenRemark? { NextNumber(p, c.round); }
  }

  /** A command on one remark does to it what it does alone, and leaves all others, the rounds and their events as they are. */
  lemma OthersStay(p: Project, c: Command)
    requires c.DoOnRemark? && Do(p, c).Ok?
    ensures Next(p, c).rounds == p.rounds && Next(p, c).events == p.events && |Next(p, c).entries| == |p.entries|
    ensures forall k :: 0 <= k < |p.entries| && k != c.k ==> Next(p, c).entries[k] == p.entries[k]
    ensures var was, now := p.entries[c.k], Next(p, c).entries[c.k];
            now.round == was.round && now.number == was.number && now.remark == R.Next(was.remark, WithRound(p, c.k, c.c))
  {
  }

  /** Opening, closing and opening again: only that round changes, with one event that names it and who did it. */
  lemma RoundChanges(p: Project, c: Command)
    requires Do(p, c).Ok? && (c.DoCreateRound? || c.DoCloseRound? || c.DoReopenRound?)
    ensures var next := Next(p, c);
            && next.entries == p.entries
            && (c.DoCreateRound? ==>
                  && |next.rounds| == |p.rounds| + 1 && next.rounds[..|p.rounds|] == p.rounds && !next.rounds[|p.rounds|].closed
                  && next.events == p.events + [Event(|p.rounds|, Opened, c.role)]
                  && (c.number.Some? ==> next.rounds[|p.rounds|].number == c.number.value)
                  && (c.number.None? ==> forall k :: 0 <= k < |p.rounds| ==> p.rounds[k].number < next.rounds[|p.rounds|].number))
            && (!c.DoCreateRound? ==>
                  && |next.rounds| == |p.rounds| && next.rounds[c.round].closed == c.DoCloseRound?
                  && next.rounds[c.round].number == p.rounds[c.round].number
                  && (forall k :: 0 <= k < |p.rounds| && k != c.round ==> next.rounds[k] == p.rounds[k])
                  && next.events == if p.rounds[c.round].closed == c.DoCloseRound? then p.events
                                    else p.events + [Event(c.round, if c.DoCloseRound? then ClosedAgain else ReopenedAgain, c.role)])
  {
    if c.DoCreateRound? && c.number.None? {
      forall k | 0 <= k < |p.rounds|
        ensures p.rounds[k].number < Highest(RoundNumbers(p.rounds)) + 1
      {
        assert RoundNumbers(p.rounds)[k] == p.rounds[k].number;
        HighestIsMost(RoundNumbers(p.rounds), p.rounds[k].number);
      }
    }
  }
}
