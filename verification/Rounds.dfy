/** The rounds of a project and the remarks in them (rounds/rounds.service.ts, `createNumbered` in remarks/remarks.service.ts). */
module Rounds {
  import opened Prelude
  import R = Remarks
  import H = RemarkHistory

  type RoundId = nat

  datatype Round = Round(number: nat, closed: bool)

  datatype Entry = Entry(round: RoundId, number: nat, remark: R.Remark)

  datatype EventKind = Opened | ClosedAgain | ReopenedAgain

  datatype Event = Event(round: RoundId, kind: EventKind, role: R.Role)

  datatype Project = Project(rounds: seq<Round>, entries: seq<Entry>, events: seq<Event>)

  type Answer = Result<Project, R.Error>

  // ---------- what is read ----------

  predicate Pending(e: Entry) {
    !R.IsTerminal(e.remark.status)
  }

  predicate NothingPending(entries: seq<Entry>) {
    forall k :: 0 <= k < |entries| ==> !Pending(entries[k])
  }

  predicate NothingPendingIn(entries: seq<Entry>, round: RoundId) {
    forall k :: 0 <= k < |entries| && entries[k].round == round ==> !Pending(entries[k])
  }

  /** The numbers in a round, in the order of creation. */
  function NumbersIn(entries: seq<Entry>, round: RoundId): seq<nat> {
    if entries == [] then []
    else
      var last := entries[|entries| - 1];
      NumbersIn(entries[..|entries| - 1], round) + if last.round == round then [last.number] else []
  }

  /** `orderBy: { number: 'desc' }`, first or nothing. */
  function Highest(numbers: seq<nat>): nat {
    if numbers == [] then 0 else Max(numbers[|numbers| - 1], Highest(numbers[..|numbers| - 1]))
  }

  function RoundNumbers(rounds: seq<Round>): seq<nat> {
    seq(|rounds|, k requires 0 <= k < |rounds| => rounds[k].number)
  }

  // ---------- operations ----------

  function WithEntry(p: Project, round: RoundId, remark: R.Remark): Project {
    p.(entries := p.entries + [Entry(round, Highest(NumbersIn(p.entries, round)) + 1, remark)])
  }

  function OpenRound(p: Project, round: RoundId): Result<(), R.Error> {
    if round >= |p.rounds| then Err(R.NotFound) else if p.rounds[round].closed then Err(R.Conflict) else Ok(())
  }

  function ShotsOf(screenshot: bool): seq<R.Shot> {
    if screenshot then [R.Shot(R.Original, false)] else []
  }

  function CreateRemark(p: Project, role: R.Role, round: RoundId, screenshot: bool): Answer {
    if !R.IsCustomerOrPm(role) then Err(R.Forbidden)
    else if OpenRound(p, round).Err? then Err(OpenRound(p, round).error)
    else Ok(WithEntry(p, round, R.NewRemark(R.Imported, R.Created, role, ShotsOf(screenshot))))
  }

  function ImportRemark(p: Project, role: R.Role, round: RoundId, parsed: bool, screenshot: bool): Answer {
    if !R.IsCustomerOrPm(role) then Err(R.Forbidden)
    else if OpenRound(p, round).Err? then Err(OpenRound(p, round).error)
    else
      Ok(WithEntry(p, round, R.NewRemark(if parsed then R.Imported else R.NeedsHumanParse, R.ImportedRow, role, ShotsOf(screenshot))))
  }

  /** A claim on a closed remark raised again: the original stays closed, a new remark begins in an open round. */
  function ReopenRemark(p: Project, role: R.Role, k: nat, round: RoundId, screenshot: bool): Answer {
    if !role.Business? then Err(R.Forbidden)
    else if k >= |p.entries| then Err(R.NotFound)
    else if !p.entries[k].remark.status.Closed? then Err(R.Conflict)
    else if OpenRound(p, round).Err? then Err(OpenRound(p, round).error)
    else
      var noted := R.Next(p.entries[k].remark, R.DoNoteReopened(role, true));
      var created := WithEntry(p, round, R.NewRemark(R.Reopened, R.ReopenedHere, role, ShotsOf(screenshot)));
      Ok(created.(entries := created.entries[k := created.entries[k].(remark := noted)]))
  }

  function CreateRound(p: Project, role: R.Role, number: Option<nat>): Answer {
    var n := if number.Some? then number.value else Highest(RoundNumbers(p.rounds)) + 1;
    if !NothingPending(p.entries) then Err(R.Conflict)
    else if n in RoundNumbers(p.rounds) then Err(R.Conflict)
    else Ok(p.(rounds := p.rounds + [Round(n, false)], events := p.events + [Event(|p.rounds|, Opened, role)]))
  }

  function CloseRound(p: Project, role: R.Role, round: RoundId): Answer {
    if !R.IsCustomerOrPm(role) then Err(R.Forbidden)
    else if round >= |p.rounds| then Err(R.NotFound)
    else if p.rounds[round].closed then Ok(p)
    else if !NothingPendingIn(p.entries, round) then Err(R.Conflict)
    else
      Ok(p.(rounds := p.rounds[round := p.rounds[round].(closed := true)], events := p.events + [Event(round, ClosedAgain, role)]))
  }

  function ReopenRound(p: Project, role: R.Role, round: RoundId): Answer {
    if !R.IsCustomerOrPm(role) then Err(R.Forbidden)
    else if round >= |p.rounds| then Err(R.NotFound)
    else if !p.rounds[round].closed then Ok(p)
    else
      Ok(p.(rounds := p.rounds[round := p.rounds[round].(closed := false)], events := p.events + [Event(round, ReopenedAgain, role)]))
  }

  function Told(p: Project, round: RoundId, c: R.Command): R.Command {
    match c
    case DoLinkDuplicate(role, _, found) => R.DoLinkDuplicate(role, OpenRound(p, round).Ok?, found)
    case _ => c
  }

  /** A command on one remark; whether its round is open is the project's to say. */
  function OnRemark(p: Project, k: nat, c: R.Command): Answer {
    if k >= |p.entries| then Err(R.NotFound)
    else
      var e := p.entries[k];
      var answer := R.Do(e.remark, Told(p, e.round, c));
      if answer.Err? then Err(answer.error) else Ok(p.(entries := p.entries[k := e.(remark := answer.value)]))
  }

  datatype Command =
    | DoCreateRound(role: R.Role, number: Option<nat>)
    | DoCloseRound(role: R.Role, round: RoundId)
    | DoReopenRound(role: R.Role, round: RoundId)
    | DoCreateRemark(role: R.Role, round: RoundId, screenshot: bool)
    | DoImportRemark(role: R.Role, round: RoundId, parsed: bool, screenshot: bool)
    | DoReopenRemark(role: R.Role, k: nat, round: RoundId, screenshot: bool)
    | DoOnRemark(k: nat, c: R.Command)

  function Do(p: Project, c: Command): Answer {
    match c
    case DoCreateRound(role, number) => CreateRound(p, role, number)
    case DoCloseRound(role, round) => CloseRound(p, role, round)
    case DoReopenRound(role, round) => ReopenRound(p, role, round)
    case DoCreateRemark(role, round, screenshot) => CreateRemark(p, role, round, screenshot)
    case DoImportRemark(role, round, parsed, screenshot) => ImportRemark(p, role, round, parsed, screenshot)
    case DoReopenRemark(role, k, round, screenshot) => ReopenRemark(p, role, k, round, screenshot)
    case DoOnRemark(k, command) => OnRemark(p, k, command)
  }

  function Next(p: Project, c: Command): Project {
    if Do(p, c).Ok? then Do(p, c).value else p
  }

  const EMPTY := Project([], [], [])

  function After(cs: seq<Command>): Project {
    if cs == [] then EMPTY else Next(After(cs[..|cs| - 1]), cs[|cs| - 1])
  }

  // ---------- numbers ----------

  /** 1, 2, …, n. */
  function UpTo(n: nat): seq<nat> {
    seq(n, k requires 0 <= k < n => k + 1)
  }

  ghost predicate NumbersOk(p: Project) {
    forall round: RoundId :: CountsUp(p.entries, round)
  }

  ghost predicate CountsUp(entries: seq<Entry>, round: RoundId) {
    NumbersIn(entries, round) == UpTo(|NumbersIn(entries, round)|)
  }

  lemma {:induction false} HighestUpTo(n: nat)
    ensures Highest(UpTo(n)) == n
  {
    if n > 0 {
      HighestUpTo(n - 1);
      assert UpTo(n)[..n - 1] == UpTo(n - 1);
    }
  }

  lemma NumbersMore(entries: seq<Entry>, e: Entry, round: RoundId)
    ensures NumbersIn(entries + [e], round) == NumbersIn(entries, round) + if e.round == round then [e.number] else []
  {
    assert (entries + [e])[..|entries|] == entries;
  }

  /** A remark that changes keeps its place and number. */
  lemma {:induction false} NumbersStay(entries: seq<Entry>, k: nat, remark: R.Remark, round: RoundId)
    requires k < |entries|
    ensures NumbersIn(entries[k := entries[k].(remark := remark)], round) == NumbersIn(entries, round)
  {
    var n := |entries| - 1;
    var changed := entries[k := entries[k].(remark := remark)];
    if k < n {
      NumbersStay(entries[..n], k, remark, round);
      assert changed[..n] == entries[..n][k := entries[k].(remark := remark)];
    } else {
      assert changed[..n] == entries[..n];
    }
  }

  lemma NewEntryCounts(p: Project, round: RoundId, remark: R.Remark)
    requires NumbersOk(p)
    ensures NumbersOk(WithEntry(p, round, remark))
  {
    var after := WithEntry(p, round, remark);
    forall r: RoundId
      ensures CountsUp(after.entries, r)
    {
      NumbersMore(p.entries, after.entries[|p.entries|], r);
      assert CountsUp(p.entries, r);
      var n := |NumbersIn(p.entries, r)|;
      HighestUpTo(n);
      assert UpTo(n) + [n + 1] == UpTo(n + 1);
      assert NumbersIn(p.entries, r) + [] == NumbersIn(p.entries, r);
    }
  }

  lemma ChangedEntryCounts(p: Project, k: nat, remark: R.Remark)
    requires NumbersOk(p) && k < |p.entries|
    ensures NumbersOk(p.(entries := p.entries[k := p.entries[k].(remark := remark)]))
  {
    var after := p.entries[k := p.entries[k].(remark := remark)];
    forall r: RoundId
      ensures CountsUp(after, r)
    {
      NumbersStay(p.entries, k, remark, r);
      assert CountsUp(p.entries, r);
    }
  }

  lemma SameEntriesCount(p: Project, after: Project)
    requires NumbersOk(p) && after.entries == p.entries
    ensures NumbersOk(after)
  {
    forall r: RoundId
      ensures CountsUp(after.entries, r)
    {
      assert CountsUp(p.entries, r);
    }
  }

  lemma NextNumbers(p: Project, c: Command)
    requires NumbersOk(p)
    ensures NumbersOk(Next(p, c))
  {
    var after := Next(p, c);
    if after.entries == p.entries {
      SameEntriesCount(p, after);
    } else {
      match c
      case DoCreateRemark(role, round, screenshot) => NewEntryCounts(p, round, after.entries[|p.entries|].remark);
      case DoImportRemark(role, round, _, _) => NewEntryCounts(p, round, after.entries[|p.entries|].remark);
      case DoReopenRemark(_, k, round, _) =>
        var created := WithEntry(p, round, after.entries[|p.entries|].remark);
        NewEntryCounts(p, round, after.entries[|p.entries|].remark);
        ChangedEntryCounts(created, k, after.entries[k].remark);
      case DoOnRemark(k, _) => ChangedEntryCounts(p, k, after.entries[k].remark);
      case _ =>
    }
  }

  // ---------- closed rounds ----------

  ghost predicate RoundsOk(p: Project) {
    && (forall k :: 0 <= k < |p.entries| ==> InRound(p, k))
    && (forall i, j :: 0 <= i < j < |p.rounds| ==> p.rounds[i].number != p.rounds[j].number)
  }

  /** Each remark is in a round of the project, and decided if that round is closed. */
  ghost predicate InRound(p: Project, k: nat)
    requires k < |p.entries|
  {
    p.entries[k].round < |p.rounds| && (p.rounds[p.entries[k].round].closed ==> !Pending(p.entries[k]))
  }

  /** A decided remark stays as it was decided, whatever is done to it. */
  lemma DecidedStays(r: R.Remark, c: R.Command)
    requires R.IsTerminal(r.status)
    ensures R.Next(r, c).status == r.status
  {
    H.StatusMovesAlongEdges(r, c);
  }

  lemma ChangedEntryInRound(p: Project, k: nat, c: R.Command)
    requires RoundsOk(p) && k < |p.entries|
    ensures RoundsOk(p.(entries := p.entries[k := p.entries[k].(remark := R.Next(p.entries[k].remark, c))]))
  {
    var after := p.(entries := p.entries[k := p.entries[k].(remark := R.Next(p.entries[k].remark, c))]);
    assert InRound(p, k);
    if !Pending(p.entries[k]) { DecidedStays(p.entries[k].remark, c); }
    forall i | 0 <= i < |after.entries|
      ensures InRound(after, i)
    {
      assert InRound(p, i);
    }
  }

  lemma NewEntryInRound(p: Project, round: RoundId, remark: R.Remark)
    requires RoundsOk(p) && OpenRound(p, round).Ok?
    ensures RoundsOk(WithEntry(p, round, remark))
  {
    var after := WithEntry(p, round, remark);
    forall i | 0 <= i < |after.entries|
      ensures InRound(after, i)
    {
      if i < |p.entries| { assert InRound(p, i); }
    }
  }

  lemma RoundMoves(p: Project, c: Command)
    requires RoundsOk(p) && (c.DoCreateRound? || c.DoCloseRound? || c.DoReopenRound?)
    ensures RoundsOk(Next(p, c))
  {
    var after := Next(p, c);
    forall i | 0 <= i < |after.entries|
      ensures InRound(after, i)
    {
      assert InRound(p, i);
    }
    if c.DoCreateRound? && Do(p, c).Ok? {
      var n := |p.rounds|;
      forall i | 0 <= i < n
        ensures after.rounds[i].number != after.rounds[n].number
      {
        assert RoundNumbers(p.rounds)[i] == p.rounds[i].number;
      }
    }
  }

  lemma NextRounds(p: Project, c: Command)
    requires RoundsOk(p)
    ensures RoundsOk(Next(p, c))
  {
    var after := Next(p, c);
    match c
    case DoCreateRemark(role, round, screenshot) =>
      if after != p { NewEntryInRound(p, round, after.entries[|p.entries|].remark); }
    case DoImportRemark(role, round, _, _) =>
      if after != p { NewEntryInRound(p, round, after.entries[|p.entries|].remark); }
    case DoReopenRemark(role, k, round, _) =>
      if Do(p, c).Ok? {
        NewEntryInRound(p, round, after.entries[|p.entries|].remark);
        ChangedEntryInRound(WithEntry(p, round, after.entries[|p.entries|].remark), k, R.DoNoteReopened(role, true));
      }
    case DoOnRemark(k, command) =>
      if Do(p, c).Ok? { ChangedEntryInRound(p, k, Told(p, p.entries[k].round, command)); }
    case _ => RoundMoves(p, c);
  }

  /** In every run: the numbers in a round are 1, 2, … without a gap, round numbers differ, and a closed round holds only
      decided remarks. */
  lemma {:induction false} ProjectIsSound(cs: seq<Command>)
    ensures NumbersOk(After(cs)) && RoundsOk(After(cs))
  {
    if cs == [] {
      forall r: RoundId
        ensures CountsUp(EMPTY.entries, r)
      {
        assert NumbersIn([], r) == UpTo(0);
      }
    } else {
      ProjectIsSound(cs[..|cs| - 1]);
      NextNumbers(After(cs[..|cs| - 1]), cs[|cs| - 1]);
      NextRounds(After(cs[..|cs| - 1]), cs[|cs| - 1]);
    }
  }

  /** What a command does to a remark that is there: it stays in its round, with its number, and moves as remarks move. */
  lemma EntryMoves(p: Project, c: Command, k: nat) returns (rc: R.Command)
    requires k < |p.entries|
    ensures k < |Next(p, c).entries| && Next(p, c).entries[k].round == p.entries[k].round
    ensures Next(p, c).entries[k].number == p.entries[k].number
    ensures Next(p, c).entries[k] == p.entries[k] || Next(p, c).entries[k].remark == R.Next(p.entries[k].remark, rc)
  {
    rc := if c.DoOnRemark? then Told(p, p.entries[k].round, c.c) else R.DoNoteReopened(R.Business, true);
  }

  /** Every remark of the project has lived as one remark does: what is proved of single remarks holds of it. */
  lemma {:induction false} EntriesLiveAsRemarks(cs: seq<Command>, k: nat) returns (first: R.Remark, rcs: seq<R.Command>)
    requires k < |After(cs).entries|
    ensures R.IsNew(first) && After(cs).entries[k].remark == R.After(first, rcs)
  {
    var n := |cs| - 1;
    var before := After(cs[..n]);
    if k < |before.entries| {
      first, rcs := EntriesLiveAsRemarks(cs[..n], k);
      var rc := EntryMoves(before, cs[n], k);
      if After(cs).entries[k] != before.entries[k] {
        R.AfterMore(first, rcs, rc);
        rcs := rcs + [rc];
      }
    } else {
      first, rcs := After(cs).entries[k].remark, [];
      NewEntryIsNew(before, cs[n]);
    }
  }

  lemma NewEntryIsNew(p: Project, c: Command)
    requires |Next(p, c).entries| > |p.entries|
    ensures |Next(p, c).entries| == |p.entries| + 1 && R.IsNew(Next(p, c).entries[|p.entries|].remark)
  {
    var r := Next(p, c).entries[|p.entries|].remark;
    match c
    case DoCreateRemark(role, _, screenshot) => assert R.BeginsAs(r, role, R.Created, ShotsOf(screenshot));
    case DoImportRemark(role, _, _, screenshot) => assert R.BeginsAs(r, role, R.ImportedRow, ShotsOf(screenshot));
    case DoReopenRemark(role, _, _, screenshot) => assert R.BeginsAs(r, role, R.ReopenedHere, ShotsOf(screenshot));
    case _ =>
  }

  /** What a closed round decided stays decided, even if the round is opened again. */
  lemma {:induction false} ClosedRoundIsFinal(cs: seq<Command>, more: seq<Command>, k: nat)
    requires k < |After(cs).entries| && InRound(After(cs), k) && After(cs).rounds[After(cs).entries[k].round].closed
    ensures k < |After(cs + more).entries|
    ensures After(cs + more).entries[k].remark.status == After(cs).entries[k].remark.status
    decreases |more|
  {
    if more == [] {
      assert cs + more == cs;
    } else {
      var n := |more| - 1;
      ClosedRoundIsFinal(cs, more[..n], k);
      assert (cs + more)[..|cs + more| - 1] == cs + more[..n];
      var p := After(cs + more[..n]);
      var rc := EntryMoves(p, more[n], k);
      DecidedStays(p.entries[k].remark, rc);
    }
  }

  lemma {:induction false} HighestIsHighest(numbers: seq<nat>)
    ensures forall k :: 0 <= k < |numbers| ==> numbers[k] <= Highest(numbers)
  {
    if numbers != [] {
      var init := numbers[..|numbers| - 1];
      HighestIsHighest(init);
      assert forall k :: 0 <= k < |init| ==> init[k] == numbers[k];
    }
  }

  /** A round opens exactly when nothing in the project is pending and its number, if one is wished, is not taken; it is
      open and empty and has that number, or one above all others. */
  lemma RoundOpensIffDecided(p: Project, role: R.Role, number: Option<nat>)
    requires RoundsOk(p)
    ensures CreateRound(p, role, number).Ok?
            <==> NothingPending(p.entries) && (number.Some? ==> number.value !in RoundNumbers(p.rounds))
    ensures CreateRound(p, role, number).Ok? ==>
              var after := Next(p, DoCreateRound(role, number));
              && |after.rounds| == |p.rounds| + 1 && OpenRound(after, |p.rounds|).Ok?
              && NumbersIn(after.entries, |p.rounds|) == []
              && (if number.Some? then after.rounds[|p.rounds|].number == number.value
                  else forall k :: 0 <= k < |p.rounds| ==> p.rounds[k].number < after.rounds[|p.rounds|].number)
  {
    HighestIsHighest(RoundNumbers(p.rounds));
    assert forall k :: 0 <= k < |p.rounds| ==> RoundNumbers(p.rounds)[k] == p.rounds[k].number;
    NothingInNewRound(p, |p.entries|);
    assert p.entries[..|p.entries|] == p.entries;
  }

  lemma {:induction false} NothingInNewRound(p: Project, n: nat)
    requires RoundsOk(p) && n <= |p.entries|
    ensures NumbersIn(p.entries[..n], |p.rounds|) == []
  {
    if n > 0 {
      NothingInNewRound(p, n - 1);
      assert p.entries[..n][..n - 1] == p.entries[..n - 1];
      assert InRound(p, n - 1);
    }
  }

  /** Whoever may close can close a round exactly when nothing in it is pending; closing it again changes nothing. */
  lemma ClosesIffDecided(p: Project, role: R.Role, round: RoundId)
    requires RoundsOk(p) && R.IsCustomerOrPm(role) && round < |p.rounds|
    ensures CloseRound(p, role, round).Ok? <==> NothingPendingIn(p.entries, round)
    ensures CloseRound(p, role, round).Ok? ==> Next(p, DoCloseRound(role, round)).rounds[round].closed
    ensures Next(Next(p, DoCloseRound(role, round)), DoCloseRound(role, round)) == Next(p, DoCloseRound(role, round))
  {
    if p.rounds[round].closed {
      forall k | 0 <= k < |p.entries| && p.entries[k].round == round
        ensures !Pending(p.entries[k])
      {
        assert InRound(p, k);
      }
    }
  }

  // ---------- events of rounds ----------

  function LastEvent(events: seq<Event>, round: RoundId): Option<EventKind> {
    if events == [] then None
    else if events[|events| - 1].round == round then Some(events[|events| - 1].kind)
    else LastEvent(events[..|events| - 1], round)
  }

  /** The newest event of each round says whether it is closed; a round that is not there has none. */
  ghost predicate EventsOk(p: Project) {
    forall round: RoundId :: EventOk(p, round)
  }

  ghost predicate EventOk(p: Project, round: RoundId) {
    if round < |p.rounds| then
      LastEvent(p.events, round).Some? && (p.rounds[round].closed <==> LastEvent(p.events, round) == Some(ClosedAgain))
    else LastEvent(p.events, round) == None
  }

  lemma NextEvents(p: Project, c: Command)
    requires EventsOk(p)
    ensures EventsOk(Next(p, c))
    ensures p.events <= Next(p, c).events
  {
    var after := Next(p, c);
    forall round: RoundId
      ensures EventOk(after, round)
    {
      assert EventOk(p, round);
      if after.events != p.events {
        assert after.events[..|after.events| - 1] == p.events;
      }
    }
  }

  /** In every run the events of rounds are only added to, and the newest one of each tells its state. */
  lemma {:induction false} EventsTellState(cs: seq<Command>)
    ensures EventsOk(After(cs))
  {
    if cs != [] {
      EventsTellState(cs[..|cs| - 1]);
      NextEvents(After(cs[..|cs| - 1]), cs[|cs| - 1]);
    }
  }
}
