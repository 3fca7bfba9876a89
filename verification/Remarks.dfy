/** The life of one remark (remarks/remarks.service.ts): its status, runs, frames, verdicts and history, operation by operation. */
module Remarks {
  import opened Prelude

  datatype Status =
    | Imported | NeedsHumanParse | Triaging | AwaitingPm
    | Defect | ChangeRequest | Unspecified | Duplicate | CannotTell
    | ReadyForRetest | AwaitingBusinessClose | Closed | Reopened

  datatype Role = Business | Pm | Developer | Admin

  datatype Mode = Triage | Retest

  datatype RunStatus = Running | AwaitingHuman | Persisted | Failed | Cancelled

  datatype Run = Run(mode: Mode, status: RunStatus)

  /** A run's place in the remark's list is its id; the last one is the newest. */
  type RunId = nat

  datatype Kind = Original | Retested | Diff

  datatype Shot = Shot(kind: Kind, superseded: bool)

  datatype Code = AsDefect | AsChangeRequest | AsUnspecified | AsDuplicate | AsCannotTell | RejectedBinding

  datatype Verdict = Verdict(run: RunId, key: string, code: Code)

  datatype Outcome = LikelyAddressed | LikelyUnchanged | OutcomeUnclear

  datatype Action =
    | Created | ImportedRow | ReopenedHere | ReopenedAs | FixedRow | AttachedScreenshot | StartedTriage | Proposed | RunFailed
    | CancelledRun | Rejected | Decided | LinkedDuplicate | MarkedReady | StartedRetest | RetestResult | ClosedIt | FoundNotFixed

  /** A row of the history; the first has no status before it. */
  datatype Row = Row(from: Option<Status>, to: Status, action: Action, role: Option<Role>, run: Option<RunId>)

  datatype Remark = Remark(
    status: Status, runs: seq<Run>, history: seq<Row>, shots: seq<Shot>, verdicts: seq<Verdict>,
    retestOutcome: Option<Outcome>, closedBy: Option<Role>)

  datatype Error = Forbidden | Conflict | NotFound

  type Answer = Result<Remark, Error>

  // ---------- helpers ----------

  predicate IsTerminal(s: Status) {
    s.Closed? || s.ChangeRequest? || s.Duplicate?
  }

  predicate CanTriage(s: Status) {
    s.Imported? || s.CannotTell? || s.Reopened?
  }

  predicate CanClose(s: Status) {
    s.ReadyForRetest? || s.AwaitingBusinessClose?
  }

  predicate IsCustomerOrPm(role: Role) {
    role.Business? || role.Pm?
  }

  predicate IsActive(run: Run) {
    run.status.Running? || run.status.AwaitingHuman?
  }

  predicate RetestRuns(runs: seq<Run>) {
    Run(Retest, Running) in runs
  }

  function WithRun(runs: seq<Run>, k: RunId, status: RunStatus): seq<Run>
    requires k < |runs|
  {
    runs[k := runs[k].(status := status)]
  }

  /** What a run of the retest that waits for the customer becomes once the customer decided. */
  function Settled(run: Run): Run {
    if run == Run(Retest, AwaitingHuman) then Run(Retest, Persisted) else run
  }

  function SettleRetests(runs: seq<Run>): seq<Run> {
    seq(|runs|, k requires 0 <= k < |runs| => Settled(runs[k]))
  }

  predicate Replaced(kind: Kind, originals: bool, retests: bool, diffs: bool) {
    (kind.Original? && originals) || (kind.Retested? && retests) || (kind.Diff? && diffs)
  }

  /** Current frames of the named kinds become superseded; none is removed. */
  function Supersede(shots: seq<Shot>, originals: bool, retests: bool, diffs: bool): seq<Shot> {
    seq(|shots|, k requires 0 <= k < |shots| =>
      if Replaced(shots[k].kind, originals, retests, diffs) then shots[k].(superseded := true) else shots[k])
  }

  function Moved(r: Remark, to: Status, action: Action, role: Option<Role>, run: Option<RunId>): Remark {
    r.(status := to, history := r.history + [Row(Some(r.status), to, action, role, run)])
  }

  // ---------- operations ----------

  function NewRemark(status: Status, action: Action, role: Role, shots: seq<Shot>): Remark {
    Remark(status, [], [Row(None, status, action, Some(role), None)], shots, [], None, None)
  }

  function FixRow(r: Remark, role: Role): Answer {
    if !IsCustomerOrPm(role) then Err(Forbidden)
    else if !r.status.NeedsHumanParse? then Err(Conflict)
    else Ok(Moved(r, Imported, FixedRow, Some(role), None))
  }

  function AttachScreenshot(r: Remark, role: Role): Answer {
    if !IsCustomerOrPm(role) then Err(Forbidden)
    else if !(r.status.CannotTell? || r.status.Imported?) then Err(Conflict)
    else
      Ok(Moved(r, r.status, AttachedScreenshot, Some(role), None)
         .(shots := Supersede(r.shots, true, false, false) + [Shot(Original, false)]))
  }

  function BeginTriage(r: Remark, role: Role): Answer {
    if !IsCustomerOrPm(role) then Err(Forbidden)
    else if !CanTriage(r.status) then Err(Conflict)
    else Ok(Moved(r, Triaging, StartedTriage, Some(role), Some(|r.runs|)).(runs := r.runs + [Run(Triage, Running)]))
  }

  function ApplyProposal(r: Remark, run: RunId): Answer {
    if !r.status.Triaging? then Err(Conflict)
    else if run >= |r.runs| || !r.runs[run].status.Running? then Err(Conflict)
    else Ok(Moved(r, AwaitingPm, Proposed, None, Some(run)).(runs := WithRun(r.runs, run, AwaitingHuman)))
  }

  function FailRun(r: Remark, run: RunId): Answer {
    if run >= |r.runs| || !r.runs[run].status.Running? then Ok(r)
    else
      var to := if r.runs[run].mode.Triage? && r.status.Triaging? then Imported else r.status;
      Ok(Moved(r, to, RunFailed, None, Some(run)).(runs := WithRun(r.runs, run, Failed)))
  }

  function CancelRun(r: Remark, role: Role, run: RunId): Answer {
    if !IsCustomerOrPm(role) then Err(Forbidden)
    else if run >= |r.runs| then Err(Conflict)
    else if !IsActive(r.runs[run]) then Ok(r)
    else
      var runs := WithRun(r.runs, run, Cancelled);
      var latest := run == |r.runs| - 1;
      if latest && r.runs[run].mode.Triage? && (r.status.Triaging? || r.status.AwaitingPm?) then
        Ok(Moved(r, Imported, CancelledRun, Some(role), Some(run)).(runs := runs))
      else if latest && r.runs[run].mode.Retest? && CanClose(r.status) then
        Ok(Moved(r, ReadyForRetest, CancelledRun, Some(role), Some(run))
           .(runs := runs, retestOutcome := None, shots := Supersede(r.shots, false, true, true)))
      else
        Ok(Moved(r, r.status, CancelledRun, Some(role), Some(run)).(runs := runs))
  }

  predicate Given(verdicts: seq<Verdict>, run: RunId, key: string) {
    exists k :: 0 <= k < |verdicts| && verdicts[k].run == run && verdicts[k].key == key
  }

  function StatusOf(code: Code): Status
    requires !code.RejectedBinding?
  {
    match code
    case AsDefect => Defect
    case AsChangeRequest => ChangeRequest
    case AsUnspecified => Unspecified
    case AsDuplicate => Duplicate
    case AsCannotTell => CannotTell
  }

  function NextStatusForVerdict(role: Role, from: Status, code: Code): Result<Status, Error>
    requires !code.RejectedBinding?
  {
    if from.AwaitingPm? then
      if role.Pm? then Ok(StatusOf(code)) else Err(Forbidden)
    else if from.Unspecified? && (code.AsDefect? || code.AsChangeRequest?) then
      if IsCustomerOrPm(role) then Ok(StatusOf(code)) else Err(Forbidden)
    else Err(Conflict)
  }

  function GiveVerdict(r: Remark, role: Role, run: RunId, key: string, code: Code, comment: bool): Answer {
    if run >= |r.runs| then Err(Conflict)
    else if Given(r.verdicts, run, key) then Ok(r)
    else if code.RejectedBinding? then
      if !role.Pm? then Err(Forbidden)
      else if !r.status.AwaitingPm? || !comment then Err(Conflict)
      else
        Ok(Moved(r, Triaging, Rejected, Some(role), Some(run))
           .(runs := WithRun(r.runs, run, Running), verdicts := r.verdicts + [Verdict(run, key, code)]))
    else
      var next := NextStatusForVerdict(role, r.status, code);
      if next.Err? then Err(next.error)
      else
        Ok(Moved(r, next.value, Decided, Some(role), Some(run))
           .(runs := WithRun(r.runs, run, Persisted), verdicts := r.verdicts + [Verdict(run, key, code)]))
  }

  function LinkDuplicate(r: Remark, role: Role, roundOpen: bool, found: bool): Answer {
    if !role.Pm? then Err(Forbidden)
    else if !roundOpen then Err(Conflict)
    else if !found then Err(NotFound)
    else Ok(Moved(r, r.status, LinkedDuplicate, Some(role), None))
  }

  function MarkReady(r: Remark, role: Role): Answer {
    if !role.Developer? then Err(Forbidden)
    else if !r.status.Defect? then Err(Conflict)
    else Ok(Moved(r, ReadyForRetest, MarkedReady, Some(role), None))
  }

  function BeginRetest(r: Remark, role: Role): Answer {
    if !role.Business? then Err(Forbidden)
    else if !r.status.ReadyForRetest? || RetestRuns(r.runs) then Err(Conflict)
    else
      Ok(Moved(r, ReadyForRetest, StartedRetest, Some(role), Some(|r.runs|))
         .(runs := r.runs + [Run(Retest, Running)], shots := Supersede(r.shots, false, true, true) + [Shot(Retested, false)]))
  }

  function ApplyRetest(r: Remark, run: RunId, outcome: Outcome, diff: bool): Answer {
    if !r.status.ReadyForRetest? then Err(Conflict)
    else if run >= |r.runs| || !r.runs[run].status.Running? then Err(Conflict)
    else
      Ok(Moved(r, AwaitingBusinessClose, RetestResult, None, Some(run))
         .(runs := WithRun(r.runs, run, AwaitingHuman), retestOutcome := Some(outcome),
           shots := Supersede(r.shots, false, false, true) + if diff then [Shot(Diff, false)] else []))
  }

  function Close(r: Remark, role: Role): Answer {
    if !role.Business? then Err(Forbidden)
    else if !CanClose(r.status) || RetestRuns(r.runs) then Err(Conflict)
    else Ok(Moved(r, Closed, ClosedIt, Some(role), None).(runs := SettleRetests(r.runs), closedBy := Some(role)))
  }

  function NotFixed(r: Remark, role: Role): Answer {
    if !role.Business? then Err(Forbidden)
    else if !r.status.AwaitingBusinessClose? then Err(Conflict)
    else
      Ok(Moved(r, Defect, FoundNotFixed, Some(role), None)
         .(runs := SettleRetests(r.runs), retestOutcome := None, shots := Supersede(r.shots, false, true, true)))
  }

  /** The original's part in `reopen`: it stays closed and notes the claim raised again. */
  function NoteReopened(r: Remark, role: Role, roundOpen: bool): Answer {
    if !role.Business? then Err(Forbidden)
    else if !r.status.Closed? || !roundOpen then Err(Conflict)
    else Ok(Moved(r, r.status, ReopenedAs, Some(role), None))
  }

  datatype Command =
    | DoFixRow(role: Role)
    | DoAttach(role: Role)
    | DoBeginTriage(role: Role)
    | DoApplyProposal(run: RunId)
    | DoFailRun(run: RunId)
    | DoCancelRun(role: Role, run: RunId)
    | DoVerdict(role: Role, run: RunId, key: string, code: Code, comment: bool)
    | DoLinkDuplicate(role: Role, roundOpen: bool, found: bool)
    | DoMarkReady(role: Role)
    | DoBeginRetest(role: Role)
    | DoApplyRetest(run: RunId, outcome: Outcome, diff: bool)
    | DoClose(role: Role)
    | DoNotFixed(role: Role)
    | DoNoteReopened(role: Role, roundOpen: bool)

  function Do(r: Remark, c: Command): Answer {
    match c
    case DoFixRow(role) => FixRow(r, role)
    case DoAttach(role) => AttachScreenshot(r, role)
    case DoBeginTriage(role) => BeginTriage(r, role)
    case DoApplyProposal(run) => ApplyProposal(r, run)
    case DoFailRun(run) => FailRun(r, run)
    case DoCancelRun(role, run) => CancelRun(r, role, run)
    case DoVerdict(role, run, key, code, comment) => GiveVerdict(r, role, run, key, code, comment)
    case DoLinkDuplicate(role, roundOpen, found) => LinkDuplicate(r, role, roundOpen, found)
    case DoMarkReady(role) => MarkReady(r, role)
    case DoBeginRetest(role) => BeginRetest(r, role)
    case DoApplyRetest(run, outcome, diff) => ApplyRetest(r, run, outcome, diff)
    case DoClose(role) => Close(r, role)
    case DoNotFixed(role) => NotFixed(r, role)
    case DoNoteReopened(role, roundOpen) => NoteReopened(r, role, roundOpen)
  }

  /** A refused command changes nothing. */
  function Next(r: Remark, c: Command): Remark {
    var answer := Do(r, c);
    if answer.Ok? then answer.value else r
  }

  function After(r: Remark, cs: seq<Command>): Remark {
    if cs == [] then r else Next(After(r, cs[..|cs| - 1]), cs[|cs| - 1])
  }

  /** How a remark begins: by hand, from a journal row, or as a closed claim raised again. */
  ghost predicate IsNew(r: Remark) {
    exists role, action, shots :: BeginsAs(r, role, action, shots)
  }

  predicate BeginsAs(r: Remark, role: Role, action: Action, shots: seq<Shot>) {
    && r == NewRemark(r.status, action, role, shots)
    && (shots == [] || shots == [Shot(Original, false)])
    && match action
       case Created => r.status.Imported? && IsCustomerOrPm(role)
       case ImportedRow => (r.status.Imported? || r.status.NeedsHumanParse?) && IsCustomerOrPm(role)
       case ReopenedHere => r.status.Reopened? && role.Business?
       case _ => false
  }

  // ---------- remark and runs ----------

  predicate LastIs(runs: seq<Run>, mode: Mode, status: RunStatus) {
    runs != [] && runs[|runs| - 1] == Run(mode, status)
  }

  predicate RestInactive(runs: seq<Run>) {
    forall k :: 0 <= k < |runs| - 1 ==> !IsActive(runs[k])
  }

  /** The status of the remark and the state of its newest run agree; older runs are over. */
  predicate Coupled(r: Remark) {
    && RestInactive(r.runs)
    && (r.status.Triaging? <==> LastIs(r.runs, Triage, Running))
    && (r.status.AwaitingPm? <==> LastIs(r.runs, Triage, AwaitingHuman))
    && (r.status.AwaitingBusinessClose? <==> LastIs(r.runs, Retest, AwaitingHuman))
    && (LastIs(r.runs, Retest, Running) ==> r.status.ReadyForRetest?)
  }

  /** The verdict names the run the card shows. */
  predicate NamesCurrentRun(r: Remark, c: Command) {
    c.DoVerdict? && r.status.AwaitingPm? ==> c.run == |r.runs| - 1
  }

  /** A run under way is the newest one, and the status names it. */
  lemma ActiveIsLast(r: Remark, k: RunId)
    requires Coupled(r) && k < |r.runs| && IsActive(r.runs[k])
    ensures k == |r.runs| - 1
    ensures r.status.Triaging? || r.status.AwaitingPm? || CanClose(r.status)
    ensures r.runs[k].mode.Triage? <==> r.status.Triaging? || r.status.AwaitingPm?
    ensures r.status.ReadyForRetest? ==> r.runs[k] == Run(Retest, Running)
  {
  }

  lemma NothingActive(r: Remark)
    requires Coupled(r) && !r.status.Triaging? && !r.status.AwaitingPm? && !r.status.AwaitingBusinessClose?
    requires r.status.ReadyForRetest? ==> !RetestRuns(r.runs)
    ensures forall k :: 0 <= k < |r.runs| ==> !IsActive(r.runs[k])
  {
    forall k | 0 <= k < |r.runs|
      ensures !IsActive(r.runs[k])
    {
      if IsActive(r.runs[k]) { ActiveIsLast(r, k); }
    }
  }

  lemma StartCoupled(r: Remark, c: Command)
    requires Coupled(r) && (c.DoBeginTriage? || c.DoBeginRetest? || c.DoFixRow? || c.DoMarkReady?)
    ensures Coupled(Next(r, c))
  {
    if Do(r, c).Ok? {
      NothingActive(r);
    }
  }

  lemma RunMovesCoupled(r: Remark, c: Command)
    requires Coupled(r) && (c.DoApplyProposal? || c.DoFailRun? || c.DoCancelRun? || c.DoApplyRetest?)
    ensures Coupled(Next(r, c))
  {
    if Do(r, c).Ok? && c.run < |r.runs| && IsActive(r.runs[c.run]) {
      ActiveIsLast(r, c.run);
    }
  }

  lemma CloseCoupled(r: Remark, c: Command)
    requires Coupled(r) && (c.DoClose? || c.DoNotFixed?)
    ensures Coupled(Next(r, c))
  {
    assert forall k :: 0 <= k < |r.runs| - 1 ==> SettleRetests(r.runs)[k] == r.runs[k];
    if Do(r, c).Ok? && r.status.ReadyForRetest? {
      NothingActive(r);
    }
  }

  lemma VerdictCoupled(r: Remark, c: Command)
    requires Coupled(r) && c.DoVerdict? && NamesCurrentRun(r, c)
    ensures Coupled(Next(r, c))
  {
    if r.status.Unspecified? {
      NothingActive(r);
    }
  }

  lemma NextCoupled(r: Remark, c: Command)
    requires Coupled(r) && NamesCurrentRun(r, c)
    ensures Coupled(Next(r, c))
  {
    match c
    case DoBeginTriage(_) => StartCoupled(r, c);
    case DoBeginRetest(_) => StartCoupled(r, c);
    case DoFixRow(_) => StartCoupled(r, c);
    case DoMarkReady(_) => StartCoupled(r, c);
    case DoApplyProposal(_) => RunMovesCoupled(r, c);
    case DoFailRun(_) => RunMovesCoupled(r, c);
    case DoCancelRun(_, _) => RunMovesCoupled(r, c);
    case DoApplyRetest(_, _, _) => RunMovesCoupled(r, c);
    case DoClose(_) => CloseCoupled(r, c);
    case DoNotFixed(_) => CloseCoupled(r, c);
    case DoVerdict(_, _, _, _, _) => VerdictCoupled(r, c);
    case _ =>
  }

  /** A verdict that is written keeps remark and runs in step exactly when it names the newest run, or no run waits for one. */
  lemma VerdictKeepsCouplingIff(r: Remark, c: Command)
    requires Coupled(r) && c.DoVerdict? && Do(r, c).Ok? && !Given(r.verdicts, c.run, c.key)
    ensures Coupled(Next(r, c)) <==> NamesCurrentRun(r, c)
  {
    if NamesCurrentRun(r, c) {
      NextCoupled(r, c);
    } else {
      var next := Next(r, c);
      assert next.runs[|r.runs| - 1] == r.runs[|r.runs| - 1];
      assert LastIs(next.runs, Triage, AwaitingHuman) && !next.status.AwaitingPm?;
    }
  }

  lemma SecondTriage(r: Remark) returns (cs: seq<Command>)
    requires r == NewRemark(Imported, Created, Business, [])
    ensures After(r, cs).status.AwaitingPm? && After(r, cs).verdicts == [Verdict(0, "a", AsCannotTell)]
    ensures After(r, cs).runs == [Run(Triage, Persisted), Run(Triage, AwaitingHuman)]
  {
    cs := [];
    AfterMore(r, cs, DoBeginTriage(Pm));
    cs := cs + [DoBeginTriage(Pm)];
    AfterMore(r, cs, DoApplyProposal(0));
    cs := cs + [DoApplyProposal(0)];
    AfterMore(r, cs, DoVerdict(Pm, 0, "a", AsCannotTell, false));
    cs := cs + [DoVerdict(Pm, 0, "a", AsCannotTell, false)];
    assert After(r, cs).status.CannotTell? && After(r, cs).runs == [Run(Triage, Persisted)];
    AfterMore(r, cs, DoBeginTriage(Pm));
    cs := cs + [DoBeginTriage(Pm)];
    AfterMore(r, cs, DoApplyProposal(1));
    cs := cs + [DoApplyProposal(1)];
  }

  /** Such a remark can be reached: a verdict that names the older of two runs decides the remark while the newer one
      still waits for the PM. */
  lemma StaleVerdictBreaksCoupling(r: Remark) returns (cs: seq<Command>)
    requires r == NewRemark(Imported, Created, Business, [])
    ensures After(r, cs).status.Defect? && LastIs(After(r, cs).runs, Triage, AwaitingHuman) && !Coupled(After(r, cs))
  {
    cs := SecondTriage(r);
    var late := DoVerdict(Pm, 0, "b", AsDefect, false);
    assert "a"[0] != "b"[0];
    AfterMore(r, cs, late);
    cs := cs + [late];
  }

  /** So does a rejection that names it: a run that was over runs again, and its proposal is accepted once more. */
  lemma StaleRejectionReopensRun(r: Remark) returns (cs: seq<Command>, reject: Command)
    requires r == NewRemark(Imported, Created, Business, [])
    ensures reject == DoVerdict(Pm, 0, "b", RejectedBinding, true)
    ensures After(r, cs).runs == [Run(Triage, Persisted), Run(Triage, AwaitingHuman)]
    ensures After(r, cs + [reject]).runs == [Run(Triage, Running), Run(Triage, AwaitingHuman)]
    ensures Do(After(r, cs + [reject]), DoApplyProposal(0)).Ok?
  {
    cs := SecondTriage(r);
    reject := DoVerdict(Pm, 0, "b", RejectedBinding, true);
    assert "a"[0] != "b"[0];
    AfterMore(r, cs, reject);
  }

  lemma AfterMore(r: Remark, cs: seq<Command>, c: Command)
    ensures After(r, cs + [c]) == Next(After(r, cs), c)
  {
    assert (cs + [c])[..|cs|] == cs;
  }

  // ---------- verdicts once ----------

  lemma NextKeepsVerdicts(r: Remark, c: Command)
    ensures r.verdicts <= Next(r, c).verdicts && |r.runs| <= |Next(r, c).runs|
  {
  }

  lemma {:induction false} VerdictsAreKept(r: Remark, cs: seq<Command>, more: seq<Command>)
    ensures After(r, cs).verdicts <= After(r, cs + more).verdicts && |After(r, cs).runs| <= |After(r, cs + more).runs|
    decreases |more|
  {
    if more == [] {
      assert cs + more == cs;
    } else {
      var n := |more| - 1;
      VerdictsAreKept(r, cs, more[..n]);
      assert cs + more == cs + more[..n] + [more[n]];
      AfterMore(r, cs + more[..n], more[n]);
      NextKeepsVerdicts(After(r, cs + more[..n]), more[n]);
    }
  }

  /** Once a verdict is written, sending its key again - at any later time, with any code, by anyone - changes nothing. */
  lemma RepeatedKeyChangesNothing(r: Remark, cs: seq<Command>, more: seq<Command>, c: Command)
    requires c.DoVerdict? && c.run < |After(r, cs).runs| && Given(After(r, cs).verdicts, c.run, c.key)
    ensures After(r, cs + more + [c]) == After(r, cs + more) && Do(After(r, cs + more), c).Ok?
  {
    VerdictsAreKept(r, cs, more);
    var k :| 0 <= k < |After(r, cs).verdicts|
             && After(r, cs).verdicts[k].run == c.run && After(r, cs).verdicts[k].key == c.key;
    assert After(r, cs + more).verdicts[k] == After(r, cs).verdicts[k];
    AfterMore(r, cs + more, c);
  }

  /** No key is written twice for a run. */
  ghost predicate KeysOnce(verdicts: seq<Verdict>) {
    forall j, k :: 0 <= j < k < |verdicts| ==> verdicts[j].run != verdicts[k].run || verdicts[j].key != verdicts[k].key
  }

  lemma {:induction false} VerdictsAreUnique(r: Remark, cs: seq<Command>)
    requires KeysOnce(r.verdicts)
    ensures KeysOnce(After(r, cs).verdicts)
  {
    if cs != [] {
      var before, c := After(r, cs[..|cs| - 1]), cs[|cs| - 1];
      VerdictsAreUnique(r, cs[..|cs| - 1]);
      if c.DoVerdict? && Next(before, c).verdicts != before.verdicts {
        assert Next(before, c).verdicts == before.verdicts + [Verdict(c.run, c.key, c.code)];
        assert forall k :: 0 <= k < |before.verdicts| ==> before.verdicts[k].run != c.run || before.verdicts[k].key != c.key;
      }
    }
  }
}
