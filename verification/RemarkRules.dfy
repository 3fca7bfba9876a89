/** Who may do what to a remark and what a verdict does: the rules of docs/STATUS.md against the operations
    (remarks/remarks.service.ts), and the history as the record of all that was decided. */
module RemarkRules {
  import opened Prelude
  import opened Remarks
  import opened RemarkHistory
  import O = Optimistic

  // ---------- who may do what ----------

  predicate CustomerOrPm(role: Role) {
    role == Business || role == Pm
  }

  /** The role may give this command at all; the system gives the others. */
  predicate RoleMay(r: Remark, c: Command) {
    match c
    case DoFixRow(role) => CustomerOrPm(role)
    case DoAttach(role) => CustomerOrPm(role)
    case DoBeginTriage(role) => CustomerOrPm(role)
    case DoCancelRun(role, _) => CustomerOrPm(role)
    case DoLinkDuplicate(role, _, _) => role == Pm
    case DoMarkReady(role) => role == Developer
    case DoBeginRetest(role) => role == Business
    case DoClose(role) => role == Business
    case DoNotFixed(role) => role == Business
    case DoNoteReopened(role, _) => role == Business
    case DoVerdict(role, _, _, code, _) =>
      if code == RejectedBinding || r.status == AwaitingPm then role == Pm
      else r.status == Unspecified && (code == AsDefect || code == AsChangeRequest) ==> CustomerOrPm(role)
    case _ => true
  }

  predicate Runs(r: Remark, run: RunId) {
    run < |r.runs| && r.runs[run].status == Running
  }

  /** The remark is where the command needs it. */
  predicate Ready(r: Remark, c: Command) {
    match c
    case DoFixRow(_) => r.status == NeedsHumanParse
    case DoAttach(_) => r.status == CannotTell || r.status == Imported
    case DoBeginTriage(_) => r.status == Imported || r.status == CannotTell || r.status == Reopened
    case DoApplyProposal(run) => r.status == Triaging && Runs(r, run)
    case DoFailRun(_) => true
    case DoCancelRun(_, run) => run < |r.runs|
    case DoVerdict(_, run, _, code, comment) =>
      && run < |r.runs|
      && if code == RejectedBinding then r.status == AwaitingPm && comment
         else r.status == AwaitingPm || (r.status == Unspecified && (code == AsDefect || code == AsChangeRequest))
    case DoLinkDuplicate(_, roundOpen, found) => roundOpen && found
    case DoMarkReady(_) => r.status == Defect
    case DoBeginRetest(_) => r.status == ReadyForRetest && Run(Retest, Running) !in r.runs
    case DoApplyRetest(run, _, _) => r.status == ReadyForRetest && Runs(r, run)
    case DoClose(_) => (r.status == ReadyForRetest || r.status == AwaitingBusinessClose) && Run(Retest, Running) !in r.runs
    case DoNotFixed(_) => r.status == AwaitingBusinessClose
    case DoNoteReopened(_, roundOpen) => r.status == Closed && roundOpen
  }

  /** A verdict of this run that was written with this key before. */
  predicate Repeats(r: Remark, c: Command) {
    c.DoVerdict? && c.run < |r.runs| && exists k :: 0 <= k < |r.verdicts| && r.verdicts[k].run == c.run && r.verdicts[k].key == c.key
  }

  /** A command is accepted if and only if its role may give it and the remark is ready for it, or it repeats a verdict. */
  lemma AcceptedIff(r: Remark, c: Command)
    ensures Do(r, c).Ok? <==> Repeats(r, c) || (RoleMay(r, c) && Ready(r, c))
    ensures Repeats(r, c) ==> Do(r, c) == Ok(r)
  {
  }

  /** The answer to a command that is refused: forbidden to the role, unless it is a verdict on a run the remark does not have;
      not found, if it is an original that is not there; and else in conflict with where the remark is. */
  lemma RefusedWith(r: Remark, c: Command)
    requires Do(r, c).Err?
    ensures Do(r, c).error == Forbidden <==> !RoleMay(r, c) && !(c.DoVerdict? && c.run >= |r.runs|)
    ensures Do(r, c).error == NotFound <==> c.DoLinkDuplicate? && RoleMay(r, c) && c.roundOpen
  {
  }

  // ---------- what a verdict does ----------

  /** A written verdict decides the remark by its code, each of the five codes its own status; a rejection sends it back. */
  lemma VerdictDecides(r: Remark, c: Command)
    requires c.DoVerdict? && Do(r, c).Ok? && !Repeats(r, c)
    ensures var status := Next(r, c).status;
            && (status == Defect <==> c.code == AsDefect) && (status == ChangeRequest <==> c.code == AsChangeRequest)
            && (status == Unspecified <==> c.code == AsUnspecified) && (status == Duplicate <==> c.code == AsDuplicate)
            && (status == CannotTell <==> c.code == AsCannotTell) && (status == Triaging <==> c.code == RejectedBinding)
    ensures Next(r, c).verdicts == r.verdicts + [Verdict(c.run, c.key, c.code)]
  {
  }

  /** The row a verdict leaves in the history. */
  ghost predicate Tells(row: Row, v: Verdict) {
    && row.run == Some(v.run)
    && match v.code
       case AsDefect => row.action == Decided && row.to == Defect
       case AsChangeRequest => row.action == Decided && row.to == ChangeRequest
       case AsUnspecified => row.action == Decided && row.to == Unspecified
       case AsDuplicate => row.action == Decided && row.to == Duplicate
       case AsCannotTell => row.action == Decided && row.to == CannotTell
       case RejectedBinding => row.action == Rejected && row.to == Triaging
  }

  /** The rows of verdicts, in order. */
  function Decisions(h: seq<Row>): seq<Row> {
    if h == [] then []
    else
      var last := h[|h| - 1];
      Decisions(h[..|h| - 1]) + if last.action == Decided || last.action == Rejected then [last] else []
  }

  ghost predicate AllTold(h: seq<Row>, verdicts: seq<Verdict>) {
    |Decisions(h)| == |verdicts| && forall k :: 0 <= k < |verdicts| ==> Tells(Decisions(h)[k], verdicts[k])
  }

  lemma DecisionsMore(h: seq<Row>, row: Row)
    ensures Decisions(h + [row]) == Decisions(h) + if row.action == Decided || row.action == Rejected then [row] else []
  {
    assert (h + [row])[..|h|] == h;
  }

  /** One row more, and the verdict it tells, or none. */
  ghost predicate AddsTold(r: Remark, next: Remark, row: Row) {
    && next.history == r.history + [row]
    && if row.action == Decided || row.action == Rejected then
         next.verdicts != [] && next.verdicts[..|next.verdicts| - 1] == r.verdicts && Tells(row, next.verdicts[|next.verdicts| - 1])
       else next.verdicts == r.verdicts
  }

  lemma ToldMore(r: Remark, next: Remark, row: Row)
    requires AllTold(r.history, r.verdicts) && AddsTold(r, next, row)
    ensures AllTold(next.history, next.verdicts)
  {
    DecisionsMore(r.history, row);
  }

  lemma VerdictTold(r: Remark, c: Command, row: Row)
    requires c.DoVerdict? && Do(r, c).Ok? && Next(r, c) != r && row == Next(r, c).history[|r.history|]
    ensures AddsTold(r, Next(r, c), row)
  {
  }

  lemma OtherTold(r: Remark, c: Command, row: Row)
    requires !c.DoVerdict? && Do(r, c).Ok? && |Next(r, c).history| == |r.history| + 1 && row == Next(r, c).history[|r.history|]
    ensures AddsTold(r, Next(r, c), row)
  {
  }

  lemma ToldNext(r: Remark, c: Command)
    requires AllTold(r.history, r.verdicts)
    ensures AllTold(Next(r, c).history, Next(r, c).verdicts)
  {
    if Next(r, c) != r {
      NextRow(r, c);
      var row := Next(r, c).history[|r.history|];
      if c.DoVerdict? { VerdictTold(r, c, row); } else { OtherTold(r, c, row); }
      ToldMore(r, Next(r, c), row);
    }
  }

  /** In every run of a remark the verdicts are the decisions of its history, one by one: same run, and the status each
      code stands for. */
  lemma {:induction false} VerdictsAreDecisions(r: Remark, cs: seq<Command>)
    requires IsNew(r)
    ensures AllTold(After(r, cs).history, After(r, cs).verdicts)
  {
    if cs == [] {
      var role, action, shots :| BeginsAs(r, role, action, shots);
      DecisionsMore([], r.history[0]);
      assert [] + [r.history[0]] == r.history;
    } else {
      VerdictsAreDecisions(r, cs[..|cs| - 1]);
      ToldNext(After(r, cs[..|cs| - 1]), cs[|cs| - 1]);
    }
  }

  lemma CommitTold(r: Remark, call: O.Call)
    requires O.Starts(call.seen, call.c) && O.IsEarlier(call.seen.runs, r.runs) && O.Commit(r, call).Some?
    ensures var next := O.Commit(r, call).value;
            next == r || (|next.history| == |r.history| + 1 && AddsTold(r, next, next.history[|r.history|]))
  {
  }

  /** So it is however requests interleave. */
  lemma {:induction false} InterleavedVerdictsAreDecisions(r: Remark, es: seq<O.Event>)
    requires IsNew(r)
    ensures AllTold(O.After(r, es).r.history, O.After(r, es).r.verdicts)
  {
    if es == [] {
      VerdictsAreDecisions(r, []);
    } else {
      var s, e := O.After(r, es[..|es| - 1]), es[|es| - 1];
      InterleavedVerdictsAreDecisions(r, es[..|es| - 1]);
      match e
      case Begin(_) =>
      case AtOnce(c) => ToldNext(s.r, c);
      case Finish(k) =>
        if k < |s.calls| {
          assert O.Earlier(s, k);
          CommitStepTold(s.r, s.calls[k]);
        }
    }
  }

  lemma CommitStepTold(r: Remark, call: O.Call)
    requires O.Starts(call.seen, call.c) && O.IsEarlier(call.seen.runs, r.runs) && AllTold(r.history, r.verdicts)
    ensures var done := O.Commit(r, call); done.Some? ==> AllTold(done.value.history, done.value.verdicts)
  {
    if O.Commit(r, call).Some? && O.Commit(r, call).value != r {
      CommitTold(r, call);
      ToldMore(r, O.Commit(r, call).value, O.Commit(r, call).value.history[|r.history|]);
    }
  }

  // ---------- the history tells the runs ----------

  function MovedTo(runs: seq<Run>, run: Option<RunId>, status: RunStatus): (after: seq<Run>)
    ensures |after| == |runs|
  {
    if run.Some? && run.value < |runs| then runs[run.value := Run(runs[run.value].mode, status)] else runs
  }

  /** Retests that waited for the customer are over. */
  function Over(runs: seq<Run>): (after: seq<Run>)
    ensures |after| == |runs|
    ensures forall k :: 0 <= k < |runs| ==> after[k] == if runs[k] == Run(Retest, AwaitingHuman) then Run(Retest, Persisted) else runs[k]
  {
    seq(|runs|, k requires 0 <= k < |runs| => if runs[k] == Run(Retest, AwaitingHuman) then Run(Retest, Persisted) else runs[k])
  }

  function Moves(runs: seq<Run>, row: Row): seq<Run> {
    match row.action
    case StartedTriage => runs + [Run(Triage, Running)]
    case StartedRetest => runs + [Run(Retest, Running)]
    case Proposed => MovedTo(runs, row.run, AwaitingHuman)
    case RetestResult => MovedTo(runs, row.run, AwaitingHuman)
    case RunFailed => MovedTo(runs, row.run, Failed)
    case CancelledRun => MovedTo(runs, row.run, Cancelled)
    case Rejected => MovedTo(runs, row.run, Running)
    case Decided => MovedTo(runs, row.run, Persisted)
    case ClosedIt => Over(runs)
    case FoundNotFixed => Over(runs)
    case _ => runs
  }

  function RunsTold(h: seq<Row>): seq<Run> {
    if h == [] then [] else Moves(RunsTold(h[..|h| - 1]), h[|h| - 1])
  }

  lemma RunsMove(r: Remark, c: Command, row: Row)
    requires Do(r, c).Ok? && Next(r, c).history == r.history + [row]
    ensures Next(r, c).runs == Moves(r.runs, row)
  {
    assert (r.history + [row])[|r.history|] == row;
    if c.DoClose? || c.DoNotFixed? {
      assert SettleRetests(r.runs) == Over(r.runs);
    }
  }

  /** The runs of a remark, their modes and where they stand, can be told from its history alone. */
  lemma {:induction false} HistoryTellsRuns(r: Remark, cs: seq<Command>)
    requires IsNew(r)
    ensures After(r, cs).runs == RunsTold(After(r, cs).history)
  {
    if cs == [] {
      assert r.history[..0] == [];
    } else {
      var before, c := After(r, cs[..|cs| - 1]), cs[|cs| - 1];
      HistoryTellsRuns(r, cs[..|cs| - 1]);
      if Next(before, c) != before {
        NextRow(before, c);
        var row := Next(before, c).history[|before.history|];
        assert Next(before, c).history == before.history + [row];
        RunsMove(before, c, row);
        assert (before.history + [row])[..|before.history|] == before.history;
      }
    }
  }

  // ---------- frames and the outcome of a retest ----------

  /** A cancelled comparison that was the newest run takes the remark back to where it waits for one. */
  predicate TakesBack(r: Remark, c: Command) {
    && c.DoCancelRun? && c.run == |r.runs| - 1
    && (r.runs[c.run] == Run(Retest, Running) || r.runs[c.run] == Run(Retest, AwaitingHuman))
    && (r.status == ReadyForRetest || r.status == AwaitingBusinessClose)
  }

  /** The frames a command replaces. */
  predicate Replaces(r: Remark, c: Command, kind: Kind) {
    match kind
    case Original => c.DoAttach?
    case Retested => c.DoBeginRetest? || c.DoNotFixed? || TakesBack(r, c)
    case Diff => c.DoBeginRetest? || c.DoNotFixed? || c.DoApplyRetest? || TakesBack(r, c)
  }

  /** And the one it adds. */
  function NewFrames(c: Command): seq<Shot> {
    if c.DoAttach? then [Shot(Original, false)]
    else if c.DoBeginRetest? then [Shot(Retested, false)]
    else if c.DoApplyRetest? && c.diff then [Shot(Diff, false)]
    else []
  }

  /** The frames after it: those of the kinds it replaces are marked, no other changes, and its own come behind them. */
  ghost predicate FramesAre(before: seq<Shot>, after: seq<Shot>, originals: bool, retests: bool, diffs: bool, more: seq<Shot>) {
    && |after| == |before| + |more| && after[|before|..] == more
    && forall k :: 0 <= k < |before| ==> FrameIs(before[k], after[k], originals, retests, diffs)
  }

  predicate FrameIs(was: Shot, now: Shot, originals: bool, retests: bool, diffs: bool) {
    && now.kind == was.kind
    && (now.superseded <==> was.superseded || (was.kind == Original && originals) || (was.kind == Retested && retests)
                            || (was.kind == Diff && diffs))
  }

  lemma SupersedeIs(shots: seq<Shot>, originals: bool, retests: bool, diffs: bool, more: seq<Shot>)
    ensures FramesAre(shots, Supersede(shots, originals, retests, diffs) + more, originals, retests, diffs, more)
  {
    var after := Supersede(shots, originals, retests, diffs) + more;
    assert after[|shots|..] == more;
  }

  lemma FramesStay(shots: seq<Shot>)
    ensures FramesAre(shots, shots, false, false, false, [])
  {
  }

  /** What an accepted command does to the frames: it marks exactly those it replaces, and adds its own. */
  lemma FramesChange(r: Remark, c: Command)
    requires Do(r, c).Ok?
    ensures FramesAre(r.shots, Next(r, c).shots, Replaces(r, c, Original), Replaces(r, c, Retested), Replaces(r, c, Diff), NewFrames(c))
  {
    SupersedeIs(r.shots, Replaces(r, c, Original), Replaces(r, c, Retested), Replaces(r, c, Diff), NewFrames(c));
    FramesStay(r.shots);
    var same := Supersede(r.shots, false, true, true);
    assert same + [] == same;
    MarkedAs(r, c);
  }

  lemma MarkedAs(r: Remark, c: Command)
    requires Do(r, c).Ok?
    ensures var marked := Supersede(r.shots, Replaces(r, c, Original), Replaces(r, c, Retested), Replaces(r, c, Diff));
            Next(r, c).shots == (if Replaces(r, c, Diff) || Replaces(r, c, Original) then marked + NewFrames(c) else r.shots)
    ensures !Replaces(r, c, Diff) && !Replaces(r, c, Original) ==> NewFrames(c) == [] && !Replaces(r, c, Retested)
  {
    var marked := Supersede(r.shots, Replaces(r, c, Original), Replaces(r, c, Retested), Replaces(r, c, Diff));
    assert marked + [] == marked;
  }

  /** What it does to the outcome of a retest, to who closed and to the verdicts. */
  lemma OutcomeChanges(r: Remark, c: Command)
    requires Do(r, c).Ok?
    ensures Next(r, c).retestOutcome
         == if c.DoApplyRetest? then Some(c.outcome) else if c.DoNotFixed? || TakesBack(r, c) then None else r.retestOutcome
    ensures Next(r, c).closedBy == if c.DoClose? then Some(c.role) else r.closedBy
    ensures !c.DoVerdict? ==> Next(r, c).verdicts == r.verdicts
  {
  }

  /** The row of each command: from the status there was, by whom and about which run. */
  lemma RowTells(r: Remark, c: Command)
    requires Do(r, c).Ok? && Next(r, c) != r
    ensures |Next(r, c).history| == |r.history| + 1 && Next(r, c).history[..|r.history|] == r.history
    ensures var row := Next(r, c).history[|r.history|];
            && row.from == Some(r.status) && row.to == Next(r, c).status
            && row.role == (if c.DoApplyProposal? || c.DoFailRun? || c.DoApplyRetest? then None else Some(c.role))
            && row.run == (if c.DoBeginTriage? || c.DoBeginRetest? then Some(|r.runs|)
                           else if c.DoApplyProposal? || c.DoFailRun? || c.DoApplyRetest? || c.DoCancelRun? || c.DoVerdict? then Some(c.run)
                           else None)
            && row.action == match c
                             case DoFixRow(_) => FixedRow
                             case DoAttach(_) => AttachedScreenshot
                             case DoBeginTriage(_) => StartedTriage
                             case DoApplyProposal(_) => Proposed
                             case DoFailRun(_) => RunFailed
                             case DoCancelRun(_, _) => CancelledRun
                             case DoVerdict(_, _, _, code, _) => if code == RejectedBinding then Rejected else Decided
                             case DoLinkDuplicate(_, _, _) => LinkedDuplicate
                             case DoMarkReady(_) => MarkedReady
                             case DoBeginRetest(_) => StartedRetest
                             case DoApplyRetest(_, _, _) => RetestResult
                             case DoClose(_) => ClosedIt
                             case DoNotFixed(_) => FoundNotFixed
                             case DoNoteReopened(_, _) => ReopenedAs
  {
  }

  /** The status after each accepted command. */
  lemma StatusAfter(r: Remark, c: Command)
    requires Do(r, c).Ok? && !c.DoVerdict?
    ensures var status := Next(r, c).status;
            match c
            case DoFixRow(_) => status == Imported
            case DoBeginTriage(_) => status == Triaging
            case DoApplyProposal(_) => status == AwaitingPm
            case DoFailRun(run) =>
              status == if Runs(r, run) && r.runs[run].mode == Triage && r.status == Triaging then Imported else r.status
            case DoCancelRun(_, run) =>
              status == if TakesBack(r, c) then ReadyForRetest
                        else if run == |r.runs| - 1 && (r.runs[run] == Run(Triage, Running) || r.runs[run] == Run(Triage, AwaitingHuman))
                                && (r.status == Triaging || r.status == AwaitingPm) then Imported
                        else r.status
            case DoMarkReady(_) => status == ReadyForRetest
            case DoApplyRetest(_, _, _) => status == AwaitingBusinessClose
            case DoClose(_) => status == Closed
            case DoNotFixed(_) => status == Defect
            case _ => status == r.status
  {
  }
}
