/**
 * The same operations as two requests interleave them (remarks/remarks.service.ts): a request reads the remark and checks
 * what it read; its transaction comes later, on a row others may have changed, guarded only by the status it expects.
 */
module Optimistic {
  import opened Prelude
  import opened Remarks
  import H = RemarkHistory

  /** A request between its read and its transaction. */
  datatype Call = Call(c: Command, seen: Remark)

  /** These read and write in one step here. */
  predicate IsOneStep(c: Command) {
    c.DoFailRun? || c.DoAttach? || c.DoLinkDuplicate? || c.DoNoteReopened?
  }

  /** The checks on what was read pass, and there is something to write. */
  predicate Starts(seen: Remark, c: Command) {
    !IsOneStep(c) && Do(seen, c).Ok? && Do(seen, c).value != seen
  }

  /** The conditional write of the status with its row; what the row says of the status before is what was read. */
  function Transition(r: Remark, seen: Remark, to: Status, action: Action, role: Option<Role>, run: Option<RunId>): Remark {
    r.(status := to, history := r.history + [Row(Some(seen.status), to, action, role, run)])
  }

  /** Whether and what the transaction of a request writes; nothing when it is rolled back. */
  function Commit(r: Remark, call: Call): Option<Remark>
    requires Starts(call.seen, call.c) && IsEarlier(call.seen.runs, r.runs)
  {
    var seen := call.seen;
    match call.c
    case DoFixRow(role) =>
      if r.status.NeedsHumanParse? then Some(Transition(r, seen, Imported, FixedRow, Some(role), None)) else None
    case DoBeginTriage(role) =>
      if CanTriage(r.status)
      then Some(Transition(r, seen, Triaging, StartedTriage, Some(role), Some(|r.runs|)).(runs := r.runs + [Run(Triage, Running)]))
      else None
    case DoApplyProposal(run) =>
      if r.status.Triaging?
      then Some(Transition(r, seen, AwaitingPm, Proposed, None, Some(run)).(runs := WithRun(r.runs, run, AwaitingHuman)))
      else None
    case DoCancelRun(role, run) => Some(CommitCancel(r, seen, role, run))
    case DoVerdict(role, run, key, code, _) =>
      if r.status != seen.status || Given(r.verdicts, run, key) then None
      else if code.RejectedBinding? then
        Some(Transition(r, seen, Triaging, Rejected, Some(role), Some(run))
             .(runs := WithRun(r.runs, run, Running), verdicts := r.verdicts + [Verdict(run, key, code)]))
      else
        Some(Transition(r, seen, NextStatusForVerdict(role, seen.status, code).value, Decided, Some(role), Some(run))
             .(runs := WithRun(r.runs, run, Persisted), verdicts := r.verdicts + [Verdict(run, key, code)]))
    case DoMarkReady(role) =>
      if r.status.Defect? then Some(Transition(r, seen, ReadyForRetest, MarkedReady, Some(role), None)) else None
    case DoBeginRetest(role) =>
      if r.status.ReadyForRetest?
      then
        Some(Transition(r, seen, ReadyForRetest, StartedRetest, Some(role), Some(|r.runs|))
             .(runs := r.runs + [Run(Retest, Running)], shots := Supersede(r.shots, false, true, true) + [Shot(Retested, false)]))
      else None
    case DoApplyRetest(run, outcome, diff) =>
      if r.status.ReadyForRetest?
      then
        Some(Transition(r, seen, AwaitingBusinessClose, RetestResult, None, Some(run))
             .(runs := WithRun(r.runs, run, AwaitingHuman), retestOutcome := Some(outcome),
               shots := Supersede(r.shots, false, false, true) + if diff then [Shot(Diff, false)] else []))
      else None
    case DoClose(role) =>
      if r.status == seen.status && !RetestRuns(r.runs)
      then Some(Transition(r, seen, Closed, ClosedIt, Some(role), None).(runs := SettleRetests(r.runs), closedBy := Some(role)))
      else None
    case DoNotFixed(role) =>
      if r.status.AwaitingBusinessClose?
      then
        Some(Transition(r, seen, Defect, FoundNotFixed, Some(role), None)
             .(runs := SettleRetests(r.runs), retestOutcome := None, shots := Supersede(r.shots, false, true, true)))
      else None
    case _ => None
  }

  /** The transaction of `cancelRun`: it never rolls back, but writes only what is still as expected. */
  function CommitCancel(r: Remark, seen: Remark, role: Role, run: RunId): Remark
    requires run < |seen.runs| <= |r.runs|
  {
    var latest := run == |seen.runs| - 1;
    var toImported :=
      latest && seen.runs[run].mode.Triage? && (seen.status.Triaging? || seen.status.AwaitingPm?)
      && (r.status.Triaging? || r.status.AwaitingPm?);
    var toReady := latest && seen.runs[run].mode.Retest? && CanClose(seen.status) && CanClose(r.status);
    var stopped := IsActive(r.runs[run]);
    var moved :=
      if toImported then r.(status := Imported)
      else if toReady then
        r.(status := ReadyForRetest, retestOutcome := None, shots := Supersede(r.shots, false, true, true))
      else r;
    var to := if toImported then Imported else if toReady then ReadyForRetest else seen.status;
    if !stopped && !toImported && !toReady then r
    else
      moved.(runs := if stopped then WithRun(r.runs, run, Cancelled) else r.runs,
             history := r.history + [Row(Some(seen.status), to, CancelledRun, Some(role), Some(run))])
  }

  datatype System = System(r: Remark, calls: seq<Call>)

  datatype Event = Begin(c: Command) | Finish(k: nat) | AtOnce(c: Command)

  /** One step of any request: a read whose checks pass opens a call, a transaction ends one. */
  function Step(s: System, e: Event): System
    requires Waiting(s)
  {
    match e
    case Begin(c) => if Starts(s.r, c) then s.(calls := s.calls + [Call(c, s.r)]) else s
    case AtOnce(c) => if IsOneStep(c) then s.(r := Next(s.r, c)) else s
    case Finish(k) =>
      if k >= |s.calls| then s
      else
        assert Earlier(s, k);
        var done := Commit(s.r, s.calls[k]);
        System(if done.Some? then done.value else s.r, s.calls[..k] + s.calls[k + 1..])
  }

  /** The calls under way have read an earlier state of the remark. */
  predicate Waiting(s: System) {
    forall k :: 0 <= k < |s.calls| ==> Earlier(s, k)
  }

  /** Runs are only added, and keep their mode. */
  predicate IsEarlier(before: seq<Run>, after: seq<Run>) {
    |before| <= |after| && forall k :: 0 <= k < |before| ==> after[k].mode == before[k].mode
  }

  predicate Earlier(s: System, k: nat)
    requires k < |s.calls|
  {
    Starts(s.calls[k].seen, s.calls[k].c) && IsEarlier(s.calls[k].seen.runs, s.r.runs)
  }

  // ---------- one transaction ----------

  /** Every transaction that changes the status moves it along an arrow that leaves the status the row has then. */
  lemma CommitIsLegal(r: Remark, call: Call)
    requires Starts(call.seen, call.c) && IsEarlier(call.seen.runs, r.runs) && Commit(r, call).Some?
    ensures Commit(r, call).value.status == r.status || H.Edge(r.status, Commit(r, call).value.status)
    ensures IsEarlier(r.runs, Commit(r, call).value.runs)
  {
  }

  /** If nothing came between, read and transaction are the operation as one step. */
  lemma UndisturbedIsAtomic(r: Remark, c: Command)
    requires Starts(r, c)
    ensures Commit(r, Call(c, r)) == Some(Do(r, c).value)
  {
  }

  /** Guarded by status and key alone, yet whatever came between, these are the operation as one step at the moment of the
      transaction; rolled back only where that step would be refused or would write nothing. */
  predicate IsRefined(c: Command) {
    c.DoFixRow? || c.DoVerdict? || c.DoMarkReady? || c.DoClose? || c.DoNotFixed?
  }

  lemma CommitRefines(r: Remark, call: Call)
    requires Starts(call.seen, call.c) && IsEarlier(call.seen.runs, r.runs) && IsRefined(call.c)
    ensures Commit(r, call).Some? ==> Do(r, call.c) == Ok(Commit(r, call).value)
    ensures Commit(r, call).None? && r.status == call.seen.status ==> Do(r, call.c).Err? || Do(r, call.c).value == r
  {
  }

  /** What a proposal, a retest result or a new retest needs besides the status, and no longer checks. */
  predicate StillRuns(r: Remark, c: Command) {
    match c
    case DoApplyProposal(run) => run < |r.runs| && r.runs[run].status.Running?
    case DoApplyRetest(run, _, _) => run < |r.runs| && r.runs[run].status.Running?
    case DoBeginRetest(_) => !RetestRuns(r.runs)
    case _ => true
  }

  /** These are the operation as one step exactly when what they read of the runs still holds. */
  lemma RunWritesRefineIff(r: Remark, call: Call)
    requires Starts(call.seen, call.c) && IsEarlier(call.seen.runs, r.runs) && Commit(r, call).Some?
    requires call.c.DoApplyProposal? || call.c.DoApplyRetest? || call.c.DoBeginRetest?
    ensures Do(r, call.c) == Ok(Commit(r, call).value) <==> StillRuns(r, call.c)
    ensures Do(r, call.c).Err? <==> !StillRuns(r, call.c)
  {
  }

  /** The newest run, under way in a status that cancelling it moves. */
  predicate CancelMoves(r: Remark, run: RunId)
    requires run < |r.runs|
  {
    && run == |r.runs| - 1
    && if r.runs[run].mode.Triage? then r.status.Triaging? || r.status.AwaitingPm? else CanClose(r.status)
  }

  /** Sending the remark back to `ready_for_retest` would change nothing of it. */
  predicate NothingToSendBack(r: Remark) {
    r.status.ReadyForRetest? && r.retestOutcome.None? && Supersede(r.shots, false, true, true) == r.shots
  }

  /** Whether what a cancel read and what it finds lead to the same: while its run is still active, the same status and
      the same answer to whether the remark moves; once its run is over, that the remark would not move. */
  predicate CancelStillFits(r: Remark, seen: Remark, run: RunId)
    requires run < |r.runs| && run < |seen.runs|
  {
    if IsActive(r.runs[run]) then
      r.status == seen.status && ((CancelMoves(r, run) <==> CancelMoves(seen, run)) || NothingToSendBack(r))
    else
      !(CancelMoves(seen, run)
        && if seen.runs[run].mode.Triage? then r.status.Triaging? || r.status.AwaitingPm? else CanClose(r.status))
  }

  /** A cancel is the operation as one step exactly then. */
  lemma CancelRefinesIff(r: Remark, call: Call)
    requires Starts(call.seen, call.c) && IsEarlier(call.seen.runs, r.runs) && call.c.DoCancelRun?
    ensures Do(r, call.c) == Ok(Commit(r, call).value) <==> CancelStillFits(r, call.seen, call.c.run)
  {
    var seen, role, run := call.seen, call.c.role, call.c.run;
    var done, atomic := CommitCancel(r, seen, role, run), CancelRun(r, role, run).value;
    assert CancelRun(r, role, run).Ok?;
    if IsActive(r.runs[run]) {
      assert done.history[|r.history|].from == Some(seen.status) && atomic.history[|r.history|].from == Some(r.status);
    } else if done != r {
      assert |done.history| == |r.history| + 1;
    }
  }

  /** Alike but for what the newest row says of the status before. */
  predicate SameButFrom(a: Remark, b: Remark) {
    && a.history != [] && |a.history| == |b.history|
    && a.history[..|a.history| - 1] == b.history[..|b.history| - 1]
    && a.history[|a.history| - 1].(from := None) == b.history[|b.history| - 1].(from := None)
    && a.(history := []) == b.(history := [])
  }

  /** A triage begun is the operation as one step, but for the status its row names; and that is right exactly when the
      status did not change in between. */
  lemma TriageRefinesButFrom(r: Remark, call: Call)
    requires Starts(call.seen, call.c) && IsEarlier(call.seen.runs, r.runs) && call.c.DoBeginTriage?
    ensures Commit(r, call).Some? <==> Do(r, call.c).Ok?
    ensures Commit(r, call).Some? ==> SameButFrom(Commit(r, call).value, Do(r, call.c).value)
    ensures Commit(r, call).Some? ==> (Commit(r, call).value == Do(r, call.c).value <==> r.status == call.seen.status)
  {
    if Commit(r, call).Some? {
      var a, b := Commit(r, call).value, Do(r, call.c).value;
      var n := |r.history|;
      assert a.history[..n] == r.history == b.history[..n];
      assert a.history[n].from == Some(call.seen.status) && b.history[n].from == Some(r.status);
    }
  }

  // ---------- all interleavings ----------

  lemma OneStepRuns(r: Remark, c: Command)
    ensures IsOneStep(c) ==> IsEarlier(r.runs, Next(r, c).runs)
  {
  }

  lemma StepWaits(s: System, e: Event)
    requires Waiting(s)
    ensures Waiting(Step(s, e)) && IsEarlier(s.r.runs, Step(s, e).r.runs)
  {
    var after := Step(s, e);
    if e.AtOnce? { OneStepRuns(s.r, e.c); }
    if e.Finish? && e.k < |s.calls| {
      assert Earlier(s, e.k);
      if Commit(s.r, s.calls[e.k]).Some? { CommitIsLegal(s.r, s.calls[e.k]); }
    }
    forall k | 0 <= k < |after.calls|
      ensures Earlier(after, k)
    {
      if e.Finish? && e.k < |s.calls| && e.k <= k {
        assert after.calls[k] == s.calls[k + 1] && Earlier(s, k + 1);
      } else if k < |s.calls| {
        assert after.calls[k] == s.calls[k] && Earlier(s, k);
      }
    }
  }

  function After(r: Remark, es: seq<Event>): (s: System)
    ensures Waiting(s)
  {
    if es == [] then System(r, [])
    else
      var s := After(r, es[..|es| - 1]);
      StepWaits(s, es[|es| - 1]);
      Step(s, es[|es| - 1])
  }

  lemma StepIsLegal(s: System, e: Event)
    requires Waiting(s)
    ensures Step(s, e).r.status == s.r.status || H.Edge(s.r.status, Step(s, e).r.status)
  {
    match e
    case Begin(_) =>
    case AtOnce(c) => H.StatusMovesAlongEdges(s.r, c);
    case Finish(k) =>
      if k < |s.calls| {
        assert Earlier(s, k);
        if Commit(s.r, s.calls[k]).Some? { CommitIsLegal(s.r, s.calls[k]); }
      }
  }

  /** However requests interleave, every change of the status follows an arrow from the status at that moment. */
  lemma ChangesAreLegal(r: Remark, es: seq<Event>, e: Event)
    ensures var before, after := After(r, es).r.status, After(r, es + [e]).r.status;
            after == before || H.Edge(before, after)
  {
    assert (es + [e])[..|es|] == es;
    StepIsLegal(After(r, es), e);
  }

  /** However requests interleave, a decided remark is never decided otherwise. */
  lemma {:induction false} DecidedStays(r: Remark, es: seq<Event>, more: seq<Event>)
    requires IsTerminal(After(r, es).r.status)
    ensures After(r, es + more).r.status == After(r, es).r.status
    decreases |more|
  {
    if more == [] {
      assert es + more == es;
    } else {
      var n := |more| - 1;
      DecidedStays(r, es, more[..n]);
      assert es + more == es + more[..n] + [more[n]];
      ChangesAreLegal(r, es + more[..n], more[n]);
    }
  }

  /** How often the history closes the remark. */
  function Closes(h: seq<Row>): nat {
    if h == [] then 0 else Closes(h[..|h| - 1]) + if h[|h| - 1].action.ClosedIt? then 1 else 0
  }

  lemma ClosesMore(h: seq<Row>, row: Row)
    ensures Closes(h + [row]) == Closes(h) + if row.action.ClosedIt? then 1 else 0
  {
    assert (h + [row])[..|h|] == h;
  }

  predicate ClosedAsOftenAsClosed(r: Remark) {
    Closes(r.history) == if r.status.Closed? then 1 else 0
  }

  /** What a transaction adds to the history. */
  predicate Adds(r: Remark, after: Remark, closes: bool) {
    && |after.history| == |r.history| + 1 && after.history[..|r.history|] == r.history
    && (after.history[|r.history|].action.ClosedIt? <==> closes)
    && (closes ==> CanClose(r.status) && after.status.Closed?)
    && (!closes ==> (after.status.Closed? <==> r.status.Closed?))
  }

  lemma CommitAdds(r: Remark, call: Call)
    requires Starts(call.seen, call.c) && IsEarlier(call.seen.runs, r.runs) && Commit(r, call).Some?
    ensures Commit(r, call).value == r || Adds(r, Commit(r, call).value, call.c.DoClose?)
  {
  }

  lemma CommitCloses(r: Remark, call: Call)
    requires Starts(call.seen, call.c) && IsEarlier(call.seen.runs, r.runs) && Commit(r, call).Some?
    requires ClosedAsOftenAsClosed(r)
    ensures ClosedAsOftenAsClosed(Commit(r, call).value)
  {
    CommitAdds(r, call);
    if Commit(r, call).value != r {
      AddedCloses(r, Commit(r, call).value, call.c.DoClose?);
    }
  }

  lemma AddedCloses(r: Remark, after: Remark, closes: bool)
    requires ClosedAsOftenAsClosed(r) && Adds(r, after, closes)
    ensures ClosedAsOftenAsClosed(after)
  {
    var row := after.history[|r.history|];
    assert after.history == r.history + [row];
    ClosesMore(r.history, row);
  }

  lemma OneStepCloses(r: Remark, c: Command)
    requires IsOneStep(c) && ClosedAsOftenAsClosed(r)
    ensures ClosedAsOftenAsClosed(Next(r, c))
  {
    var after := Next(r, c);
    if after.history != r.history {
      var row := after.history[|r.history|];
      assert after.history == r.history + [row];
      ClosesMore(r.history, row);
    }
  }

  /** However requests interleave, a remark is closed at most once: as often as it is closed now. */
  lemma {:induction false} ClosedAtMostOnce(r: Remark, es: seq<Event>)
    requires IsNew(r)
    ensures ClosedAsOftenAsClosed(After(r, es).r)
  {
    if es == [] {
      assert r.history[..0] == [];
    } else {
      var s, e := After(r, es[..|es| - 1]), es[|es| - 1];
      ClosedAtMostOnce(r, es[..|es| - 1]);
      match e
      case Begin(_) =>
      case AtOnce(c) => if IsOneStep(c) { OneStepCloses(s.r, c); }
      case Finish(k) =>
        if k < |s.calls| {
          assert Earlier(s, k);
          if Commit(s.r, s.calls[k]).Some? { CommitCloses(s.r, s.calls[k]); }
        }
    }
  }

  lemma CommitKeys(r: Remark, call: Call)
    requires Starts(call.seen, call.c) && IsEarlier(call.seen.runs, r.runs) && Commit(r, call).Some? && KeysOnce(r.verdicts)
    ensures KeysOnce(Commit(r, call).value.verdicts)
  {
    if call.c.DoVerdict? {
      assert forall k :: 0 <= k < |r.verdicts| ==> r.verdicts[k].run != call.c.run || r.verdicts[k].key != call.c.key;
    }
  }

  /** However requests interleave, a key of a verdict is written at most once for a run. */
  lemma {:induction false} KeysAreWrittenOnce(r: Remark, es: seq<Event>)
    requires KeysOnce(r.verdicts)
    ensures KeysOnce(After(r, es).r.verdicts)
  {
    if es != [] {
      var s, e := After(r, es[..|es| - 1]), es[|es| - 1];
      KeysAreWrittenOnce(r, es[..|es| - 1]);
      if e.Finish? && e.k < |s.calls| {
        assert Earlier(s, e.k);
        if Commit(s.r, s.calls[e.k]).Some? { CommitKeys(s.r, s.calls[e.k]); }
      }
    }
  }

  /** A key already written: a request that reads it later opens nothing, one that read before it rolls back. */
  lemma WrittenKeyChangesNothing(s: System, c: Command)
    requires Waiting(s) && c.DoVerdict? && Given(s.r.verdicts, c.run, c.key)
    ensures Step(s, Begin(c)) == s
    ensures forall k :: 0 <= k < |s.calls| && s.calls[k].c.DoVerdict? && s.calls[k].c.run == c.run && s.calls[k].c.key == c.key ==>
              Step(s, Finish(k)).r == s.r
  {
    forall k | 0 <= k < |s.calls| && s.calls[k].c.DoVerdict? && s.calls[k].c.run == c.run && s.calls[k].c.key == c.key
      ensures Step(s, Finish(k)).r == s.r
    {
      assert Earlier(s, k);
    }
  }

  // ---------- what the guards do not cover ----------

  lemma AfterMore(r: Remark, es: seq<Event>, e: Event)
    ensures After(r, es + [e]) == Step(After(r, es), e)
  {
    assert (es + [e])[..|es|] == es;
  }

  /** Two requests attach a retest frame at once: both read that nothing runs, and two comparisons run. */
  lemma TwoRetestsAtOnce(r: Remark) returns (es: seq<Event>)
    requires r.status.ReadyForRetest? && !RetestRuns(r.runs)
    ensures After(r, es).r.runs == r.runs + [Run(Retest, Running), Run(Retest, Running)]
    ensures !Coupled(After(r, es).r)
  {
    var c := DoBeginRetest(Business);
    es := [];
    AfterMore(r, es, Begin(c));
    es := es + [Begin(c)];
    AfterMore(r, es, Begin(c));
    es := es + [Begin(c)];
    assert After(r, es) == System(r, [Call(c, r), Call(c, r)]);
    AfterMore(r, es, Finish(0));
    es := es + [Finish(0)];
    assert After(r, es) == System(Do(r, c).value, [Call(c, r)]);
    AfterMore(r, es, Finish(0));
    es := es + [Finish(0)];
    var twice := After(r, es).r;
    assert twice.runs == r.runs + [Run(Retest, Running), Run(Retest, Running)];
    assert IsActive(twice.runs[|r.runs|]);
  }

  /** A cancel reads a triage under way; that run fails and another begins. */
  lemma CancelOvertaken(r: Remark) returns (es: seq<Event>)
    requires Coupled(r) && r.status.Triaging?
    ensures After(r, es).calls == [Call(DoCancelRun(Pm, |r.runs| - 1), r)]
    ensures After(r, es).r.status.Triaging?
    ensures After(r, es).r.runs == WithRun(r.runs, |r.runs| - 1, Failed) + [Run(Triage, Running)]
  {
    var n := |r.runs| - 1;
    var cancel, begin := DoCancelRun(Pm, n), DoBeginTriage(Pm);
    es := [];
    AfterMore(r, es, Begin(cancel));
    es := es + [Begin(cancel)];
    AfterMore(r, es, AtOnce(DoFailRun(n)));
    es := es + [AtOnce(DoFailRun(n))];
    var failed := Do(r, DoFailRun(n)).value;
    assert After(r, es) == System(failed, [Call(cancel, r)]);
    AfterMore(r, es, Begin(begin));
    es := es + [Begin(begin)];
    assert After(r, es) == System(failed, [Call(cancel, r), Call(begin, failed)]);
    AfterMore(r, es, Finish(1));
    es := es + [Finish(1)];
  }

  /** A cancel that read a triage under way and writes after that run failed and another began: the remark goes back to
      `imported` while the new run goes on. */
  lemma LateCancel(r: Remark) returns (es: seq<Event>)
    requires Coupled(r) && r.status.Triaging?
    ensures After(r, es).r.status.Imported? && LastIs(After(r, es).r.runs, Triage, Running)
    ensures !Coupled(After(r, es).r)
  {
    es := CancelOvertaken(r);
    AfterMore(r, es, Finish(0));
    es := es + [Finish(0)];
  }
}
