/** The operations on a stored remark, step by step as `RemarksService` writes them (remarks/remarks.service.ts). */
module RemarksService {
  import opened Prelude
  import R = Remarks

  class Record {
    var status: R.Status
    var runs: seq<R.Run>
    var history: seq<R.Row>
    var shots: seq<R.Shot>
    var verdicts: seq<R.Verdict>
    var retestOutcome: Option<R.Outcome>
    var closedBy: Option<R.Role>

    function View(): R.Remark
      reads this
    {
      R.Remark(status, runs, history, shots, verdicts, retestOutcome, closedBy)
    }

    /** `createNumbered` without the number: the row, its frame, and the first row of the history. */
    constructor (status: R.Status, action: R.Action, role: R.Role, screenshot: bool)
      ensures View() == R.NewRemark(status, action, role, if screenshot then [R.Shot(R.Original, false)] else [])
    {
      this.status := status;
      runs, verdicts, retestOutcome, closedBy := [], [], None, None;
      shots := if screenshot then [R.Shot(R.Original, false)] else [];
      history := [R.Row(None, status, action, Some(role), None)];
    }

    /** The outcome of a method that carries out a command: exactly what the specification answers. */
    ghost predicate Carried(before: R.Remark, c: R.Command, error: Option<R.Error>)
      reads this
    {
      && View() == R.Next(before, c)
      && match R.Do(before, c)
         case Ok(_) => error.None?
         case Err(e) => error == Some(e)
    }

    method WriteHistory(from: R.Status, to: R.Status, action: R.Action, role: Option<R.Role>, run: Option<R.RunId>)
      modifies this`history
      ensures history == old(history) + [R.Row(Some(from), to, action, role, run)]
    {
      history := history + [R.Row(Some(from), to, action, role, run)];
    }

    /** The conditional write: only from one of the expected statuses; else nothing changes and the caller gets a conflict.
        The row tells the status the caller had read. */
    method Transition(
      from: set<R.Status>, to: R.Status, action: R.Action, role: Option<R.Role>, seen: R.Status, run: Option<R.RunId>)
      returns (changed: bool)
      modifies this`status, this`history
      ensures changed <==> old(status) in from
      ensures changed ==> status == to && history == old(history) + [R.Row(Some(seen), to, action, role, run)]
      ensures changed && seen == old(status) ==> View() == R.Moved(old(View()), to, action, role, run)
      ensures !changed ==> View() == old(View())
    {
      changed := status in from;
      if changed {
        status := to;
        WriteHistory(seen, to, action, role, run);
      }
    }

    method SupersedeShots(originals: bool, retests: bool, diffs: bool)
      modifies this`shots
      ensures shots == R.Supersede(old(shots), originals, retests, diffs)
    {
      ghost var before := shots;
      for k := 0 to |shots|
        invariant |shots| == |before|
        invariant forall i :: k <= i < |shots| ==> shots[i] == before[i]
        invariant forall i :: 0 <= i < k ==> shots[i] == R.Supersede(before, originals, retests, diffs)[i]
      {
        if R.Replaced(shots[k].kind, originals, retests, diffs) && !shots[k].superseded {
          shots := shots[k := shots[k].(superseded := true)];
        }
      }
    }

    method SettleRetestRuns()
      modifies this`runs
      ensures runs == R.SettleRetests(old(runs))
    {
      ghost var before := runs;
      for k := 0 to |runs|
        invariant |runs| == |before|
        invariant forall i :: k <= i < |runs| ==> runs[i] == before[i]
        invariant forall i :: 0 <= i < k ==> runs[i] == R.Settled(before[i])
      {
        if runs[k].mode.Retest? && runs[k].status.AwaitingHuman? {
          runs := runs[k := runs[k].(status := R.Persisted)];
        }
      }
    }

    method RetestRunning() returns (found: bool)
      ensures found == R.RetestRuns(runs)
    {
      found := false;
      for k := 0 to |runs|
        invariant found <==> R.Run(R.Retest, R.Running) in runs[..k]
      {
        assert runs[..k + 1] == runs[..k] + [runs[k]];
        if runs[k].mode.Retest? && runs[k].status.Running? {
          found := true;
        }
      }
      assert runs[..|runs|] == runs;
    }

    method SetRun(run: R.RunId, to: R.RunStatus)
      requires run < |runs|
      modifies this`runs
      ensures runs == R.WithRun(old(runs), run, to)
    {
      runs := runs[run := runs[run].(status := to)];
    }

    method FixRow(role: R.Role) returns (error: Option<R.Error>)
      modifies this
      ensures Carried(old(View()), R.DoFixRow(role), error)
    {
      if !role.Business? && !role.Pm? {
        return Some(R.Forbidden);
      }
      if !status.NeedsHumanParse? {
        return Some(R.Conflict);
      }
      var _ := Transition({R.NeedsHumanParse}, R.Imported, R.FixedRow, Some(role), status, None);
      return None;
    }

    method AttachScreenshot(role: R.Role) returns (error: Option<R.Error>)
      modifies this
      ensures Carried(old(View()), R.DoAttach(role), error)
    {
      if !role.Business? && !role.Pm? {
        return Some(R.Forbidden);
      }
      if !status.CannotTell? && !status.Imported? {
        return Some(R.Conflict);
      }
      SupersedeShots(true, false, false);
      shots := shots + [R.Shot(R.Original, false)];
      WriteHistory(status, status, R.AttachedScreenshot, Some(role), None);
      return None;
    }

    method BeginTriage(role: R.Role) returns (error: Option<R.Error>, run: R.RunId)
      modifies this
      ensures Carried(old(View()), R.DoBeginTriage(role), error)
      ensures error.None? ==> run < |runs| && runs[run] == R.Run(R.Triage, R.Running)
    {
      run := |runs|;
      if !role.Business? && !role.Pm? {
        return Some(R.Forbidden), run;
      }
      if !status.Imported? && !status.CannotTell? && !status.Reopened? {
        return Some(R.Conflict), run;
      }
      runs := runs + [R.Run(R.Triage, R.Running)];
      var _ := Transition({R.Imported, R.CannotTell, R.Reopened}, R.Triaging, R.StartedTriage, Some(role), status, Some(run));
      return None, run;
    }

    method ApplyProposal(run: R.RunId) returns (error: Option<R.Error>)
      modifies this
      ensures Carried(old(View()), R.DoApplyProposal(run), error)
    {
      if !status.Triaging? {
        return Some(R.Conflict);
      }
      if run >= |runs| || !runs[run].status.Running? {
        return Some(R.Conflict);
      }
      var _ := Transition({R.Triaging}, R.AwaitingPm, R.Proposed, None, status, Some(run));
      SetRun(run, R.AwaitingHuman);
      return None;
    }

    method FailRun(run: R.RunId) returns (error: Option<R.Error>)
      modifies this
      ensures Carried(old(View()), R.DoFailRun(run), error)
    {
      if run >= |runs| || !runs[run].status.Running? {
        return None;
      }
      var from := status;
      var next := if runs[run].mode.Triage? && status.Triaging? then R.Imported else status;
      SetRun(run, R.Failed);
      if next != from {
        status := next;
      }
      WriteHistory(from, next, R.RunFailed, None, Some(run));
      return None;
    }

    method CancelRun(role: R.Role, run: R.RunId) returns (error: Option<R.Error>)
      modifies this
      ensures Carried(old(View()), R.DoCancelRun(role, run), error)
    {
      if !role.Business? && !role.Pm? {
        return Some(R.Forbidden);
      }
      if run >= |runs| {
        return Some(R.Conflict);
      }
      if !runs[run].status.Running? && !runs[run].status.AwaitingHuman? {
        return None;
      }
      var from := status;
      if run == |runs| - 1 {
        if runs[run].mode.Triage? && (status.Triaging? || status.AwaitingPm?) {
          status := R.Imported;
        } else if runs[run].mode.Retest? && (status.ReadyForRetest? || status.AwaitingBusinessClose?) {
          status := R.ReadyForRetest;
          retestOutcome := None;
          SupersedeShots(false, true, true);
        }
      }
      SetRun(run, R.Cancelled);
      WriteHistory(from, status, R.CancelledRun, Some(role), Some(run));
      return None;
    }

    method VerdictGiven(run: R.RunId, key: string) returns (found: bool)
      ensures found == R.Given(verdicts, run, key)
    {
      found := false;
      for k := 0 to |verdicts|
        invariant !found ==> forall i :: 0 <= i < k ==> verdicts[i].run != run || verdicts[i].key != key
        invariant found ==> R.Given(verdicts, run, key)
      {
        if verdicts[k].run == run && verdicts[k].key == key {
          found := true;
        }
      }
    }

    /** `applied` is false when the verdict was written before. */
    method GiveVerdict(role: R.Role, run: R.RunId, key: string, code: R.Code, comment: bool)
      returns (error: Option<R.Error>, applied: bool)
      modifies this
      ensures Carried(old(View()), R.DoVerdict(role, run, key, code, comment), error)
      ensures applied <==> error.None? && |verdicts| == |old(verdicts)| + 1
      ensures !applied ==> View() == old(View())
    {
      if run >= |runs| {
        return Some(R.Conflict), false;
      }
      var existing := VerdictGiven(run, key);
      if existing {
        return None, false;
      }
      if code.RejectedBinding? {
        if !role.Pm? {
          return Some(R.Forbidden), false;
        }
        if !status.AwaitingPm? || !comment {
          return Some(R.Conflict), false;
        }
        var _ := Transition({R.AwaitingPm}, R.Triaging, R.Rejected, Some(role), status, Some(run));
        verdicts := verdicts + [R.Verdict(run, key, code)];
        SetRun(run, R.Running);
        return None, true;
      }
      var next := R.NextStatusForVerdict(role, status, code);
      if next.Err? {
        return Some(next.error), false;
      }
      var _ := Transition({status}, next.value, R.Decided, Some(role), status, Some(run));
      verdicts := verdicts + [R.Verdict(run, key, code)];
      SetRun(run, R.Persisted);
      return None, true;
    }

    method LinkDuplicate(role: R.Role, roundOpen: bool, found: bool) returns (error: Option<R.Error>)
      modifies this
      ensures Carried(old(View()), R.DoLinkDuplicate(role, roundOpen, found), error)
    {
      if !role.Pm? {
        return Some(R.Forbidden);
      }
      if !roundOpen {
        return Some(R.Conflict);
      }
      if !found {
        return Some(R.NotFound);
      }
      WriteHistory(status, status, R.LinkedDuplicate, Some(role), None);
      return None;
    }

    method MarkReady(role: R.Role) returns (error: Option<R.Error>)
      modifies this
      ensures Carried(old(View()), R.DoMarkReady(role), error)
    {
      if !role.Developer? {
        return Some(R.Forbidden);
      }
      if !status.Defect? {
        return Some(R.Conflict);
      }
      var _ := Transition({R.Defect}, R.ReadyForRetest, R.MarkedReady, Some(role), status, None);
      return None;
    }

    method BeginRetest(role: R.Role) returns (error: Option<R.Error>, run: R.RunId)
      modifies this
      ensures Carried(old(View()), R.DoBeginRetest(role), error)
      ensures error.None? ==> run < |runs| && runs[run] == R.Run(R.Retest, R.Running)
    {
      run := |runs|;
      if !role.Business? {
        return Some(R.Forbidden), run;
      }
      if !status.ReadyForRetest? {
        return Some(R.Conflict), run;
      }
      var running := RetestRunning();
      if running {
        return Some(R.Conflict), run;
      }
      runs := runs + [R.Run(R.Retest, R.Running)];
      SupersedeShots(false, true, true);
      shots := shots + [R.Shot(R.Retested, false)];
      var _ := Transition({R.ReadyForRetest}, R.ReadyForRetest, R.StartedRetest, Some(role), status, Some(run));
      return None, run;
    }

    method ApplyRetest(run: R.RunId, outcome: R.Outcome, diff: bool) returns (error: Option<R.Error>)
      modifies this
      ensures Carried(old(View()), R.DoApplyRetest(run, outcome, diff), error)
    {
      if !status.ReadyForRetest? {
        return Some(R.Conflict);
      }
      if run >= |runs| || !runs[run].status.Running? {
        return Some(R.Conflict);
      }
      SupersedeShots(false, false, true);
      if diff {
        shots := shots + [R.Shot(R.Diff, false)];
      } else {
        assert shots == shots + [];
      }
      var _ := Transition({R.ReadyForRetest}, R.AwaitingBusinessClose, R.RetestResult, None, status, Some(run));
      retestOutcome := Some(outcome);
      SetRun(run, R.AwaitingHuman);
      return None;
    }

    method Close(role: R.Role) returns (error: Option<R.Error>)
      modifies this
      ensures Carried(old(View()), R.DoClose(role), error)
    {
      if !role.Business? {
        return Some(R.Forbidden);
      }
      if !status.ReadyForRetest? && !status.AwaitingBusinessClose? {
        return Some(R.Conflict);
      }
      var running := RetestRunning();
      if running {
        return Some(R.Conflict);
      }
      var _ := Transition({status}, R.Closed, R.ClosedIt, Some(role), status, None);
      closedBy := Some(role);
      SettleRetestRuns();
      return None;
    }

    method NotFixed(role: R.Role) returns (error: Option<R.Error>)
      modifies this
      ensures Carried(old(View()), R.DoNotFixed(role), error)
    {
      if !role.Business? {
        return Some(R.Forbidden);
      }
      if status.ReadyForRetest? {
        return Some(R.Conflict);
      }
      if !status.AwaitingBusinessClose? {
        return Some(R.Conflict);
      }
      var _ := Transition({R.AwaitingBusinessClose}, R.Defect, R.FoundNotFixed, Some(role), status, None);
      retestOutcome := None;
      SupersedeShots(false, true, true);
      SettleRetestRuns();
      return None;
    }

    method NoteReopened(role: R.Role, roundOpen: bool) returns (error: Option<R.Error>)
      modifies this
      ensures Carried(old(View()), R.DoNoteReopened(role, roundOpen), error)
    {
      if !role.Business? {
        return Some(R.Forbidden);
      }
      if !status.Closed? || !roundOpen {
        return Some(R.Conflict);
      }
      WriteHistory(status, status, R.ReopenedAs, Some(role), None);
      return None;
    }
  }
}
