/** Frames and the outcome of a retest over the life of a remark. */
module RemarkFrames {
  import opened Prelude
  import opened Remarks
  import opened RemarkHistory

  ghost predicate Current(shots: seq<Shot>, kind: Kind) {
    Shot(kind, false) in shots
  }

  ghost predicate OneOfEach(shots: seq<Shot>) {
    forall i, j :: 0 <= i < j < |shots| && !shots[i].superseded && !shots[j].superseded ==> shots[i].kind != shots[j].kind
  }

  /** How a remark was closed, read from the row that closed it. */
  datatype Via = ByRetest | ByCustomersCheck

  function ClosedViaOf(from: Option<Status>): Option<Via> {
    if from == Some(ReadyForRetest) then Some(ByCustomersCheck)
    else if from == Some(AwaitingBusinessClose) then Some(ByRetest)
    else None
  }

  /** The status before the newest row that closes. */
  function CloseFrom(h: seq<Row>): Option<Status> {
    if h == [] then None
    else if h[|h| - 1].action.ClosedIt? then h[|h| - 1].from
    else CloseFrom(h[..|h| - 1])
  }

  predicate ClosedByRetest(r: Remark) {
    r.status.Closed? && ClosedViaOf(CloseFrom(r.history)) == Some(ByRetest)
  }

  ghost predicate FramesOk(r: Remark) {
    && OneOfEach(r.shots)
    && (Current(r.shots, Diff) ==> Current(r.shots, Retested) && (r.status.AwaitingBusinessClose? || ClosedByRetest(r)))
    && (r.status.AwaitingBusinessClose? || RetestRuns(r.runs) ==> Current(r.shots, Retested))
  }

  predicate OutcomeOk(r: Remark) {
    && (r.retestOutcome.Some? <==> r.status.AwaitingBusinessClose? || ClosedByRetest(r))
    && (r.status.Closed? ==> ClosedViaOf(CloseFrom(r.history)).Some? && r.closedBy == Some(Business))
  }

  lemma CloseFromMore(h: seq<Row>, row: Row)
    ensures CloseFrom(h + [row]) == if row.action.ClosedIt? then row.from else CloseFrom(h)
  {
    assert (h + [row])[..|h|] == h;
  }

  /** A command that does not close leaves how the remark was closed as it is. */
  lemma NextCloseFrom(r: Remark, c: Command)
    ensures CloseFrom(Next(r, c).history)
         == if c.DoClose? && Do(r, c).Ok? then Some(r.status) else CloseFrom(r.history)
  {
    var next := Next(r, c);
    if next != r {
      var row := NewRow(r, c);
      CloseFromMore(r.history, row);
    }
  }

  /** A command that changes the remark adds a row, a closing one exactly when it closes. */
  lemma NewRow(r: Remark, c: Command) returns (row: Row)
    requires Next(r, c) != r
    ensures Next(r, c).history == r.history + [row] && (row.action.ClosedIt? <==> c.DoClose?)
    ensures c.DoClose? ==> Do(r, c).Ok? && row.from == Some(r.status)
  {
    row := Next(r, c).history[|r.history|];
  }

  lemma RunOutcome(r: Remark, c: Command)
    requires Coupled(r) && OutcomeOk(r) && OfRuns(c) && !c.DoCancelRun?
    requires CloseFrom(Next(r, c).history) == CloseFrom(r.history)
    ensures OutcomeOk(Next(r, c))
  {
  }

  lemma HumanOutcome(r: Remark, c: Command)
    requires OutcomeOk(r) && !OfRuns(c)
    requires CloseFrom(Next(r, c).history)
          == if c.DoClose? && Do(r, c).Ok? then Some(r.status) else CloseFrom(r.history)
    ensures OutcomeOk(Next(r, c))
  {
    match Do(r, c)
    case Err(_) =>
    case Ok(_) =>
  }

  lemma NextOutcome(r: Remark, c: Command)
    requires Coupled(r) && OutcomeOk(r)
    ensures OutcomeOk(Next(r, c))
  {
    NextCloseFrom(r, c);
    if c.DoCancelRun? {
      if c.run < |r.runs| && IsActive(r.runs[c.run]) { ActiveIsLast(r, c.run); }
    } else if OfRuns(c) {
      RunOutcome(r, c);
    } else {
      HumanOutcome(r, c);
    }
  }

  lemma SupersedeKeepsOne(shots: seq<Shot>, originals: bool, retests: bool, diffs: bool)
    requires OneOfEach(shots)
    ensures OneOfEach(Supersede(shots, originals, retests, diffs))
    ensures forall kind :: Current(Supersede(shots, originals, retests, diffs), kind)
                       <==> Current(shots, kind) && !Replaced(kind, originals, retests, diffs)
  {
    var after := Supersede(shots, originals, retests, diffs);
    forall kind | Current(shots, kind) && !Replaced(kind, originals, retests, diffs)
      ensures Current(after, kind)
    {
      var k :| 0 <= k < |shots| && shots[k] == Shot(kind, false);
      assert after[k] == Shot(kind, false);
    }
  }

  lemma AddKeepsOne(shots: seq<Shot>, kind: Kind)
    requires OneOfEach(shots) && !Current(shots, kind)
    ensures OneOfEach(shots + [Shot(kind, false)])
    ensures forall other :: Current(shots + [Shot(kind, false)], other) <==> Current(shots, other) || other == kind
  {
  }

  lemma NextShots(r: Remark, c: Command)
    requires OneOfEach(r.shots)
    ensures OneOfEach(Next(r, c).shots)
    ensures Do(r, c).Ok? && c.DoAttach? ==> forall kind :: Current(Next(r, c).shots, kind) <==> Current(r.shots, kind) || kind.Original?
    ensures Do(r, c).Ok? && c.DoBeginRetest? ==>
              forall kind :: Current(Next(r, c).shots, kind) <==> (Current(r.shots, kind) && !kind.Diff?) || kind.Retested?
    ensures Do(r, c).Ok? && c.DoApplyRetest? ==>
              forall kind :: Current(Next(r, c).shots, kind) <==> (Current(r.shots, kind) && !kind.Diff?) || (kind.Diff? && c.diff)
  {
    SupersedeKeepsOne(r.shots, true, false, false);
    SupersedeKeepsOne(r.shots, false, true, true);
    SupersedeKeepsOne(r.shots, false, false, true);
    if Do(r, c).Ok? {
      if c.DoAttach? { AddKeepsOne(Supersede(r.shots, true, false, false), Original); }
      if c.DoBeginRetest? { AddKeepsOne(Supersede(r.shots, false, true, true), Retested); }
      if c.DoApplyRetest? {
        if c.diff {
          AddKeepsOne(Supersede(r.shots, false, false, true), Diff);
        } else {
          assert Supersede(r.shots, false, false, true) + [] == Supersede(r.shots, false, false, true);
        }
      }
    }
  }

  lemma RetestRunsAfter(r: Remark, c: Command)
    requires Coupled(r)
    ensures RetestRuns(Next(r, c).runs) ==> RetestRuns(r.runs) || (c.DoBeginRetest? && Do(r, c).Ok?) || c.DoVerdict?
  {
  }

  lemma NoDiffLeft(shots: seq<Shot>)
    ensures !Current(Supersede(shots, false, true, true), Diff)
  {
    var after := Supersede(shots, false, true, true);
    assert forall k :: 0 <= k < |after| ==> after[k] != Shot(Diff, false);
  }

  lemma OtherShots(r: Remark, c: Command)
    requires !c.DoAttach? && !c.DoBeginRetest? && !c.DoApplyRetest?
    ensures Next(r, c).shots == r.shots || Next(r, c).shots == Supersede(r.shots, false, true, true)
    ensures Next(r, c).status != r.status && CanClose(r.status) && (c.DoCancelRun? || c.DoNotFixed?) ==>
              Next(r, c).shots == Supersede(r.shots, false, true, true)
  {
  }

  /** A current diff that this command did not add: it was there, and so is the retest frame. */
  lemma DiffWasThere(r: Remark, c: Command)
    requires FramesOk(r) && Current(Next(r, c).shots, Diff) && !(c.DoApplyRetest? && Do(r, c).Ok?)
    ensures Current(r.shots, Diff) && Current(Next(r, c).shots, Retested)
  {
    if Do(r, c).Ok? {
      if c.DoAttach? || c.DoBeginRetest? {
        NextShots(r, c);
      } else {
        NoDiffLeft(r.shots);
        OtherShots(r, c);
      }
    }
  }

  lemma DiffStatus(r: Remark, c: Command)
    requires Coupled(r) && (r.status.AwaitingBusinessClose? || ClosedByRetest(r)) && Current(Next(r, c).shots, Diff)
    requires !(c.DoApplyRetest? && Do(r, c).Ok?)
    ensures Next(r, c).status.AwaitingBusinessClose? || ClosedByRetest(Next(r, c))
  {
    NextCloseFrom(r, c);
    if c.DoCancelRun? || c.DoNotFixed? {
      NoDiffLeft(r.shots);
      OtherShots(r, c);
    }
  }

  lemma NextDiffShown(r: Remark, c: Command)
    requires Coupled(r) && FramesOk(r) && Current(Next(r, c).shots, Diff)
    ensures Current(Next(r, c).shots, Retested)
    ensures Next(r, c).status.AwaitingBusinessClose? || ClosedByRetest(Next(r, c))
  {
    if c.DoApplyRetest? && Do(r, c).Ok? {
      NextShots(r, c);
      ActiveIsLast(r, c.run);
    } else {
      DiffWasThere(r, c);
      DiffStatus(r, c);
    }
  }

  lemma NextRetestShown(r: Remark, c: Command)
    requires Coupled(r) && NamesCurrentRun(r, c) && FramesOk(r)
    requires Next(r, c).status.AwaitingBusinessClose? || RetestRuns(Next(r, c).runs)
    ensures Current(Next(r, c).shots, Retested)
  {
    NextShots(r, c);
    NextCoupled(r, c);
    RetestRunsAfter(r, c);
  }

  lemma NextFrames(r: Remark, c: Command)
    requires Coupled(r) && NamesCurrentRun(r, c) && FramesOk(r)
    ensures FramesOk(Next(r, c))
  {
    NextShots(r, c);
    if Current(Next(r, c).shots, Diff) {
      NextDiffShown(r, c);
    }
    if Next(r, c).status.AwaitingBusinessClose? || RetestRuns(Next(r, c).runs) {
      NextRetestShown(r, c);
    }
  }

  /** In every run: remark and runs agree, at most one frame of each kind is current, a current diff has its retest frame
      and a retest to be decided or that decided, and there is an outcome exactly then. */
  lemma {:induction false} RemarkIsSound(r: Remark, cs: seq<Command>)
    requires IsNew(r) && NamesCurrent(r, cs)
    ensures Sound(After(r, cs)) && FramesOk(After(r, cs)) && OutcomeOk(After(r, cs))
  {
    SoundRun(r, cs);
    if cs == [] {
      NewFrames(r);
    } else {
      var n := |cs| - 1;
      NamesCurrentBefore(r, cs, n);
      RemarkIsSound(r, cs[..n]);
      NextFrames(After(r, cs[..n]), cs[n]);
      NextOutcome(After(r, cs[..n]), cs[n]);
    }
  }

  lemma NewFrames(r: Remark)
    requires IsNew(r)
    ensures FramesOk(r) && OutcomeOk(r)
  {
    var role, action, shots :| BeginsAs(r, role, action, shots);
    assert r.history[..0] == [];
  }

  /** Frames are never removed, and a superseded frame stays superseded. */
  ghost predicate Keeps(before: seq<Shot>, after: seq<Shot>) {
    && |before| <= |after|
    && forall k :: 0 <= k < |before| ==> after[k].kind == before[k].kind && (before[k].superseded ==> after[k].superseded)
  }

  lemma NextKeeps(s: Remark, c: Command)
    ensures Keeps(s.shots, Next(s, c).shots)
  {
  }

  lemma OneMoreKeeps(first: seq<Shot>, s: Remark, c: Command)
    requires Keeps(first, s.shots)
    ensures Keeps(first, Next(s, c).shots)
  {
    NextKeeps(s, c);
    KeepsOn(first, s.shots, Next(s, c).shots);
  }

  lemma KeepsOn(a: seq<Shot>, b: seq<Shot>, c: seq<Shot>)
    requires Keeps(a, b) && Keeps(b, c)
    ensures Keeps(a, c)
  {
  }

  lemma {:induction false} FramesAreKept(r: Remark, cs: seq<Command>, more: seq<Command>)
    ensures Keeps(After(r, cs).shots, After(r, cs + more).shots)
    decreases |more|
  {
    if more == [] {
      assert cs + more == cs;
    } else {
      var before := cs + more[..|more| - 1];
      FramesAreKept(r, cs, more[..|more| - 1]);
      assert (cs + more)[..|cs + more| - 1] == before;
      OneMoreKeeps(After(r, cs).shots, After(r, before), more[|more| - 1]);
    }
  }
}
