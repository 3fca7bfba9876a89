/** What the history of a remark proves about its status (docs/STATUS.md). */
module RemarkHistory {
  import opened Prelude
  import opened Remarks

  /** The arrows of the documented state machine. */
  predicate Edge(a: Status, b: Status) {
    match a
    case Imported => b.Triaging?
    case NeedsHumanParse => b.Imported?
    case Triaging => b.AwaitingPm? || b.Imported?
    case AwaitingPm =>
      b.Defect? || b.ChangeRequest? || b.Unspecified? || b.Duplicate? || b.CannotTell? || b.Triaging? || b.Imported?
    case Defect => b.ReadyForRetest?
    case ChangeRequest => false
    case Unspecified => b.Defect? || b.ChangeRequest?
    case Duplicate => false
    case CannotTell => b.Triaging?
    case ReadyForRetest => b.AwaitingBusinessClose? || b.Closed?
    case AwaitingBusinessClose => b.Closed? || b.Defect? || b.ReadyForRetest?
    case Closed => false
    case Reopened => b.Triaging?
  }

  /** Who may write which row. */
  predicate Legal(row: Row) {
    match row.action
    case Created => row.from.None? && row.to.Imported? && ByCustomerOrPm(row)
    case ImportedRow => row.from.None? && (row.to.Imported? || row.to.NeedsHumanParse?) && ByCustomerOrPm(row)
    case ReopenedHere => row.from.None? && row.to.Reopened? && row.role == Some(Business)
    case _ => row.from.Some? && LegalStep(row.from.value, row.to, row)
  }

  predicate ByCustomerOrPm(row: Row) {
    row.role.Some? && IsCustomerOrPm(row.role.value)
  }

  predicate BySystem(row: Row) {
    row.role.None? && row.run.Some?
  }

  predicate LegalStep(a: Status, b: Status, row: Row) {
    match row.action
    case ReopenedAs => a.Closed? && b == a && row.role == Some(Business)
    case FixedRow => a.NeedsHumanParse? && b.Imported? && ByCustomerOrPm(row)
    case AttachedScreenshot => (a.CannotTell? || a.Imported?) && b == a && ByCustomerOrPm(row)
    case StartedTriage => CanTriage(a) && b.Triaging? && ByCustomerOrPm(row)
    case Proposed => a.Triaging? && b.AwaitingPm? && BySystem(row)
    case RunFailed => (b == a || (a.Triaging? && b.Imported?)) && BySystem(row)
    case CancelledRun =>
      && (b == a || ((a.Triaging? || a.AwaitingPm?) && b.Imported?) || (a.AwaitingBusinessClose? && b.ReadyForRetest?))
      && ByCustomerOrPm(row)
    case Rejected => a.AwaitingPm? && b.Triaging? && row.role == Some(Pm)
    case Decided =>
      || (a.AwaitingPm? && Edge(a, b) && !b.Triaging? && !b.Imported? && row.role == Some(Pm))
      || (a.Unspecified? && Edge(a, b) && ByCustomerOrPm(row))
    case LinkedDuplicate => b == a && row.role == Some(Pm)
    case MarkedReady => a.Defect? && b.ReadyForRetest? && row.role == Some(Developer)
    case StartedRetest => a.ReadyForRetest? && b == a && row.role == Some(Business)
    case RetestResult => a.ReadyForRetest? && b.AwaitingBusinessClose? && BySystem(row)
    case ClosedIt => CanClose(a) && b.Closed? && row.role == Some(Business)
    case FoundNotFixed => a.AwaitingBusinessClose? && b.Defect? && row.role == Some(Business)
    case _ => false
  }

  // ---------- the history replays ----------

  ghost predicate Follows(h: seq<Row>, k: nat)
    requires 0 < k < |h|
  {
    h[k].from == Some(h[k - 1].to) && Legal(h[k])
  }

  ghost predicate Replays(h: seq<Row>) {
    && h != [] && h[0].from.None? && Legal(h[0])
    && forall k :: 0 < k < |h| ==> Follows(h, k)
  }

  /** Played from the start, the history ends in the status the remark has. */
  ghost predicate HistoryOk(r: Remark) {
    Replays(r.history) && r.history[|r.history| - 1].to == r.status
  }

  lemma ReplaysMore(h: seq<Row>, row: Row)
    requires Replays(h) && row.from == Some(h[|h| - 1].to) && Legal(row)
    ensures Replays(h + [row])
  {
    var now := h + [row];
    forall k | 0 < k < |now|
      ensures Follows(now, k)
    {
      if k < |h| { assert Follows(h, k); }
    }
  }

  /** A command that is carried out adds at most one row, legal for it, from the status before to the status after. */
  lemma NextRow(r: Remark, c: Command)
    requires Do(r, c).Ok?
    ensures Next(r, c) == r
         || (exists row: Row ::
               && row.from == Some(r.status) && row.to == Next(r, c).status && Legal(row)
               && Next(r, c).history == r.history + [row])
  {
    var next := Next(r, c);
    if next != r {
      var row := next.history[|r.history|];
      assert next.history == r.history + [row];
      RowIsLegal(r, c, row);
    }
  }

  /** The commands by which runs begin and end. */
  predicate OfRuns(c: Command) {
    c.DoBeginTriage? || c.DoApplyProposal? || c.DoFailRun? || c.DoCancelRun? || c.DoBeginRetest? || c.DoApplyRetest?
  }

  lemma RunRowIsLegal(r: Remark, c: Command, row: Row)
    requires OfRuns(c) && Do(r, c).Ok? && Next(r, c).history == r.history + [row]
    ensures row.from == Some(r.status) && row.to == Next(r, c).status && Legal(row)
  {
    assert (r.history + [row])[|r.history|] == row;
  }

  lemma HumanRowIsLegal(r: Remark, c: Command, row: Row)
    requires !OfRuns(c) && !c.DoVerdict? && Do(r, c).Ok? && Next(r, c).history == r.history + [row]
    ensures row.from == Some(r.status) && row.to == Next(r, c).status && Legal(row)
  {
    assert (r.history + [row])[|r.history|] == row;
  }

  lemma RowIsLegal(r: Remark, c: Command, row: Row)
    requires Do(r, c).Ok? && Next(r, c).history == r.history + [row]
    ensures row.from == Some(r.status) && row.to == Next(r, c).status && Legal(row)
  {
    if OfRuns(c) {
      RunRowIsLegal(r, c, row);
    } else if c.DoVerdict? {
      assert (r.history + [row])[|r.history|] == row;
    } else {
      HumanRowIsLegal(r, c, row);
    }
  }

  lemma NextHistory(r: Remark, c: Command)
    requires HistoryOk(r)
    ensures HistoryOk(Next(r, c)) && r.history <= Next(r, c).history
  {
    if Do(r, c).Ok? && Next(r, c) != r {
      NextRow(r, c);
      var row: Row :| row.from == Some(r.status) && row.to == Next(r, c).status && Legal(row)
                      && Next(r, c).history == r.history + [row];
      ReplaysMore(r.history, row);
    }
  }

  /** In every run of a remark: each row starts where the one before ended, the last ends in the present status, and
      every row is legal for its action. */
  lemma {:induction false} HistoryReplays(r: Remark, cs: seq<Command>)
    requires IsNew(r)
    ensures HistoryOk(After(r, cs))
  {
    if cs != [] {
      HistoryReplays(r, cs[..|cs| - 1]);
      NextHistory(After(r, cs[..|cs| - 1]), cs[|cs| - 1]);
    }
  }

  /** Rows are only added. */
  lemma {:induction false} HistoryGrows(r: Remark, cs: seq<Command>, more: seq<Command>)
    requires IsNew(r)
    ensures After(r, cs).history <= After(r, cs + more).history
    decreases |more|
  {
    if more == [] {
      assert cs + more == cs;
    } else {
      var before := cs + more[..|more| - 1];
      HistoryGrows(r, cs, more[..|more| - 1]);
      HistoryReplays(r, before);
      assert (cs + more)[..|cs + more| - 1] == before;
      NextHistory(After(r, before), more[|more| - 1]);
    }
  }

  /** A row that changes the status follows an arrow of the state machine. */
  lemma LegalChangesAreEdges(row: Row)
    requires Legal(row) && row.from.Some? && row.from.value != row.to
    ensures Edge(row.from.value, row.to)
  {
  }

  /** And every arrow has a row that someone may write. */
  lemma EdgesHaveLegalRows(a: Status, b: Status) returns (row: Row)
    requires Edge(a, b)
    ensures Legal(row) && row.from == Some(a) && row.to == b
  {
    var run: Option<RunId> := Some(0);
    row := match a
      case Imported => Row(Some(a), b, StartedTriage, Some(Pm), run)
      case NeedsHumanParse => Row(Some(a), b, FixedRow, Some(Pm), None)
      case Triaging =>
        if b.AwaitingPm? then Row(Some(a), b, Proposed, None, run) else Row(Some(a), b, CancelledRun, Some(Pm), run)
      case AwaitingPm =>
        if b.Triaging? then Row(Some(a), b, Rejected, Some(Pm), run)
        else if b.Imported? then Row(Some(a), b, CancelledRun, Some(Pm), run)
        else Row(Some(a), b, Decided, Some(Pm), run)
      case Defect => Row(Some(a), b, MarkedReady, Some(Developer), None)
      case Unspecified => Row(Some(a), b, Decided, Some(Business), run)
      case ReadyForRetest =>
        if b.Closed? then Row(Some(a), b, ClosedIt, Some(Business), None) else Row(Some(a), b, RetestResult, None, run)
      case AwaitingBusinessClose =>
        if b.Closed? then Row(Some(a), b, ClosedIt, Some(Business), None)
        else if b.Defect? then Row(Some(a), b, FoundNotFixed, Some(Business), None)
        else Row(Some(a), b, CancelledRun, Some(Business), run)
      case _ => Row(Some(a), b, StartedTriage, Some(Pm), run);
  }

  lemma StatusMovesAlongEdges(r: Remark, c: Command)
    ensures Next(r, c).status == r.status || Edge(r.status, Next(r, c).status)
  {
    if Do(r, c).Ok? && Next(r, c) != r {
      NextRow(r, c);
      var row: Row :| row.from == Some(r.status) && row.to == Next(r, c).status && Legal(row)
                      && Next(r, c).history == r.history + [row];
      if row.to != r.status { LegalChangesAreEdges(row); }
    }
  }

  // ---------- where it ends ----------

  /** Some command changes the status. */
  ghost predicate CanMove(r: Remark) {
    exists c :: Next(r, c).status != r.status
  }

  /** Status and runs agree, and a remark the documents do not settle was triaged. */
  predicate Sound(r: Remark) {
    Coupled(r) && (r.status.Unspecified? ==> r.runs != [])
  }

  lemma {:induction false} UnusedKey(vs: seq<Verdict>) returns (key: string)
    ensures forall k :: 0 <= k < |vs| ==> |vs[k].key| < |key|
  {
    if vs == [] {
      key := "-";
    } else {
      var n := |vs| - 1;
      var rest := UnusedKey(vs[..n]);
      key := rest + vs[n].key + "-";
      forall k | 0 <= k < |vs|
        ensures |vs[k].key| < |key|
      {
        if k < n { assert vs[k] == vs[..n][k]; }
      }
    }
  }

  lemma Mover(r: Remark) returns (c: Command)
    requires Sound(r) && !IsTerminal(r.status)
    ensures Next(r, c).status != r.status
  {
    var last := |r.runs| - 1;
    match r.status
    case Imported => c := DoBeginTriage(Pm);
    case NeedsHumanParse => c := DoFixRow(Pm);
    case Triaging => c := DoCancelRun(Pm, last);
    case AwaitingPm => c := DoCancelRun(Pm, last);
    case Defect => c := DoMarkReady(Developer);
    case Unspecified =>
      var key := UnusedKey(r.verdicts);
      c := DoVerdict(Pm, last, key, AsDefect, false);
    case CannotTell => c := DoBeginTriage(Pm);
    case ReadyForRetest =>
      if RetestRuns(r.runs) {
        var k :| 0 <= k < |r.runs| && r.runs[k] == Run(Retest, Running);
        ActiveIsLast(r, k);
        c := DoApplyRetest(last, OutcomeUnclear, false);
      } else {
        c := DoClose(Business);
      }
    case AwaitingBusinessClose => c := DoNotFixed(Business);
    case Reopened => c := DoBeginTriage(Pm);
  }

  /** The statuses with no way out are exactly the terminal ones. */
  lemma StuckIffTerminal(r: Remark)
    requires Sound(r)
    ensures CanMove(r) <==> !IsTerminal(r.status)
  {
    if IsTerminal(r.status) {
      forall c
        ensures Next(r, c).status == r.status
      {
        StatusMovesAlongEdges(r, c);
      }
    } else {
      var c := Mover(r);
    }
  }

  /** Every verdict in the run names the run the card showed. */
  ghost predicate NamesCurrent(r: Remark, cs: seq<Command>) {
    forall k :: 0 <= k < |cs| ==> NamesCurrentRun(After(r, cs[..k]), cs[k])
  }

  lemma NamesCurrentBefore(r: Remark, cs: seq<Command>, n: nat)
    requires NamesCurrent(r, cs) && n <= |cs|
    ensures NamesCurrent(r, cs[..n])
  {
    forall k | 0 <= k < n
      ensures NamesCurrentRun(After(r, cs[..n][..k]), cs[..n][k])
    {
      assert cs[..n][..k] == cs[..k];
    }
  }

  /** A command of a run that is carried out leaves runs behind; the others keep the runs there are. */
  lemma RunsStay(r: Remark, c: Command)
    ensures r.runs != [] ==> Next(r, c).runs != []
  {
  }

  /** Only a verdict leaves a remark without opinion, and it names a run. */
  lemma UndecidedHasRuns(r: Remark, c: Command)
    requires Next(r, c).status.Unspecified? && !r.status.Unspecified?
    ensures r.runs != []
  {
  }

  lemma NextSound(r: Remark, c: Command)
    requires Sound(r) && NamesCurrentRun(r, c)
    ensures Sound(Next(r, c))
  {
    NextCoupled(r, c);
    RunsStay(r, c);
    if Next(r, c).status.Unspecified? && !r.status.Unspecified? { UndecidedHasRuns(r, c); }
  }

  lemma {:induction false} SoundRun(r: Remark, cs: seq<Command>)
    requires IsNew(r) && NamesCurrent(r, cs)
    ensures Sound(After(r, cs))
  {
    if cs != [] {
      var n := |cs| - 1;
      NamesCurrentBefore(r, cs, n);
      SoundRun(r, cs[..n]);
      NextSound(After(r, cs[..n]), cs[n]);
    }
  }

  // ---------- what must have happened before ----------

  predicate DecidedDefect(row: Row) {
    row.action.Decided? && row.to.Defect? && ByCustomerOrPm(row)
  }

  predicate MarkedFixed(row: Row) {
    row.action.MarkedReady? && row.role == Some(Developer)
  }

  predicate ClosedByCustomer(row: Row) {
    row.action.ClosedIt? && row.role == Some(Business)
  }

  ghost predicate WasDefect(h: seq<Row>, n: nat) {
    exists i :: 0 <= i < n && i < |h| && DecidedDefect(h[i])
  }

  ghost predicate WasFixed(h: seq<Row>, n: nat) {
    exists j :: 0 <= j < n && j < |h| && MarkedFixed(h[j]) && WasDefect(h, j)
  }

  ghost predicate WasClosed(h: seq<Row>, n: nat) {
    exists k :: 0 <= k < n && k < |h| && ClosedByCustomer(h[k]) && WasFixed(h, k)
  }

  predicate IsWork(s: Status) {
    s.Defect? || s.ReadyForRetest? || s.AwaitingBusinessClose? || s.Closed?
  }

  /** What a legal history shows before row n, by the status it has reached there. */
  lemma {:induction false} Provenance(h: seq<Row>, n: nat)
    requires Replays(h) && 0 < n <= |h|
    ensures IsWork(h[n - 1].to) ==> WasDefect(h, n)
    ensures IsWork(h[n - 1].to) && !h[n - 1].to.Defect? ==> WasFixed(h, n)
    ensures h[n - 1].to.Closed? ==> WasClosed(h, n)
  {
    if n > 1 {
      Provenance(h, n - 1);
      assert Follows(h, n - 1);
      var row := h[n - 1];
      if row.action.Decided? && row.to.Defect? { assert DecidedDefect(row); }
      if row.action.MarkedReady? { assert MarkedFixed(row) && WasDefect(h, n - 1); }
      if row.action.ClosedIt? { assert ClosedByCustomer(row) && WasFixed(h, n - 1); }
    }
  }

  /** Every way to `closed` leads over a human verdict "defect", then a developer's "ready", then the customer's close. */
  lemma ClosingHasProvenance(r: Remark, cs: seq<Command>)
    requires IsNew(r) && After(r, cs).status.Closed?
    ensures WasClosed(After(r, cs).history, |After(r, cs).history|)
  {
    HistoryReplays(r, cs);
    Provenance(After(r, cs).history, |After(r, cs).history|);
  }

  /** From a terminal status on, a history stays there. */
  lemma {:induction false} TerminalStays(h: seq<Row>, i: nat, k: nat)
    requires Replays(h) && i <= k < |h| && IsTerminal(h[i].to)
    ensures h[k].to == h[i].to
  {
    if i < k {
      TerminalStays(h, i, k - 1);
      assert Follows(h, k);
      if h[k].to != h[k - 1].to { LegalChangesAreEdges(h[k]); }
    }
  }

  lemma RowLegal(h: seq<Row>, k: nat)
    requires Replays(h) && k < |h|
    ensures Legal(h[k])
  {
    if k > 0 { assert Follows(h, k); }
  }

  lemma NoSecondClose(h: seq<Row>, i: nat, k: nat)
    requires Replays(h) && i < k < |h| && h[i].action.ClosedIt?
    ensures !h[k].action.ClosedIt?
  {
    RowLegal(h, i);
    TerminalStays(h, i, k - 1);
    assert Follows(h, k);
  }

  /** A remark is closed at most once. */
  lemma ClosedOnce(h: seq<Row>, i: nat, k: nat)
    requires Replays(h) && i < |h| && k < |h| && h[i].action.ClosedIt? && h[k].action.ClosedIt?
    ensures i == k
  {
    if i < k {
      NoSecondClose(h, i, k);
    } else if k < i {
      NoSecondClose(h, k, i);
    }
  }
}
