/**
 * A run of the graph and the job that executes it (agent/agent.service.ts `executeJob`, `run` and `resume`, `failRun` and
 * `failStaleRuns` in remarks/remarks.service.ts): the run's status, what its calls cost, and what the queue is told.
 */
module GraphRuns {
  import opened Prelude
  import Q = JobQueue
  import R = Remarks
  import U = Usage

  type RunId = nat
  type ProcId = nat
  type RunStatus = R.RunStatus

  /** How a call of the graph ends: it pauses or finishes, is aborted, or breaks. The error may be one that passes, the
      deadline may be over, and `recorded` is whether the failure can be written. */
  datatype End = Completed | Aborted | Broken(passing: bool, deadline: bool, recorded: bool)

  /** `final` in the handler: no attempt is left. */
  predicate IsFinal(attempt: nat, maxAttempts: nat) {
    attempt >= maxAttempts
  }

  /** The error is left to the next attempt: nothing is written, nothing is taken. */
  predicate LeftToRetry(end: End, attempt: nat, maxAttempts: nat) {
    end.Broken? && end.passing && !end.deadline && !IsFinal(attempt, maxAttempts)
  }

  // ---------- status and usage of all runs ----------

  /** The runs in the database with their counters, and the sums in the memory of each process. */
  datatype World = World(status: map<RunId, RunStatus>, memory: seq<U.Ledger>, stored: U.Ledger)

  datatype Event =
    | Begin(run: RunId)
    /** A call of the model returns, with what it cost if it reported that. */
    | Call(p: ProcId, run: RunId, spend: Option<U.Spend>)
    /** The node that writes the proposal or the retest result; `fits` is whether the remark still awaits it. */
    | Propose(p: ProcId, run: RunId, fits: bool, lost: bool)
    | Ended(p: ProcId, run: RunId, attempt: nat, maxAttempts: nat, end: End)
    /** A verdict that names the run, whatever its status: the graph goes on with another pass, or the run is over. */
    | Decide(run: RunId, again: bool)
    | Cancel(run: RunId)
    /** A run nobody executes any more is given up. */
    | GiveUp(run: RunId)
    | Crash(p: ProcId)

  predicate Has(w: World, run: RunId, status: RunStatus) {
    run in w.status && w.status[run] == status
  }

  predicate Accepted(w: World, e: Event) {
    e.Propose? && Has(w, e.run, R.Running) && e.fits && !e.lost
  }

  predicate FailureWritten(w: World, e: Event) {
    && e.Ended? && e.end.Broken? && !LeftToRetry(e.end, e.attempt, e.maxAttempts)
    && Has(w, e.run, R.Running) && e.end.recorded
  }

  /** The usage of the run leaves the memory of the process, whatever becomes of it. */
  predicate TakesUsage(e: Event) {
    e.Propose? || (e.Ended? && !e.end.Completed? && !LeftToRetry(e.end, e.attempt, e.maxAttempts))
  }

  function StatusAfter(w: World, e: Event): map<RunId, RunStatus> {
    match e
    case Begin(run) => if run in w.status then w.status else w.status[run := R.Running]
    case Propose(_, run, _, _) => if Accepted(w, e) then w.status[run := R.AwaitingHuman] else w.status
    case Ended(_, run, _, _, _) => if FailureWritten(w, e) then w.status[run := R.Failed] else w.status
    case Decide(run, again) =>
      if run in w.status then w.status[run := if again then R.Running else R.Persisted] else w.status
    case Cancel(run) =>
      if Has(w, run, R.Running) || Has(w, run, R.AwaitingHuman) then w.status[run := R.Cancelled] else w.status
    case GiveUp(run) => if Has(w, run, R.Running) then w.status[run := R.Failed] else w.status
    case _ => w.status
  }

  function MemoryAfter(mine: U.Ledger, e: Event): U.Ledger {
    if e.Call? then if e.spend.None? then mine else U.Add(mine, e.run, e.spend.value)
    else if e.Crash? then map[]
    else if TakesUsage(e) then mine - {e.run}
    else mine
  }

  predicate OfProcess(e: Event) {
    e.Call? || e.Propose? || e.Ended? || e.Crash?
  }

  function Step(w: World, e: Event): World {
    if !OfProcess(e) then w.(status := StatusAfter(w, e))
    else if e.p >= |w.memory| then w
    else
      World(StatusAfter(w, e), w.memory[e.p := MemoryAfter(w.memory[e.p], e)],
            if Accepted(w, e) || FailureWritten(w, e) then U.AddToRun(w.stored, e.run, U.Get(w.memory[e.p], e.run)) else w.stored)
  }

  function Nothing(processes: nat): World {
    World(map[], seq(processes, _ => map[]), map[])
  }

  function After(processes: nat, es: seq<Event>): World {
    if es == [] then Nothing(processes) else Step(After(processes, es[..|es| - 1]), es[|es| - 1])
  }

  lemma AfterMore(processes: nat, es: seq<Event>, e: Event)
    ensures After(processes, es + [e]) == Step(After(processes, es), e)
  {
    assert (es + [e])[..|es|] == es;
  }

  // ---------- the ledger of the runs ----------

  /** What the event is to the ledger: branch by branch, whether the usage of the run is kept, stored or let go. */
  function Entry(w: World, e: Event): Option<U.Event> {
    match e
    case Call(p, run, spend) => Some(U.Call(p, run, spend))
    case Propose(p, run, _, _) => Some(U.Store(p, run, Accepted(w, e)))
    case Ended(p, run, attempt, maxAttempts, end) =>
      if end.Completed? || LeftToRetry(end, attempt, maxAttempts) then None
      else if end.Aborted? then Some(U.Abort(p, run))
      else Some(U.Store(p, run, FailureWritten(w, e)))
    case Crash(p) => Some(U.Crash(p))
    case _ => None
  }

  function Entries(processes: nat, es: seq<Event>): seq<U.Event> {
    if es == [] then []
    else
      var entries, entry := Entries(processes, es[..|es| - 1]), Entry(After(processes, es[..|es| - 1]), es[|es| - 1]);
      if entry.None? then entries else entries + [entry.value]
  }

  /** What a call adds to the sum of its run. */
  function Plus(processes: nat, sum: U.Spend, e: Event, run: RunId): U.Spend {
    if e.Call? && e.p < processes && e.run == run && e.spend.Some? then
      U.Spend(sum.input + e.spend.value.input, sum.output + e.spend.value.output, sum.cost + e.spend.value.cost)
    else sum
  }

  /** What the calls of the run reported. */
  function Reported(processes: nat, es: seq<Event>, run: RunId): U.Spend {
    if es == [] then U.Spend(0, 0, 0.0)
    else Plus(processes, Reported(processes, es[..|es| - 1], run), es[|es| - 1], run)
  }

  predicate FairEvent(e: Event) {
    e.Call? && e.spend.Some? ==> U.Honest(e.spend.value)
  }

  ghost predicate FairEvents(es: seq<Event>) {
    forall k :: 0 <= k < |es| ==> FairEvent(es[k])
  }

  /** The memories and counters are those of the ledger. */
  ghost predicate Follows(w: World, u: U.State) {
    w.memory == u.pending && w.stored == u.stored
  }

  lemma StepFollows(w: World, u: U.State, e: Event, entry: U.Event)
    requires Follows(w, u) && Entry(w, e) == Some(entry)
    ensures Follows(Step(w, e), U.Step(u, entry))
  {
  }

  lemma NoEntryFollows(w: World, u: U.State, e: Event)
    requires Follows(w, u) && Entry(w, e).None?
    ensures Follows(Step(w, e), u)
  {
    if OfProcess(e) && e.p < |w.memory| {
      assert w.memory[e.p := w.memory[e.p]] == w.memory;
    }
  }

  lemma EntryAdded(processes: nat, entries: seq<U.Event>, entry: U.Event)
    ensures U.After(processes, entries + [entry]) == U.Step(U.After(processes, entries), entry)
  {
    assert (entries + [entry])[..|entries|] == entries;
  }

  lemma {:induction false} RunsFollowLedger(processes: nat, es: seq<Event>)
    ensures Follows(After(processes, es), U.After(processes, Entries(processes, es)))
  {
    if es != [] {
      var before, e := es[..|es| - 1], es[|es| - 1];
      RunsFollowLedger(processes, before);
      var w, entries := After(processes, before), Entries(processes, before);
      var entry := Entry(w, e);
      if entry.None? {
        NoEntryFollows(w, U.After(processes, entries), e);
      } else {
        StepFollows(w, U.After(processes, entries), e, entry.value);
        EntryAdded(processes, entries, entry.value);
      }
    }
  }

  lemma {:induction false} EntriesAreFair(processes: nat, es: seq<Event>)
    requires FairEvents(es)
    ensures U.FairEvents(Entries(processes, es))
  {
    if es != [] {
      var before, e := es[..|es| - 1], es[|es| - 1];
      assert FairEvents(before) && FairEvent(es[|es| - 1]);
      EntriesAreFair(processes, before);
      var entry := Entry(After(processes, before), e);
      assert entry.Some? ==> U.FairEvent(entry.value);
    }
  }

  lemma ReportedStep(w: World, u: U.State, e: Event, entry: U.Event, run: RunId)
    requires Entry(w, e) == Some(entry)
    ensures U.Get(U.Step(u, entry).reported, run) == Plus(|u.pending|, U.Get(u.reported, run), e, run)
  {
    if e.Call? && e.spend.Some? { U.GetAdded(u.reported, e.run, e.spend.value, run); }
  }

  lemma {:induction false} ReportedInLedger(processes: nat, es: seq<Event>, run: RunId)
    ensures U.Get(U.After(processes, Entries(processes, es)).reported, run) == Reported(processes, es, run)
  {
    if es != [] {
      var before, e := es[..|es| - 1], es[|es| - 1];
      ReportedInLedger(processes, before, run);
      var w, entries := After(processes, before), Entries(processes, before);
      var entry := Entry(w, e);
      if entry.Some? {
        U.AllProcesses(processes, entries);
        ReportedStep(w, U.After(processes, entries), e, entry.value, run);
        EntryAdded(processes, entries, entry.value);
      }
    }
  }

  /** The event lets go of what its process held of the run: a refused or lost proposal, a cancel or stop of the call, a
      failure that is not written because the run is no longer running or the write is lost, a crash. */
  ghost predicate LetsGo(w: World, e: Event, run: RunId) {
    && OfProcess(e) && e.p < |w.memory| && !U.HoldsNone(w.memory, e.p, run)
    && (e.Crash? || (e.run == run && TakesUsage(e) && !Accepted(w, e) && !FailureWritten(w, e)))
  }

  ghost predicate KeepsAll(processes: nat, es: seq<Event>, run: RunId) {
    es == []
    || (KeepsAll(processes, es[..|es| - 1], run) && !LetsGo(After(processes, es[..|es| - 1]), es[|es| - 1], run))
  }

  lemma KeptMore(processes: nat, entries: seq<U.Event>, entry: U.Event, run: RunId)
    ensures U.KeepsAll(processes, entries + [entry], run)
            <==> U.KeepsAll(processes, entries, run) && !U.LetsGo(U.After(processes, entries), entry, run)
  {
    assert (entries + [entry])[..|entries|] == entries;
  }

  lemma LetGoInLedger(w: World, u: U.State, e: Event, entry: U.Event, run: RunId)
    requires Follows(w, u) && Entry(w, e) == Some(entry)
    ensures LetsGo(w, e, run) <==> U.LetsGo(u, entry, run)
  {
  }

  lemma {:induction false} KeptInLedger(processes: nat, es: seq<Event>, run: RunId)
    ensures KeepsAll(processes, es, run) <==> U.KeepsAll(processes, Entries(processes, es), run)
  {
    if es != [] {
      var before, e := es[..|es| - 1], es[|es| - 1];
      KeptInLedger(processes, before, run);
      RunsFollowLedger(processes, before);
      var w, entries := After(processes, before), Entries(processes, before);
      var entry := Entry(w, e);
      if entry.Some? {
        LetGoInLedger(w, U.After(processes, entries), e, entry.value, run);
        KeptMore(processes, entries, entry.value, run);
      }
    }
  }

  /** However the handler's branches follow one another: what the calls of a run reported is what its counters hold, what
      is in the memories and what was let go, so nothing is counted twice. */
  lemma RunSumsUp(processes: nat, es: seq<Event>, run: RunId)
    requires FairEvents(es)
    ensures var w, whole := After(processes, es), Reported(processes, es, run);
            var stored, memory := U.Get(w.stored, run), U.PendingOf(w.memory, run);
            && stored.input + memory.input <= whole.input
            && stored.output + memory.output <= whole.output
            && stored.cost + memory.cost <= whole.cost
    ensures var w, whole := After(processes, es), Reported(processes, es, run);
            var stored, memory := U.Get(w.stored, run), U.PendingOf(w.memory, run);
            KeepsAll(processes, es, run)
            <==> whole == U.Spend(stored.input + memory.input, stored.output + memory.output, stored.cost + memory.cost)
  {
    var entries := Entries(processes, es);
    EntriesAreFair(processes, es);
    RunsFollowLedger(processes, es);
    ReportedInLedger(processes, es, run);
    KeptInLedger(processes, es, run);
    U.UsageIsConserved(processes, entries, run);
    U.DroppedIff(processes, entries, run);
  }

  lemma WriteEntered(processes: nat, es: seq<Event>, e: Event)
    requires Accepted(After(processes, es), e) || FailureWritten(After(processes, es), e)
    ensures Entries(processes, es + [e]) == Entries(processes, es) + [U.Store(e.p, e.run, true)]
  {
    assert (es + [e])[..|es|] == es;
  }

  /** When a proposal or a failure is written, the counters of the run hold all its calls reported, over all passes and
      attempts, if and only if nothing was let go before and no other process holds any of it. */
  lemma WrittenRunIsHonestIff(processes: nat, es: seq<Event>, e: Event)
    requires FairEvents(es) && (Accepted(After(processes, es), e) || FailureWritten(After(processes, es), e)) && e.p < processes
    ensures var w, after := After(processes, es), After(processes, es + [e]);
            |w.memory| == processes
            && (U.Get(after.stored, e.run) == Reported(processes, es, e.run)
                <==> KeepsAll(processes, es, e.run)
                     && forall q: ProcId :: q < processes && q != e.p ==> U.HoldsNone(w.memory, q, e.run))
  {
    var entries := Entries(processes, es);
    EntriesAreFair(processes, es);
    RunsFollowLedger(processes, es);
    RunsFollowLedger(processes, es + [e]);
    ReportedInLedger(processes, es, e.run);
    KeptInLedger(processes, es, e.run);
    U.WrittenRunStoresAllIff(processes, entries, e.p, e.run);
    WriteEntered(processes, es, e);
    EntryAdded(processes, entries, U.Store(e.p, e.run, true));
  }

  predicate IsOver(status: RunStatus) {
    status.Persisted? || status.Failed? || status.Cancelled?
  }

  /** A verdict that names a finished run sets it going again, or calls a failed or cancelled one persisted. */
  predicate Reopens(status: RunStatus, e: Event, run: RunId) {
    e.Decide? && e.run == run && (e.again || !status.Persisted?)
  }

  /** Nothing but such a verdict changes the status of a run that is over, and nothing at all its counters. */
  lemma OverStep(w: World, e: Event, run: RunId)
    requires run in w.status && IsOver(w.status[run])
    ensures var after := Step(w, e);
            && run in after.status && (after.status[run] == w.status[run] <==> !Reopens(w.status[run], e, run))
            && U.Get(after.stored, run) == U.Get(w.stored, run)
  {
    if OfProcess(e) && e.p < |w.memory| && (Accepted(w, e) || FailureWritten(w, e)) {
      U.GetAdded(w.stored, e.run, U.Get(w.memory[e.p], e.run), run);
    }
  }

  /** The run keeps status and counters through all that follows. */
  ghost predicate Rests(processes: nat, es: seq<Event>, more: seq<Event>, run: RunId)
    requires run in After(processes, es).status
  {
    forall k: nat :: k <= |more| ==> SameRun(After(processes, es), After(processes, es + more[..k]), run)
  }

  ghost predicate SameRun(w: World, after: World, run: RunId)
    requires run in w.status
  {
    run in after.status && after.status[run] == w.status[run] && U.Get(after.stored, run) == U.Get(w.stored, run)
  }

  lemma OneMore(processes: nat, es: seq<Event>, more: seq<Event>, k: nat)
    requires k < |more|
    ensures After(processes, es + more[..k + 1]) == Step(After(processes, es + more[..k]), more[k])
  {
    assert es + more[..k + 1] == es + more[..k] + [more[k]];
    AfterMore(processes, es + more[..k], more[k]);
  }

  lemma RestsOneMore(processes: nat, es: seq<Event>, more: seq<Event>, run: RunId, k: nat, first: World)
    requires k < |more| && run in first.status && IsOver(first.status[run]) && !Reopens(first.status[run], more[k], run)
    requires SameRun(first, After(processes, es + more[..k]), run)
    ensures SameRun(first, After(processes, es + more[..k + 1]), run)
  {
    OneMore(processes, es, more, k);
    OverStep(After(processes, es + more[..k]), more[k], run);
  }

  lemma {:induction false} RestsUntil(processes: nat, es: seq<Event>, more: seq<Event>, run: RunId, k: nat)
    requires run in After(processes, es).status && IsOver(After(processes, es).status[run]) && k <= |more|
    requires forall i :: 0 <= i < k ==> !Reopens(After(processes, es).status[run], more[i], run)
    ensures SameRun(After(processes, es), After(processes, es + more[..k]), run)
  {
    if k == 0 {
      assert es + more[..0] == es;
    } else {
      RestsUntil(processes, es, more, run, k - 1);
      RestsOneMore(processes, es, more, run, k - 1, After(processes, es));
    }
  }

  /** A run that is over keeps its status and its counters, and what a memory still holds of it is never written, if and
      only if no verdict that follows reopens it. */
  lemma OverIsFinalIff(processes: nat, es: seq<Event>, more: seq<Event>, run: RunId)
    requires run in After(processes, es).status && IsOver(After(processes, es).status[run])
    ensures Rests(processes, es, more, run)
            <==> forall k :: 0 <= k < |more| ==> !Reopens(After(processes, es).status[run], more[k], run)
  {
    var status := After(processes, es).status[run];
    if Rests(processes, es, more, run) {
      forall k | 0 <= k < |more|
        ensures !Reopens(status, more[k], run)
      {
        assert SameRun(After(processes, es), After(processes, es + more[..k]), run);
        assert SameRun(After(processes, es), After(processes, es + more[..k + 1]), run);
        OneMore(processes, es, more, k);
        OverStep(After(processes, es + more[..k]), more[k], run);
      }
    }
    if forall k :: 0 <= k < |more| ==> !Reopens(status, more[k], run) {
      forall k: nat | k <= |more|
        ensures SameRun(After(processes, es), After(processes, es + more[..k]), run)
      {
        RestsUntil(processes, es, more, run, k);
      }
    }
  }

  /** Whatever run is over: a verdict that rejects its citation, a call and a proposal, and it waits again with more in its
      counters. */
  lemma OverGoesOn(processes: nat, es: seq<Event>, run: RunId, p: ProcId, call: U.Spend) returns (more: seq<Event>)
    requires run in After(processes, es).status && IsOver(After(processes, es).status[run])
    requires p < |After(processes, es).memory| && call.input > 0
    ensures var w, after := After(processes, es), After(processes, es + more);
            && Has(after, run, R.AwaitingHuman)
            && U.Get(after.stored, run).input == U.Get(w.stored, run).input + U.Get(w.memory[p], run).input + call.input
  {
    var e0, e1, e2 := Decide(run, true), Call(p, run, Some(call)), Propose(p, run, true, false);
    more := [e0, e1, e2];
    ThreeMore(processes, es, e0, e1, e2, es + more);
    GoesOn(After(processes, es), e0, e1, e2, run, p, call);
  }

  lemma ThreeMore(processes: nat, es: seq<Event>, e0: Event, e1: Event, e2: Event, all: seq<Event>)
    requires all == es + [e0, e1, e2]
    ensures After(processes, all) == Step(Step(Step(After(processes, es), e0), e1), e2)
  {
    AfterMore(processes, es, e0);
    AfterMore(processes, es + [e0], e1);
    AfterMore(processes, es + [e0] + [e1], e2);
    assert all == es + [e0] + [e1] + [e2];
  }

  lemma GoesOn(w: World, again: Event, called: Event, proposed: Event, run: RunId, p: ProcId, call: U.Spend)
    requires run in w.status && p < |w.memory| && call.input > 0
    requires again == Decide(run, true) && called == Call(p, run, Some(call)) && proposed == Propose(p, run, true, false)
    ensures var after := Step(Step(Step(w, again), called), proposed);
            && Has(after, run, R.AwaitingHuman)
            && U.Get(after.stored, run).input == U.Get(w.stored, run).input + U.Get(w.memory[p], run).input + call.input
  {
    var mid := Step(Step(w, again), called);
    assert Has(mid, run, R.Running) && mid.stored == w.stored && mid.memory[p] == U.Add(w.memory[p], run, call);
    U.GetAdded(w.memory[p], run, call, run);
    U.GetAdded(w.stored, run, U.Get(mid.memory[p], run), run);
  }

  // ---------- the runs of a remark ----------

  /** What the command is to one run of the remark, if it is about it. */
  function RunEvent(r: R.Remark, c: R.Command, run: RunId): Option<Event> {
    match c
    case DoBeginTriage(_) => if R.Do(r, c).Ok? && run == |r.runs| then Some(Begin(run)) else None
    case DoBeginRetest(_) => if R.Do(r, c).Ok? && run == |r.runs| then Some(Begin(run)) else None
    case DoApplyProposal(of) => if of == run then Some(Propose(0, run, r.status.Triaging?, false)) else None
    case DoApplyRetest(of, _, _) => if of == run then Some(Propose(0, run, r.status.ReadyForRetest?, false)) else None
    case DoFailRun(of) => if of == run then Some(Ended(0, run, 1, 1, Broken(false, false, true))) else None
    case DoCancelRun(_, of) => if R.Do(r, c).Ok? && of == run then Some(Cancel(run)) else None
    case DoVerdict(_, of, key, code, _) =>
      if R.Do(r, c).Ok? && of == run && !R.Given(r.verdicts, run, key) then Some(Decide(run, code.RejectedBinding?)) else None
    case DoClose(_) => if R.Do(r, c).Ok? && Settled(r, run) then Some(Decide(run, false)) else None
    case DoNotFixed(_) => if R.Do(r, c).Ok? && Settled(r, run) then Some(Decide(run, false)) else None
    case _ => None
  }

  /** A comparison that waits for the customer is settled with his decision. */
  predicate Settled(r: R.Remark, run: RunId) {
    run < |r.runs| && r.runs[run] == R.Run(R.Retest, R.AwaitingHuman)
  }

  /** The statuses of the remark's runs are those of the world. */
  ghost predicate RunsOf(r: R.Remark, w: World) {
    && (forall run: RunId :: run in w.status <==> run < |r.runs|)
    && forall run: RunId :: run < |r.runs| ==> w.status[run] == r.runs[run].status
  }

  predicate StatusIs(w: World, r: R.Remark, run: RunId) {
    if run < |r.runs| then Has(w, run, r.runs[run].status) else run !in w.status
  }

  predicate MovesAsEvent(r: R.Remark, c: R.Command, w: World, run: RunId) {
    var e := RunEvent(r, c, run);
    StatusIs(if e.Some? then Step(w, e.value) else w, R.Next(r, c), run)
  }

  lemma BeginningsMoveRuns(r: R.Remark, c: R.Command, w: World, run: RunId)
    requires RunsOf(r, w) && |w.memory| > 0 && (c.DoBeginTriage? || c.DoBeginRetest? || c.DoCancelRun? || c.DoVerdict?)
    ensures MovesAsEvent(r, c, w, run)
  {
  }

  lemma ResultsMoveRuns(r: R.Remark, c: R.Command, w: World, run: RunId)
    requires RunsOf(r, w) && |w.memory| > 0 && (c.DoApplyProposal? || c.DoApplyRetest? || c.DoFailRun?)
    ensures MovesAsEvent(r, c, w, run)
  {
  }

  lemma SettlingMovesRuns(r: R.Remark, c: R.Command, w: World, run: RunId)
    requires RunsOf(r, w) && |w.memory| > 0 && (c.DoClose? || c.DoNotFixed?)
    ensures MovesAsEvent(r, c, w, run)
  {
  }

  /** Both models of runs agree: each command on a remark does to each of its runs what the event does. */
  lemma CommandsMoveRuns(r: R.Remark, c: R.Command, w: World, run: RunId)
    requires RunsOf(r, w) && |w.memory| > 0
    ensures var e := RunEvent(r, c, run); StatusIs(if e.Some? then Step(w, e.value) else w, R.Next(r, c), run)
  {
    if c.DoBeginTriage? || c.DoBeginRetest? || c.DoCancelRun? || c.DoVerdict? {
      BeginningsMoveRuns(r, c, w, run);
    } else if c.DoApplyProposal? || c.DoApplyRetest? || c.DoFailRun? {
      ResultsMoveRuns(r, c, w, run);
    } else if c.DoClose? || c.DoNotFixed? {
      SettlingMovesRuns(r, c, w, run);
    }
  }

  lemma Appended(es: seq<Event>, e: Event)
    ensures After(2, es + [e]) == Step(After(2, es), e)
    ensures KeepsAll(2, es + [e], 0) <==> KeepsAll(2, es, 0) && !LetsGo(After(2, es), e, 0)
    ensures Reported(2, es + [e], 0) == Plus(2, Reported(2, es, 0), e, 0)
  {
    assert (es + [e])[..|es|] == es;
  }

  function Held(p0: U.Ledger, p1: U.Ledger): World {
    World(map[0 := R.Running], [p0, p1], map[])
  }

  lemma CallAdds(w: World, p0: U.Ledger, p1: U.Ledger, p: ProcId, call: U.Spend)
    requires w == Held(p0, p1) && p < 2
    ensures Step(w, Call(p, 0, Some(call))) == if p == 0 then Held(U.Add(p0, 0, call), p1) else Held(p0, U.Add(p1, 0, call))
  {
    if p == 0 {
      assert [p0, p1][0 := U.Add(p0, 0, call)] == [U.Add(p0, 0, call), p1];
    } else {
      assert [p0, p1][1 := U.Add(p1, 0, call)] == [p0, U.Add(p1, 0, call)];
    }
  }

  lemma RetryKeeps(w: World, p0: U.Ledger, p1: U.Ledger, e: Event)
    requires w == Held(p0, p1) && e == Ended(0, 0, 1, 3, Broken(true, false, true))
    ensures Step(w, e) == w
  {
    assert [p0, p1][0 := p0] == [p0, p1];
  }

  lemma BeginRun(es: seq<Event>)
    requires es == [Begin(0)]
    ensures KeepsAll(2, es, 0) && Reported(2, es, 0) == U.Spend(0, 0, 0.0) && After(2, es) == Held(map[], map[])
  {
    assert es[..0] == [];
    assert After(2, es[..0]) == Nothing(2) && KeepsAll(2, es[..0], 0) && Reported(2, es[..0], 0) == U.Spend(0, 0, 0.0);
    assert Nothing(2).memory == [map[], map[]];
  }

  /** A first attempt breaks in one process with an error that passes, the second runs in another and proposes: nothing was
      let go, and still half of what the calls reported is missing from the counters. */
  lemma RetryElsewhere(call: U.Spend) returns (es: seq<Event>, e: Event)
    requires call == U.Spend(1, 0, 0.0)
    ensures Accepted(After(2, es), e) && KeepsAll(2, es, 0)
    ensures U.Get(After(2, es + [e]).stored, 0) == call && Reported(2, es, 0) == U.Spend(2, 0, 0.0)
  {
    es := [Begin(0)];
    BeginRun(es);
    CallAdds(After(2, es), map[], map[], 0, call);
    Appended(es, Call(0, 0, Some(call)));
    es := es + [Call(0, 0, Some(call))];
    var ended, p0 := Ended(0, 0, 1, 3, Broken(true, false, true)), U.Add(map[], 0, call);
    RetryKeeps(After(2, es), p0, map[], ended);
    Appended(es, ended);
    es := es + [ended];
    CallAdds(After(2, es), p0, map[], 1, call);
    Appended(es, Call(1, 0, Some(call)));
    es := es + [Call(1, 0, Some(call))];
    assert After(2, es) == Held(p0, U.Add(map[], 0, call));
    e := Propose(1, 0, true, false);
    Appended(es, e);
  }

  // ---------- the job of a run ----------

  datatype Action = Start | Resume

  /** What a job of the graph meets: whether the run can be looked up and how it was found, whether old checkpoints can be
      deleted, whether there is a pause to resume from or an input to begin again with, whether it was not aborted while it
      waited for a slot, and how the call of the graph ends. */
  datatype Attempt = Attempt(
    action: Action, lookup: bool, found: Option<RunStatus>, cleanup: bool, paused: bool, fallback: bool, slot: bool,
    end: End)

  /** R.Cancelled or failed while the job waited, or no longer running when it would start. */
  predicate Skips(a: Attempt) {
    a.found.None? || a.found.value.Cancelled? || a.found.value.Failed? || (a.action.Start? && !a.found.value.Running?)
  }

  /** An error outside the call of the graph. */
  predicate PlainError(a: Attempt, attempt: nat) {
    !a.lookup || (!Skips(a) && a.action.Start? && attempt > 1 && !a.cleanup)
  }

  predicate CallsGraph(a: Attempt, attempt: nat) {
    a.lookup && !Skips(a) && a.slot && if a.action.Start? then attempt <= 1 || a.cleanup else a.paused || a.fallback
  }

  /** What the handler tells the queue. */
  function Told(a: Attempt, attempt: nat, maxAttempts: nat): Q.Outcome {
    if PlainError(a, attempt) then Q.Error
    else if CallsGraph(a, attempt) && LeftToRetry(a.end, attempt, maxAttempts) then Q.RetryAsked(None)
    else Q.Success
  }

  /** What the queue then writes: a lost write of `done` is caught like an error of the handler and written as failed. */
  function Outcome(told: Q.Outcome, first: bool, second: bool): Q.Outcome {
    if first then told else if told.Success? && second then Q.Error else Q.WriteLost
  }

  /** What the job leaves of runs and usage, which were `w` when the call of the graph ended. */
  function Leaves(w: World, p: ProcId, run: RunId, a: Attempt, attempt: nat, maxAttempts: nat): World {
    if CallsGraph(a, attempt) then Step(w, Ended(p, run, attempt, maxAttempts, a.end)) else w
  }

  /** A job of the run waits or is executed: the run is not given up. */
  ghost predicate HasLiveJob(rows: Q.Rows, run: RunId) {
    exists id :: id in rows && LiveJob(rows[id], run)
  }

  predicate LiveJob(j: Q.Job, run: RunId) {
    j.run == Some(run) && !Q.Terminal(j.status)
  }

  /** The job of a run and its row as `executeJob` leaves them to the queue. */
  ghost function RowsAfter(t: Q.Timing, o: Q.Settings, es: seq<Q.Event>, p: ProcId, id: Q.JobId, outcome: Q.Outcome): Q.Rows
    requires Q.Executing(Q.After(t, o, es), p, id) && id in Q.After(t, o, es).rows
  {
    Q.Apply(t, o, Q.After(t, o, es), Q.Finish(p, id, outcome)).rows
  }

  /** The end of an execution is written to its row and to no other. */
  lemma RowFinished(t: Q.Timing, o: Q.Settings, es: seq<Q.Event>, p: ProcId, id: Q.JobId, outcome: Q.Outcome)
    requires Q.Executing(Q.After(t, o, es), p, id) && id in Q.After(t, o, es).rows
    ensures var s := Q.After(t, o, es);
            var j := Q.Written(o, s.rows[id], s.procs[p].active[id].attempt, outcome, Q.Clock(s, p));
            RowsAfter(t, o, es, p, id, outcome) == s.rows[id := j]
  {
  }

  lemma OutcomeWritten(o: Q.Settings, j: Q.Job, a: Attempt, first: bool, second: bool, clock: int)
    requires j.status.Running?
    ensures var told := Told(a, j.attempts, j.maxAttempts);
            var status := Q.Written(o, j, j.attempts, Outcome(told, first, second), clock).status;
            && (status.Queued? <==> first && CallsGraph(a, j.attempts) && LeftToRetry(a.end, j.attempts, j.maxAttempts))
            && (status.Failed? <==> if first then PlainError(a, j.attempts) else told.Success? && second)
            && (status.Running? <==> !first && (!told.Success? || !second))
            && (status.Done? <==> first && told.Success?)
  {
  }

  /** Handler and queue agree, in every run of the queue: the job goes back exactly when the call of the graph broke with
      an error that passes, before its deadline, and fewer claims were made than attempts are allowed; the job fails only
      by an error outside the call or a lost write of its end, never on a retry. */
  lemma HandlerAndQueueAgree(t: Q.Timing, o: Q.Settings, es: seq<Q.Event>, p: ProcId, id: Q.JobId, a: Attempt,
                             first: bool, second: bool)
    requires Q.Fits(t) && Q.IsRun(t, o, es) && Q.Executing(Q.After(t, o, es), p, id) && id in Q.After(t, o, es).rows
    ensures var s := Q.After(t, o, es);
            var attempt, maxAttempts := s.procs[p].active[id].attempt, s.rows[id].maxAttempts;
            var told := Told(a, attempt, maxAttempts);
            var status := RowsAfter(t, o, es, p, id, Outcome(told, first, second))[id].status;
            && attempt == Q.Claims(es, id)
            && (status.Queued? <==>
                  first && CallsGraph(a, attempt) && a.end.Broken? && a.end.passing && !a.end.deadline
                  && Q.Claims(es, id) < maxAttempts)
            && (status.Failed? <==> if first then PlainError(a, attempt) else told.Success? && second)
            && (status.Done? <==> first && told.Success?)
  {
    var s := Q.After(t, o, es);
    Q.EndIsWrittenByHolder(t, o, es, p, id);
    Q.AttemptsAreClaims(t, o, es, id);
    var attempt, maxAttempts := s.procs[p].active[id].attempt, s.rows[id].maxAttempts;
    RowFinished(t, o, es, p, id, Outcome(Told(a, attempt, maxAttempts), first, second));
    OutcomeWritten(o, s.rows[id], a, first, second, Q.Clock(s, p));
  }

  lemma OtherRowsStay(t: Q.Timing, o: Q.Settings, es: seq<Q.Event>, p: ProcId, id: Q.JobId, outcome: Q.Outcome, run: RunId)
    requires Q.Executing(Q.After(t, o, es), p, id) && id in Q.After(t, o, es).rows
    requires var rows := Q.After(t, o, es).rows;
             rows[id].run == Some(run) && forall i :: i in rows && i != id ==> !LiveJob(rows[i], run)
    ensures var after := RowsAfter(t, o, es, p, id, outcome);
            id in after && (HasLiveJob(after, run) <==> !Q.Terminal(after[id].status))
  {
    var rows, after := Q.After(t, o, es).rows, RowsAfter(t, o, es, p, id, outcome);
    RowFinished(t, o, es, p, id, outcome);
    if !Q.Terminal(after[id].status) {
      assert LiveJob(after[id], run);
    } else {
      forall i | i in after
        ensures !LiveJob(after[i], run)
      {
        if i != id { assert after[i] == rows[i]; }
      }
    }
  }

  /** What becomes of a run whose call of the graph broke, when the queue's write is not lost. It is left running with its
      job back in the queue, or failed with its job done, or, exactly when the failure could not be written, left running
      with its job done and no live job, which is when the sweep gives it up. */
  lemma BrokenRunIsSettled(t: Q.Timing, o: Q.Settings, es: seq<Q.Event>, p: ProcId, id: Q.JobId, run: RunId, a: Attempt,
                           w: World)
    requires Q.Fits(t) && Q.IsRun(t, o, es) && Q.Executing(Q.After(t, o, es), p, id) && id in Q.After(t, o, es).rows
    requires var rows := Q.After(t, o, es).rows;
             rows[id].run == Some(run) && forall i :: i in rows && i != id ==> !LiveJob(rows[i], run)
    requires a.end.Broken? && CallsGraph(a, Q.Claims(es, id)) && Has(w, run, R.Running) && p < |w.memory|
    ensures var claims, maxAttempts := Q.Claims(es, id), Q.After(t, o, es).rows[id].maxAttempts;
            var after := RowsAfter(t, o, es, p, id, Told(a, claims, maxAttempts));
            var left := Leaves(w, p, run, a, claims, maxAttempts);
            var status := left.status[run];
            && (status.Running? || status.Failed?)
            && (after[id].status.Queued? || after[id].status.Done?)
            && (status.Failed? <==> after[id].status.Done? && a.end.recorded)
            && (HasLiveJob(after, run) <==> LeftToRetry(a.end, claims, maxAttempts))
            && (status.Running? && !HasLiveJob(after, run) <==> !LeftToRetry(a.end, claims, maxAttempts) && !a.end.recorded)
  {
    HandlerAndQueueAgree(t, o, es, p, id, a, true, true);
    var maxAttempts := Q.After(t, o, es).rows[id].maxAttempts;
    OtherRowsStay(t, o, es, p, id, Told(a, Q.Claims(es, id), maxAttempts), run);
  }

  /** An error outside the call of the graph strands the run: its job is over and the run as it was. */
  lemma PlainErrorStrands(t: Q.Timing, o: Q.Settings, es: seq<Q.Event>, p: ProcId, id: Q.JobId, run: RunId, a: Attempt,
                          w: World)
    requires Q.Fits(t) && Q.IsRun(t, o, es) && Q.Executing(Q.After(t, o, es), p, id) && id in Q.After(t, o, es).rows
    requires var rows := Q.After(t, o, es).rows;
             rows[id].run == Some(run) && forall i :: i in rows && i != id ==> !LiveJob(rows[i], run)
    requires PlainError(a, Q.Claims(es, id))
    ensures var claims, maxAttempts := Q.Claims(es, id), Q.After(t, o, es).rows[id].maxAttempts;
            var after := RowsAfter(t, o, es, p, id, Told(a, claims, maxAttempts));
            after[id].status.Failed? && !HasLiveJob(after, run) && Leaves(w, p, run, a, claims, maxAttempts) == w
  {
    HandlerAndQueueAgree(t, o, es, p, id, a, true, true);
    var maxAttempts := Q.After(t, o, es).rows[id].maxAttempts;
    OtherRowsStay(t, o, es, p, id, Told(a, Q.Claims(es, id), maxAttempts), run);
  }

  // ---------- runs nobody executes ----------

  /** A run as the sweep sees it; `changed` is when its remark last changed by it. */
  datatype Run = Run(status: RunStatus, createdAt: int, changed: Option<int>)

  ghost predicate GivenUp(rows: Q.Rows, run: RunId, r: Run, cutoff: int) {
    && r.status.Running? && r.createdAt < cutoff && !HasLiveJob(rows, run)
    && (r.changed.None? || r.changed.value < cutoff)
  }

  ghost function OpenToSweep(rows: Q.Rows, runs: map<RunId, Run>, cutoff: int): set<RunId> {
    set run | run in runs && GivenUp(rows, run, runs[run], cutoff)
  }

  function Failing(runs: map<RunId, Run>, some: set<RunId>): map<RunId, Run> {
    map run | run in runs :: if run in some then runs[run].(status := R.Failed) else runs[run]
  }

  /** The runs the sweep looks at. */
  function Candidates(runs: map<RunId, Run>, cutoff: int): set<RunId> {
    set run | run in runs && runs[run].status.Running? && runs[run].createdAt < cutoff
  }

  lemma OneMoreFails(runs: map<RunId, Run>, some: set<RunId>, run: RunId)
    requires run in runs && run !in some
    ensures Failing(runs, some).Keys == runs.Keys && Failing(runs, some)[run] == runs[run]
    ensures Failing(runs, some)[run := runs[run].(status := R.Failed)] == Failing(runs, some + {run})
  {
  }

  class RunTable {
    var runs: map<RunId, Run>

    /** `job.count` over the jobs of the run that wait or are executed. */
    method CountLiveJobs(rows: Q.Rows, run: RunId) returns (count: nat)
      ensures count == |set id | id in rows && LiveJob(rows[id], run)|
      ensures count == 0 <==> !HasLiveJob(rows, run)
    {
      var live := set id | id in rows && LiveJob(rows[id], run);
      count := |live|;
      assert forall id :: id in rows && LiveJob(rows[id], run) ==> id in live;
      if live != {} {
        var id :| id in live;
        assert LiveJob(rows[id], run);
      }
    }

    /** Nobody executes the run and nothing happened to its remark by it since. */
    method IsAbandoned(rows: Q.Rows, run: RunId, cutoff: int) returns (abandoned: bool)
      requires run in runs && runs[run].status.Running? && runs[run].createdAt < cutoff
      ensures abandoned <==> GivenUp(rows, run, runs[run], cutoff)
    {
      var pending := CountLiveJobs(rows, run);
      abandoned := pending == 0 && (runs[run].changed.None? || runs[run].changed.value < cutoff);
    }

    /** `failStaleRuns`: returns how many runs were given up. */
    method FailStaleRuns(rows: Q.Rows, cutoff: int) returns (n: nat)
      modifies this
      ensures runs == Failing(old(runs), OpenToSweep(rows, old(runs), cutoff))
      ensures n == |OpenToSweep(rows, old(runs), cutoff)|
    {
      n := 0;
      ghost var before, failed := runs, {};
      var left := Candidates(runs, cutoff);
      while left != {}
        invariant left <= before.Keys && failed <= before.Keys && failed !! left && n == |failed|
        invariant runs == Failing(before, failed)
        invariant forall run :: run in before && run !in left ==> (run in failed <==> GivenUp(rows, run, before[run], cutoff))
      {
        var run: RunId :| run in left;
        left := left - {run};
        OneMoreFails(before, failed, run);
        var abandoned := IsAbandoned(rows, run, cutoff);
        if abandoned {
          runs := runs[run := runs[run].(status := R.Failed)];
          failed := failed + {run};
          n := n + 1;
        }
      }
      assert failed == OpenToSweep(rows, before, cutoff);
    }
  }

  // ---------- the handler in one process ----------

  /** The service in one process: the sums of its calls, and the runs in the database it writes to. */
  class AgentService {
    const id: ProcId
    const llm: U.Meter
    const db: Database

    constructor (id: ProcId, llm: U.Meter, db: Database)
      ensures this.id == id && this.llm == llm && this.db == db
    {
      this.id, this.llm, this.db := id, llm, db;
    }

    ghost predicate Matches(w: World)
      reads this, llm, db
    {
      db.status == w.status && db.stored == w.stored && id < |w.memory| && w.memory[id] == llm.usage
    }

    /** The node that writes the proposal: the usage is taken before anything is written. */
    method WriteProposal(run: RunId, fits: bool, lost: bool, ghost w: World)
      requires Matches(w)
      modifies llm, db
      ensures Matches(Step(w, Propose(id, run, fits, lost)))
    {
      var usage := llm.TakeUsage(run);
      if fits && !lost && run in db.status && db.status[run].Running? {
        db.status := db.status[run := R.AwaitingHuman];
        db.stored := U.AddToRun(db.stored, run, usage);
      }
    }

    /** The `catch` of `run`. */
    method Caught(run: RunId, attempt: nat, maxAttempts: nat, end: End, ghost w: World) returns (retry: bool)
      requires Matches(w) && !end.Completed?
      modifies llm, db
      ensures Matches(Step(w, Ended(id, run, attempt, maxAttempts, end)))
      ensures retry <==> LeftToRetry(end, attempt, maxAttempts)
    {
      if end.Aborted? {
        var _ := llm.TakeUsage(run);
        return false;
      }
      if !end.deadline && end.passing && attempt < maxAttempts {
        assert w.memory[id := w.memory[id]] == w.memory;
        return true;
      }
      var usage := llm.TakeUsage(run);
      if end.recorded && run in db.status && db.status[run].Running? {
        db.status := db.status[run := R.Failed];
        db.stored := U.AddToRun(db.stored, run, usage);
      }
      return false;
    }

    /** `executeJob`: `w` is how things are when the call of the graph has ended. */
    method ExecuteJob(a: Attempt, run: RunId, attempt: nat, maxAttempts: nat, ghost w: World) returns (told: Q.Outcome)
      requires Matches(w)
      modifies llm, db
      ensures told == Told(a, attempt, maxAttempts)
      ensures Matches(Leaves(w, id, run, a, attempt, maxAttempts))
    {
      if !a.lookup {
        return Q.Error;
      }
      if a.found.None? || a.found.value == R.Cancelled || a.found.value == R.Failed {
        return Q.Success;
      }
      if a.action.Start? {
        if a.found.value != R.Running {
          return Q.Success;
        }
        if attempt > 1 && !a.cleanup {
          return Q.Error;
        }
      } else if !a.paused && !a.fallback {
        return Q.Success;
      }
      if !a.slot {
        return Q.Success;
      }
      if a.end.Completed? {
        assert w.memory[id := w.memory[id]] == w.memory;
        return Q.Success;
      }
      var retry := Caught(run, attempt, maxAttempts, a.end, w);
      return if retry then Q.RetryAsked(None) else Q.Success;
    }
  }

  /** The runs in the database and their counters. */
  class Database {
    var status: map<RunId, RunStatus>
    var stored: U.Ledger
  }
}
