/**
 * What a run of the graph costs (llm/openai-triage-llm.ts `track` and `takeUsage`, `addUsage` in remarks/remarks.service.ts):
 * calls are summed in the memory of the process, taken once, and added to the counters of the run.
 */
module Usage {
  import opened Prelude

  type RunId = nat
  type ProcId = nat

  datatype Spend = Spend(input: nat, output: nat, cost: real)

  /** Prices per million tokens; a model without a price costs nothing. */
  datatype Price = Price(input: real, output: real)

  predicate Fair(price: Option<Price>) {
    price.Some? ==> price.value.input >= 0.0 && price.value.output >= 0.0
  }

  function CostOf(price: Option<Price>, input: nat, output: nat): real {
    if price.None? then 0.0
    else (input as real * price.value.input + output as real * price.value.output) / 1000000.0
  }

  /** What a call reports; a model may report nothing. */
  datatype Report = Report(input: nat, output: nat)

  function SpendOf(price: Option<Price>, report: Report): Spend {
    Spend(report.input, report.output, CostOf(price, report.input, report.output))
  }

  type Ledger = map<RunId, Spend>

  function Get(ledger: Ledger, run: RunId): Spend {
    if run in ledger then ledger[run] else Spend(0, 0, 0.0)
  }

  function Add(ledger: Ledger, run: RunId, spend: Spend): Ledger {
    var u := Get(ledger, run);
    ledger[run := Spend(u.input + spend.input, u.output + spend.output, u.cost + spend.cost)]
  }

  /** `addUsage`: nothing is written for no tokens. */
  function AddToRun(ledger: Ledger, run: RunId, spend: Spend): Ledger {
    if spend.input == 0 && spend.output == 0 then ledger else Add(ledger, run, spend)
  }

  /** The memory of each process, and what was stored, was reported, and was let go. */
  datatype State = State(pending: seq<Ledger>, stored: Ledger, reported: Ledger, dropped: Ledger)

  datatype Event =
    /** A call of the model returns, with what it cost if it reported that. */
    | Call(p: ProcId, run: RunId, spend: Option<Spend>)
    /** The run writes its proposal, its retest result or its failure; the write is done, or is refused or lost. */
    | Store(p: ProcId, run: RunId, written: bool)
    /** The run is cancelled by a human, or its process stops. */
    | Abort(p: ProcId, run: RunId)
    | Crash(p: ProcId)

  function DropAll(dropped: Ledger, pending: Ledger): Ledger {
    map run | run in dropped.Keys + pending.Keys ::
      Spend(Get(dropped, run).input + Get(pending, run).input, Get(dropped, run).output + Get(pending, run).output,
            Get(dropped, run).cost + Get(pending, run).cost)
  }

  /** The sums of the process after the event. */
  function MineAfter(mine: Ledger, e: Event): Ledger {
    match e
    case Call(_, run, spend) => if spend.None? then mine else Add(mine, run, spend.value)
    case Store(_, run, _) => mine - {run}
    case Abort(_, run) => mine - {run}
    case Crash(_) => mine - mine.Keys
  }

  function ReportedAfter(reported: Ledger, e: Event): Ledger {
    if e.Call? && e.spend.Some? then Add(reported, e.run, e.spend.value) else reported
  }

  function StoredAfter(stored: Ledger, mine: Ledger, e: Event): Ledger {
    if e.Store? && e.written then AddToRun(stored, e.run, Get(mine, e.run)) else stored
  }

  function DroppedAfter(dropped: Ledger, mine: Ledger, e: Event): Ledger {
    match e
    case Call(_, _, _) => dropped
    case Store(_, run, written) => if written then dropped else Add(dropped, run, Get(mine, run))
    case Abort(_, run) => Add(dropped, run, Get(mine, run))
    case Crash(_) => DropAll(dropped, mine)
  }

  function Step(s: State, e: Event): State {
    if e.p >= |s.pending| then s
    else
      var mine := s.pending[e.p];
      State(s.pending[e.p := MineAfter(mine, e)], StoredAfter(s.stored, mine, e), ReportedAfter(s.reported, e),
            DroppedAfter(s.dropped, mine, e))
  }

  function Start(processes: nat): State {
    State(seq(processes, _ => map[]), map[], map[], map[])
  }

  function After(processes: nat, es: seq<Event>): State {
    if es == [] then Start(processes) else Step(After(processes, es[..|es| - 1]), es[|es| - 1])
  }

  // ---------- conservation ----------

  function PendingOf(pending: seq<Ledger>, run: RunId): Spend {
    if pending == [] then Spend(0, 0, 0.0)
    else
      var rest, last := PendingOf(pending[..|pending| - 1], run), Get(pending[|pending| - 1], run);
      Spend(rest.input + last.input, rest.output + last.output, rest.cost + last.cost)
  }

  /** Counter by counter: what one process gains, all processes gain together. */
  ghost predicate SumFollows(pending: seq<Ledger>, p: ProcId, m: Ledger, run: RunId)
    requires p < |pending|
  {
    var sum0, sum1 := PendingOf(pending, run), PendingOf(pending[p := m], run);
    var mine0, mine1 := Get(pending[p], run), Get(m, run);
    && sum1.input + mine0.input == sum0.input + mine1.input
    && sum1.output + mine0.output == sum0.output + mine1.output
    && sum1.cost + mine0.cost == sum0.cost + mine1.cost
  }

  lemma {:induction false} PendingChanged(pending: seq<Ledger>, p: ProcId, m: Ledger, run: RunId)
    requires p < |pending|
    ensures SumFollows(pending, p, m, run)
  {
    var n := |pending| - 1;
    if p < n {
      PendingChanged(pending[..n], p, m, run);
      assert pending[p := m][..n] == pending[..n][p := m];
    } else {
      assert pending[p := m][..n] == pending[..n];
    }
  }

  /** No tokens, no cost: what `addUsage` skips is nothing. */
  predicate Honest(spend: Spend) {
    spend.cost >= 0.0 && (spend.input == 0 && spend.output == 0 ==> spend.cost == 0.0)
  }

  ghost predicate HonestAt(pending: seq<Ledger>, p: ProcId, run: RunId)
    requires p < |pending|
  {
    Honest(Get(pending[p], run))
  }

  ghost predicate AllHonest(s: State) {
    forall p: ProcId, run: RunId :: p < |s.pending| ==> HonestAt(s.pending, p, run)
  }

  predicate FairEvent(e: Event) {
    e.Call? && e.spend.Some? ==> Honest(e.spend.value)
  }

  ghost predicate FairEvents(es: seq<Event>) {
    forall k :: 0 <= k < |es| ==> FairEvent(es[k])
  }

  /** What a call costs at prices that are not negative. */
  lemma SpendIsHonest(price: Option<Price>, report: Report)
    requires Fair(price)
    ensures Honest(SpendOf(price, report))
  {
    if price.Some? {
      var a, b := report.input as real, report.output as real;
      assert a * price.value.input >= 0.0 && b * price.value.output >= 0.0;
      if report.input == 0 && report.output == 0 { assert a * price.value.input == 0.0 && b * price.value.output == 0.0; }
    }
  }

  /** A million tokens cost their price, and every token the same; a model without a price costs nothing. */
  lemma CostMeaning(price: Price, i1: nat, o1: nat, i2: nat, o2: nat)
    ensures CostOf(Some(price), 1000000, 0) == price.input && CostOf(Some(price), 0, 1000000) == price.output
    ensures CostOf(Some(price), i1 + i2, o1 + o2) == CostOf(Some(price), i1, o1) + CostOf(Some(price), i2, o2)
    ensures CostOf(None, i1, o1) == 0.0
  {
    var a, b, c, d := i1 as real, i2 as real, o1 as real, o2 as real;
    assert (i1 + i2) as real == a + b && (o1 + o2) as real == c + d;
    assert (a + b) * price.input == a * price.input + b * price.input;
    assert (c + d) * price.output == c * price.output + d * price.output;
  }

  /** Reported is stored, pending and dropped together. */
  predicate Conserved(s: State, run: RunId) {
    var whole, stored, pending, dropped := Get(s.reported, run), Get(s.stored, run), PendingOf(s.pending, run), Get(s.dropped, run);
    && whole.input == stored.input + pending.input + dropped.input
    && whole.output == stored.output + pending.output + dropped.output
    && whole.cost == stored.cost + pending.cost + dropped.cost
  }

  lemma GetAdded(ledger: Ledger, run: RunId, spend: Spend, other: RunId)
    ensures other == run ==> Get(Add(ledger, run, spend), other).input == Get(ledger, run).input + spend.input
    ensures other == run ==> Get(Add(ledger, run, spend), other).output == Get(ledger, run).output + spend.output
    ensures other == run ==> Get(Add(ledger, run, spend), other).cost == Get(ledger, run).cost + spend.cost
    ensures other != run ==> Get(Add(ledger, run, spend), other) == Get(ledger, other)
  {
  }

  lemma GetTaken(ledger: Ledger, run: RunId, other: RunId)
    ensures Get(ledger - {run}, other) == if other == run then Spend(0, 0, 0.0) else Get(ledger, other)
  {
  }

  lemma GetDropped(dropped: Ledger, pending: Ledger, run: RunId)
    ensures Get(DropAll(dropped, pending), run).input == Get(dropped, run).input + Get(pending, run).input
    ensures Get(DropAll(dropped, pending), run).output == Get(dropped, run).output + Get(pending, run).output
    ensures Get(DropAll(dropped, pending), run).cost == Get(dropped, run).cost + Get(pending, run).cost
  {
  }

  lemma HonestAdded(ledger: Ledger, r: RunId, spend: Spend, run: RunId)
    requires Honest(Get(ledger, run)) && Honest(spend)
    ensures Honest(Get(Add(ledger, r, spend), run))
  {
    GetAdded(ledger, r, spend, run);
  }

  lemma MineHonest(mine: Ledger, e: Event, run: RunId)
    requires Honest(Get(mine, run)) && FairEvent(e)
    ensures Honest(Get(MineAfter(mine, e), run))
  {
    match e
    case Call(_, r, spend) => if spend.Some? { HonestAdded(mine, r, spend.value, run); }
    case Store(_, r, _) => GetTaken(mine, r, run);
    case Abort(_, r) => GetTaken(mine, r, run);
    case Crash(_) =>
  }

  lemma StepHonest(s: State, e: Event)
    requires AllHonest(s) && FairEvent(e)
    ensures AllHonest(Step(s, e))
  {
    var after := Step(s, e);
    forall p: ProcId, run: RunId | p < |after.pending|
      ensures HonestAt(after.pending, p, run)
    {
      assert HonestAt(s.pending, p, run);
      if p == e.p { MineHonest(s.pending[p], e, run); }
    }
  }

  /** What the accounts of the run gain and lose by an event adds up, counter by counter. */
  ghost predicate EventBalances(reported: Ledger, stored: Ledger, mine: Ledger, dropped: Ledger, e: Event, run: RunId) {
    var r0, s0, m0, d0 := Get(reported, run), Get(stored, run), Get(mine, run), Get(dropped, run);
    var r1, s1 := Get(ReportedAfter(reported, e), run), Get(StoredAfter(stored, mine, e), run);
    var m1, d1 := Get(MineAfter(mine, e), run), Get(DroppedAfter(dropped, mine, e), run);
    && r0.input + s1.input + m1.input + d1.input == r1.input + s0.input + m0.input + d0.input
    && r0.output + s1.output + m1.output + d1.output == r1.output + s0.output + m0.output + d0.output
    && r0.cost + s1.cost + m1.cost + d1.cost == r1.cost + s0.cost + m0.cost + d0.cost
  }

  lemma CallBalances(reported: Ledger, stored: Ledger, mine: Ledger, dropped: Ledger, e: Event, run: RunId)
    requires e.Call?
    ensures EventBalances(reported, stored, mine, dropped, e, run)
  {
    if e.spend.Some? {
      GetAdded(mine, e.run, e.spend.value, run);
      GetAdded(reported, e.run, e.spend.value, run);
    }
  }

  lemma StoreBalances(reported: Ledger, stored: Ledger, mine: Ledger, dropped: Ledger, e: Event, run: RunId)
    requires e.Store? && Honest(Get(mine, run))
    ensures EventBalances(reported, stored, mine, dropped, e, run)
  {
    GetTaken(mine, e.run, run);
    if e.written {
      GetAdded(stored, e.run, Get(mine, e.run), run);
    } else {
      GetAdded(dropped, e.run, Get(mine, e.run), run);
    }
  }

  lemma AbortBalances(reported: Ledger, stored: Ledger, mine: Ledger, dropped: Ledger, e: Event, run: RunId)
    requires e.Abort?
    ensures EventBalances(reported, stored, mine, dropped, e, run)
  {
    GetTaken(mine, e.run, run);
    GetAdded(dropped, e.run, Get(mine, e.run), run);
  }

  lemma AllTaken(mine: Ledger, run: RunId)
    ensures Get(mine - mine.Keys, run).input == Get(mine - mine.Keys, run).output == 0
    ensures Get(mine - mine.Keys, run).cost == 0.0
  {
  }

  lemma CrashBalances(reported: Ledger, stored: Ledger, mine: Ledger, dropped: Ledger, e: Event, run: RunId)
    requires e.Crash?
    ensures EventBalances(reported, stored, mine, dropped, e, run)
  {
    AllTaken(mine, run);
    GetDropped(dropped, mine, run);
    assert MineAfter(mine, e) == mine - mine.Keys;
    assert DroppedAfter(dropped, mine, e) == DropAll(dropped, mine);
  }

  lemma Balance(reported: Ledger, stored: Ledger, mine: Ledger, dropped: Ledger, e: Event, run: RunId)
    requires Honest(Get(mine, run))
    ensures EventBalances(reported, stored, mine, dropped, e, run)
  {
    match e
    case Call(_, _, _) => CallBalances(reported, stored, mine, dropped, e, run);
    case Store(_, _, _) => StoreBalances(reported, stored, mine, dropped, e, run);
    case Abort(_, _) => AbortBalances(reported, stored, mine, dropped, e, run);
    case Crash(_) => CrashBalances(reported, stored, mine, dropped, e, run);
  }

  lemma StepConserves(s: State, e: Event, run: RunId)
    requires AllHonest(s) && Conserved(s, run)
    ensures Conserved(Step(s, e), run)
  {
    if e.p < |s.pending| {
      var mine := s.pending[e.p];
      assert HonestAt(s.pending, e.p, run);
      Balance(s.reported, s.stored, mine, s.dropped, e, run);
      PendingChanged(s.pending, e.p, MineAfter(mine, e), run);
    }
  }

  lemma {:induction false} NothingPending(processes: nat, run: RunId)
    ensures PendingOf(Start(processes).pending, run) == Spend(0, 0, 0.0)
  {
    if processes > 0 {
      NothingPending(processes - 1, run);
      assert Start(processes).pending[..processes - 1] == Start(processes - 1).pending;
    }
  }

  lemma StartIsHonest(processes: nat)
    ensures AllHonest(Start(processes))
  {
    forall p: ProcId, run: RunId | p < processes
      ensures HonestAt(Start(processes).pending, p, run)
    {
    }
  }

  /** For every run, whatever retries, second passes, failures, cancels and crashes there were, on any number of
      processes: what the calls reported is what is stored, still pending, or was dropped; nothing is counted twice. */
  lemma {:induction false} UsageIsConserved(processes: nat, es: seq<Event>, run: RunId)
    requires FairEvents(es)
    ensures Conserved(After(processes, es), run) && AllHonest(After(processes, es))
  {
    if es == [] {
      NothingPending(processes, run);
      StartIsHonest(processes);
    } else {
      var before, e := es[..|es| - 1], es[|es| - 1];
      assert FairEvents(before) && FairEvent(es[|es| - 1]);
      UsageIsConserved(processes, before, run);
      StepHonest(After(processes, before), e);
      StepConserves(After(processes, before), e, run);
    }
  }

  // ---------- what is dropped, what is stored ----------

  /** An event that lets usage of the run go. */
  predicate Drops(e: Event, run: RunId) {
    match e
    case Call(_, _, _) => false
    case Store(_, r, written) => r == run && !written
    case Abort(_, r) => r == run
    case Crash(_) => true
  }

  ghost predicate HoldsNone(pending: seq<Ledger>, p: ProcId, run: RunId)
    requires p < |pending|
  {
    Get(pending[p], run) == Spend(0, 0, 0.0)
  }

  /** The event lets go of usage of the run which its process held. */
  ghost predicate LetsGo(s: State, e: Event, run: RunId) {
    Drops(e, run) && e.p < |s.pending| && !HoldsNone(s.pending, e.p, run)
  }

  ghost predicate KeepsAll(processes: nat, es: seq<Event>, run: RunId) {
    es == []
    || (KeepsAll(processes, es[..|es| - 1], run) && !LetsGo(After(processes, es[..|es| - 1]), es[|es| - 1], run))
  }

  lemma DroppedStep(s: State, e: Event, run: RunId)
    requires AllHonest(s) && Honest(Get(s.dropped, run))
    ensures Honest(Get(Step(s, e).dropped, run))
    ensures Get(Step(s, e).dropped, run) == Spend(0, 0, 0.0)
            <==> Get(s.dropped, run) == Spend(0, 0, 0.0) && !LetsGo(s, e, run)
  {
    if e.p < |s.pending| {
      var mine := s.pending[e.p];
      assert HonestAt(s.pending, e.p, run);
      match e
      case Call(_, _, _) =>
      case Store(_, r, _) => GetAdded(s.dropped, r, Get(mine, r), run);
      case Abort(_, r) => GetAdded(s.dropped, r, Get(mine, r), run);
      case Crash(_) => GetDropped(s.dropped, mine, run);
    }
  }

  /** Nothing of the run was dropped exactly when no event let any of it go. */
  lemma {:induction false} DroppedIff(processes: nat, es: seq<Event>, run: RunId)
    requires FairEvents(es)
    ensures Honest(Get(After(processes, es).dropped, run))
    ensures Get(After(processes, es).dropped, run) == Spend(0, 0, 0.0) <==> KeepsAll(processes, es, run)
  {
    if es != [] {
      var before := es[..|es| - 1];
      assert FairEvents(before);
      DroppedIff(processes, before, run);
      UsageIsConserved(processes, before, run);
      DroppedStep(After(processes, before), es[|es| - 1], run);
    }
  }

  predicate AtMost(a: Spend, b: Spend) {
    a.input <= b.input && a.output <= b.output && a.cost <= b.cost
  }

  /** The counters of a run never decrease. */
  lemma StoredNeverDecreases(processes: nat, es: seq<Event>, e: Event, run: RunId)
    requires FairEvents(es)
    ensures AtMost(Get(After(processes, es).stored, run), Get(After(processes, es + [e]).stored, run))
  {
    assert (es + [e])[..|es|] == es;
    UsageIsConserved(processes, es, run);
    var s := After(processes, es);
    if e.p < |s.pending| {
      assert HonestAt(s.pending, e.p, run);
    }
  }

  lemma {:induction false} NoneAnywhereIff(pending: seq<Ledger>, run: RunId)
    requires forall p: ProcId :: p < |pending| ==> HonestAt(pending, p, run)
    ensures Honest(PendingOf(pending, run))
    ensures PendingOf(pending, run) == Spend(0, 0, 0.0) <==> forall p: ProcId :: p < |pending| ==> HoldsNone(pending, p, run)
  {
    if pending != [] {
      var n := |pending| - 1;
      forall p: ProcId | p < n
        ensures HonestAt(pending[..n], p, run) && (HoldsNone(pending[..n], p, run) <==> HoldsNone(pending, p, run))
      {
        assert HonestAt(pending, p, run);
      }
      NoneAnywhereIff(pending[..n], run);
      assert HonestAt(pending, n, run);
      assert HoldsNone(pending, n, run) <==> Get(pending[n], run) == Spend(0, 0, 0.0);
    }
  }

  /** A write of the run leaves exactly what its calls reported in its counters if and only if nothing of it was let go
      before and no other process still holds any of it, as one does that made an earlier attempt. */
  lemma WrittenRunStoresAllIff(processes: nat, es: seq<Event>, p: ProcId, run: RunId)
    requires FairEvents(es) && p < processes
    ensures |After(processes, es).pending| == processes
    ensures var s, after := After(processes, es), After(processes, es + [Store(p, run, true)]);
            Get(after.stored, run) == Get(after.reported, run)
            <==> KeepsAll(processes, es, run) && forall q: ProcId :: q < processes && q != p ==> HoldsNone(s.pending, q, run)
  {
    var s, e := After(processes, es), Store(p, run, true);
    assert (es + [e])[..|es|] == es;
    assert FairEvents(es + [e]);
    AllProcesses(processes, es);
    var after := Step(s, e);
    UsageIsConserved(processes, es + [e], run);
    DroppedIff(processes, es, run);
    NoneAnywhereIff(after.pending, run);
    assert HoldsNone(after.pending, p, run);
    assert forall q: ProcId :: q < processes && q != p ==> (HoldsNone(after.pending, q, run) <==> HoldsNone(s.pending, q, run));
  }

  lemma {:induction false} AllProcesses(processes: nat, es: seq<Event>)
    ensures |After(processes, es).pending| == processes
  {
    if es != [] { AllProcesses(processes, es[..|es| - 1]); }
  }

  // ---------- the fields of the program ----------

  /** The sums of one process (`usage` in the LLM service). */
  class Meter {
    var usage: Ledger

    constructor ()
      ensures usage == map[]
    {
      usage := map[];
    }

    method Track(run: RunId, price: Option<Price>, report: Option<Report>, p: ProcId, ghost s: State)
      requires p < |s.pending| && s.pending[p] == usage && Fair(price)
      modifies this
      ensures var e := Call(p, run, if report.Some? then Some(SpendOf(price, report.value)) else None);
              FairEvent(e) && usage == Step(s, e).pending[p]
    {
      if report.Some? {
        var u := if run in usage then usage[run] else Spend(0, 0, 0.0);
        var cost := CostOf(price, report.value.input, report.value.output);
        SpendIsHonest(price, report.value);
        u := u.(input := u.input + report.value.input);
        u := u.(output := u.output + report.value.output);
        u := u.(cost := u.cost + cost);
        usage := usage[run := u];
      }
    }

    /** A second call returns nothing. */
    method TakeUsage(run: RunId) returns (spend: Spend)
      modifies this
      ensures spend == Get(old(usage), run)
      ensures usage == old(usage) - {run} && Get(usage, run) == Spend(0, 0, 0.0)
    {
      spend := if run in usage then usage[run] else Spend(0, 0, 0.0);
      usage := usage - {run};
    }
  }

  /** The counters of a run; a new run has none. */
  class Counters {
    var inputTokens: Option<nat>
    var outputTokens: Option<nat>
    var costUsd: Option<real>

    constructor ()
      ensures inputTokens.None? && outputTokens.None? && costUsd.None?
    {
      inputTokens, outputTokens, costUsd := None, None, None;
    }

    function Total(): Spend
      reads this
    {
      Spend(if inputTokens.Some? then inputTokens.value else 0,
            if outputTokens.Some? then outputTokens.value else 0,
            if costUsd.Some? then costUsd.value else 0.0)
    }

    method AddUsage(usage: Option<Spend>)
      modifies this
      ensures usage.Some? && Honest(usage.value) ==>
                && Total().input == old(Total()).input + usage.value.input
                && Total().output == old(Total()).output + usage.value.output
                && Total().cost == old(Total()).cost + usage.value.cost
      ensures usage.None? ==> Total() == old(Total())
    {
      if usage.None? || (usage.value.input == 0 && usage.value.output == 0) {
        return;
      }
      inputTokens := Some((if inputTokens.Some? then inputTokens.value else 0) + usage.value.input);
      outputTokens := Some((if outputTokens.Some? then outputTokens.value else 0) + usage.value.output);
      costUsd := Some((if costUsd.Some? then costUsd.value else 0.0) + usage.value.cost);
    }
  }
}
