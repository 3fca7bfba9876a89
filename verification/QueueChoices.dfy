/** What the queue chooses: which rows a claim may take, whose rows are cancelled, how long a row waits, and when a process looks
    for work again (jobs/jobs.service.ts `claim`, `saturated`, `cancelByRun`, `schedule`, `poll`). */
module QueueChoices {
  import opened Prelude
  import opened JobQueue

  // ---------- which rows a claim may take ----------

  /** How many executions of this kind there are, and of this kind for this project. */
  function CountKind(active: Active, kind: string): nat {
    |set id | id in active && active[id].kind == kind|
  }

  function CountPair(active: Active, kind: string, project: string): nat {
    |set id | id in active && active[id].kind == kind && active[id].project == Some(project)|
  }

  /** Below a limit, or without one. */
  predicate Below(count: nat, limit: nat) {
    limit == 0 || count < limit
  }

  /** One more job of this kind and project fits; a job without a project only has to fit its kind. */
  predicate Fitting(o: Settings, active: Active, kind: string, project: Option<string>) {
    && Below(CountKind(active, kind), o.maxConcurrent(kind))
    && (project.None? || project.value == "" || Below(CountPair(active, kind, project.value), o.maxPerProject(kind)))
  }

  /** The row waits, is due and fits. */
  predicate MayTake(o: Settings, active: Active, j: Job, now: nat) {
    j.status == Queued && j.runAfter <= now && Fitting(o, active, j.kind, j.project)
  }

  /** With the filters of a claim that asked while this work was under way, a row passes if and only if it waits, is due and
      one more execution like it fitted then. */
  lemma EligibleIff(o: Settings, active: Active, j: Job, now: nat)
    ensures Eligible(j, now, FullKinds(o, active), FullPairs(o, active)) <==> MayTake(o, active, j, now)
  {
    FullKind(o, active, j.kind);
    if j.project.Some? { FullPair(o, active, j.kind, j.project.value); }
  }

  lemma FullKind(o: Settings, active: Active, kind: string)
    ensures kind in FullKinds(o, active) <==> !Below(CountKind(active, kind), o.maxConcurrent(kind))
  {
    var some := set id | id in active && active[id].kind == kind;
    assert some == OfKind(active, kind);
    if !Below(|some|, o.maxConcurrent(kind)) {
      var id :| id in some;
      assert active[id].kind in FullKinds(o, active);
    }
  }

  lemma FullPair(o: Settings, active: Active, kind: string, project: string)
    ensures (kind, project) in FullPairs(o, active)
            <==> project != "" && !Below(CountPair(active, kind, project), o.maxPerProject(kind))
  {
    var some := set id | id in active && active[id].kind == kind && active[id].project == Some(project);
    if project != "" {
      assert some == OfPair(active, kind, project);
      if !Below(|some|, o.maxPerProject(kind)) {
        var id :| id in some;
        assert (active[id].kind, active[id].project.value) in FullPairs(o, active);
      }
    }
  }

  /** What a claim under way believes is what was so when it asked, with this work under way. */
  ghost predicate AskedWith(t: Timing, o: Settings, es: seq<Event>, p: ProcId, k: nat, active: Active) {
    && k <= |es| && p in After(t, o, es).procs && p in After(t, o, es[..k]).procs
    && var x, before := After(t, o, es).procs[p], After(t, o, es[..k]).procs[p];
    && x.poll.Asking? && before.active == active && After(t, o, es[..k]).now == x.poll.since
    && x.poll.kinds == FullKinds(o, active) && x.poll.pairs == FullPairs(o, active)
  }

  lemma AskedBefore(t: Timing, o: Settings, es: seq<Event>, p: ProcId, k: nat, active: Active)
    requires es != [] && AskedWith(t, o, es[..|es| - 1], p, k, active)
    requires p in After(t, o, es).procs && After(t, o, es).procs[p].poll == After(t, o, es[..|es| - 1]).procs[p].poll
    ensures AskedWith(t, o, es, p, k, active)
  {
    assert es[..|es| - 1][..k] == es[..k];
  }

  lemma AskedNow(t: Timing, o: Settings, es: seq<Event>, p: ProcId)
    requires p in After(t, o, es).procs && After(t, o, es).procs[p].poll.Asking?
    requires var s := After(t, o, es); var x := s.procs[p];
             x.poll == Asking(s.now, FullKinds(o, x.active), FullPairs(o, x.active))
    ensures AskedWith(t, o, es, p, |es|, After(t, o, es).procs[p].active)
  {
    assert es[..|es|] == es;
  }

  /** A step of a process that begins a claim asks with the work it has then. */
  lemma StepAsks(t: Timing, o: Settings, s: System, e: Event, p: ProcId)
    requires Enabled(t, s, e) && p in Apply(t, o, s, e).procs && Apply(t, o, s, e).procs[p].poll.Asking?
    ensures var after := Apply(t, o, s, e); var x := after.procs[p];
            || x.poll == Asking(after.now, FullKinds(o, x.active), FullPairs(o, x.active))
            || (p in s.procs && s.procs[p].poll == x.poll)
  {
  }

  lemma {:induction false} ClaimsAsk(t: Timing, o: Settings, es: seq<Event>, p: ProcId) returns (k: nat, active: Active)
    requires p in After(t, o, es).procs && After(t, o, es).procs[p].poll.Asking?
    ensures AskedWith(t, o, es, p, k, active)
  {
    var before, e := es[..|es| - 1], es[|es| - 1];
    var s := After(t, o, before);
    if Enabled(t, s, e) {
      StepAsks(t, o, s, e, p);
    }
    if p in s.procs && s.procs[p].poll == After(t, o, es).procs[p].poll {
      k, active := ClaimsAsk(t, o, before, p);
      AskedBefore(t, o, es, p, k, active);
    } else {
      k, active := |es|, After(t, o, es).procs[p].active;
      AskedNow(t, o, es, p);
    }
  }

  /** In every run: a claim may take a row if and only if it waits, is due and fitted what was under way when the claim
      asked. */
  lemma ClaimTakesIff(t: Timing, o: Settings, es: seq<Event>, p: ProcId, id: JobId) returns (k: nat, active: Active)
    requires p in After(t, o, es).procs && After(t, o, es).procs[p].poll.Asking? && id in After(t, o, es).rows
    ensures AskedWith(t, o, es, p, k, active)
    ensures Enabled(t, After(t, o, es), Take(p, id)) <==> MayTake(o, active, After(t, o, es).rows[id], After(t, o, es).now)
  {
    k, active := ClaimsAsk(t, o, es, p);
    EligibleIff(o, active, After(t, o, es).rows[id], After(t, o, es).now);
  }

  // ---------- when a process looks for work ----------

  /** A process that is not stopped asks for another job when its timer fires, and again when a job has landed, if and only
      if it has a free slot. */
  lemma AsksIff(t: Timing, o: Settings, s: System, e: Event, p: ProcId)
    requires Enabled(t, s, e) && ((e == Fire(p) && s.procs[p].poll.Idle?) || e == Land(p))
    ensures var after := Apply(t, o, s, e);
            after.procs[p].poll.Asking? <==> s.procs[p].stoppedAt.None? && |after.procs[p].active| < o.concurrency
  {
  }

  /** Events after which there may be work for this process that was not there before: an execution of its own ends, it puts a
      job in the queue, or its sweep brings one back. */
  predicate BringsWork(s: System, after: System, e: Event, p: ProcId) {
    match e
    case Finish(q, _, _) => q == p
    case Enqueue(q, _, _, _, _, _, _, inTx) => q == p && !inTx
    case Sweep(q) => q == p && after.rows != s.rows
    case _ => false
  }

  /** The next poll comes at once: its timer is due, or the poll under way was told so. */
  predicate PollsAtOnce(x: Proc) {
    if x.poll.Idle? then x.timer == Some(0) else x.wake
  }

  lemma WorkIsHeard(t: Timing, o: Settings, s: System, e: Event, p: ProcId)
    requires Enabled(t, s, e) && Up(s, p) && BringsWork(s, Apply(t, o, s, e), e, p)
    ensures p in Apply(t, o, s, e).procs && PollsAtOnce(Apply(t, o, s, e).procs[p])
  {
  }

  /** The process looks for work, is stopped or gone, or puts a job in the queue within a transaction, which arms its timer
      anew. */
  predicate Forgets(s: System, e: Event, p: ProcId) {
    match e
    case Fire(q) => q == p && p in s.procs && s.procs[p].poll.Idle?
    case Stop(q) => q == p
    case Crash(q) => q == p
    case Enqueue(q, _, _, _, _, _, _, inTx) => q == p && inTx && p in s.procs && s.procs[p].poll.Idle?
    case _ => false
  }

  lemma StepRemembers(t: Timing, o: Settings, s: System, e: Event, p: ProcId)
    requires Enabled(t, s, e) && Up(s, p) && PollsAtOnce(s.procs[p]) && !Forgets(s, e, p)
    ensures Up(Apply(t, o, s, e), p) && PollsAtOnce(Apply(t, o, s, e).procs[p])
  {
  }

  /** In every run: a process that heard of work polls at once when it is free to, until it looks, is stopped or gone, or
      puts a job in the queue within a transaction. */
  lemma {:induction false} WorkIsRemembered(t: Timing, o: Settings, es: seq<Event>, more: seq<Event>, p: ProcId)
    requires Up(After(t, o, es), p) && PollsAtOnce(After(t, o, es).procs[p])
    requires forall k :: 0 <= k < |more| ==> !Forgets(After(t, o, es + more[..k]), more[k], p)
    ensures Up(After(t, o, es + more), p) && PollsAtOnce(After(t, o, es + more).procs[p])
    decreases |more|
  {
    if more == [] {
      assert es + more == es;
    } else {
      var before, e := more[..|more| - 1], more[|more| - 1];
      forall k | 0 <= k < |before|
        ensures !Forgets(After(t, o, es + before[..k]), before[k], p)
      {
        assert before[..k] == more[..k] && before[k] == more[k];
      }
      WorkIsRemembered(t, o, es, before, p);
      assert es + more == es + before + [e];
      assert (es + before + [e])[..|es + before|] == es + before;
      if Enabled(t, After(t, o, es + before), e) { StepRemembers(t, o, After(t, o, es + before), e, p); }
    }
  }

  /** A job put in the queue within a transaction puts the next poll off, even one that was due at once. */
  lemma TransactionPutsOff(t: Timing, o: Settings, s: System, e: Event, p: ProcId)
    requires Enabled(t, s, e) && Up(s, p) && s.procs[p].poll.Idle? && e.Enqueue? && e.p == p && e.inTx
    ensures Apply(t, o, s, e).procs[p].timer == Some(o.pollMs)
    ensures o.pollMs != 0 ==> !PollsAtOnce(Apply(t, o, s, e).procs[p])
  {
  }

  // ---------- rows ----------

  /** A cancelled run takes exactly its waiting jobs out of the queue. */
  lemma CancelsExactly(t: Timing, o: Settings, s: System, run: RunId, id: JobId)
    requires Enabled(t, s, CancelRun(run)) && id in s.rows
    ensures var j, after := s.rows[id], Apply(t, o, s, CancelRun(run)).rows;
            && id in after && after[id] == j.(status := after[id].status)
            && (after[id].status != j.status <==> j.status == Queued && j.run == Some(run))
            && (after[id].status != j.status ==> after[id].status == Cancelled)
  {
  }

  /** A new job waits, as it was asked for, until its delay is over by the clock of the process that put it there. */
  lemma EnqueuedWaits(t: Timing, o: Settings, es: seq<Event>, e: Event, more: seq<Event>, p: ProcId)
    requires Fits(t) && e.Enqueue? && Enabled(t, After(t, o, es), e) && NotTaken(more, e.id)
    requires Enabled(t, After(t, o, es + [e] + more), Take(p, e.id))
    ensures var s := After(t, o, es + [e] + more); var j := s.rows[e.id];
            && s.now >= Clock(After(t, o, es), e.p) + e.delay
            && j.kind == e.kind && j.project == e.project && j.run == e.forRun && j.attempts == 0 && j.maxAttempts == e.maxAttempts
  {
    AfterMore(t, o, es, e);
    WaitingRow(t, o, es + [e], more, e.id);
  }

  /** A beat makes the locks of the running rows it executes young again, and does nothing to others. */
  lemma BeatsExactly(t: Timing, o: Settings, s: System, p: ProcId, id: JobId)
    requires Enabled(t, s, Beat(p)) && id in s.rows
    ensures var j, after := s.rows[id], Apply(t, o, s, Beat(p)).rows;
            id in after && after[id] == if id in s.procs[p].active && j.status == Running then j.(lockedAt := Some(Clock(s, p))) else j
  {
  }

  /** A sweep puts back exactly the running rows whose lock is older than 60 s by its clock, but for its own. */
  lemma SweepsExactly(t: Timing, o: Settings, s: System, p: ProcId, id: JobId)
    requires Enabled(t, s, Sweep(p)) && id in s.rows
    ensures var j, after := s.rows[id], Apply(t, o, s, Sweep(p)).rows;
            && id in after
            && after[id] == if j.status == Running && j.lockedAt.Some? && Clock(s, p) - j.lockedAt.value > 60000 && id !in s.procs[p].active
                            then j.(status := Queued, lockedAt := None, lockedBy := None) else j
  {
  }

  /** The pause before another attempt: the one named for it, or the last; 30 s if none is. */
  function PauseAfter(pauses: seq<nat>, attempt: nat): nat
    requires attempt > 0
  {
    if pauses == [] then 30000 else if attempt <= |pauses| then pauses[attempt - 1] else pauses[|pauses| - 1]
  }

  lemma BackoffMeaning(o: Settings, attempt: nat)
    requires attempt > 0
    ensures Backoff(o, attempt) == PauseAfter(o.backoff, attempt)
  {
  }

  /** What the end of an execution writes to its row, and to no other: nothing if it was told to stop or the write is lost; else
      done, back in the queue with a pause if a retry was asked for and attempts are left, or failed. */
  lemma EndsExactly(t: Timing, o: Settings, s: System, p: ProcId, id: JobId, outcome: Outcome, other: JobId)
    requires Enabled(t, s, Finish(p, id, outcome)) && s.procs[p].active[id].attempt > 0 && other in s.rows
    ensures var j, attempt, after := s.rows[id], s.procs[p].active[id].attempt, Apply(t, o, s, Finish(p, id, outcome)).rows;
            && other in after && (other != id ==> after[other] == s.rows[other])
            && after[id]
               == if s.procs[p].active[id].phase == Aborted || outcome == WriteLost then j
                  else match outcome
                       case Success => j.(status := Done, lockedAt := None)
                       case RetryAsked(delay) =>
                         if attempt < j.maxAttempts then
                           var pause := if delay.Some? then delay.value else PauseAfter(o.backoff, attempt);
                           j.(status := Queued, lockedAt := None, lockedBy := None, runAfter := Clock(s, p) + pause)
                         else j.(status := Failed, lockedAt := None)
                       case _ => j.(status := Failed, lockedAt := None)
  {
    BackoffMeaning(o, s.procs[p].active[id].attempt);
  }

  /** Pauses of 30 s, 2 min and 8 min, and 8 min after each later attempt. */
  const DEFAULT_BACKOFF: seq<nat> := [30000, 120000, 480000]

  /** With the default pauses, a job that asks for a retry without naming a pause is not taken again before. */
  lemma DefaultPauses(t: Timing, o: Settings, es: seq<Event>, e: Event, more: seq<Event>, id: JobId, p: ProcId)
    requires Fits(t) && e.Finish? && Enabled(t, After(t, o, es), e) && GivesRetry(After(t, o, es), e, id) && NotTaken(more, id)
    requires Enabled(t, After(t, o, es + [e] + more), Take(p, id))
    requires o.backoff == DEFAULT_BACKOFF && e.outcome == RetryAsked(None)
    ensures var s := After(t, o, es); var attempt, waited := s.procs[e.p].active[id].attempt, After(t, o, es + [e] + more).now - Clock(s, e.p);
            && (attempt <= 1 ==> waited >= 30000) && (attempt == 2 ==> waited >= 120000) && (attempt >= 3 ==> waited >= 480000)
  {
    RetryWaits(t, o, es, e, more, id, p);
  }
}
