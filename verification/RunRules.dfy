/** When the graph is called, what each end of a run's job leaves of it, and which runs are given up
    (agent/agent.service.ts, remarks/remarks.service.ts `failStaleRuns`). */
module RunRules {
  import opened GraphRuns
  import opened Prelude
  import Q = JobQueue
  import R = Remarks

  // ---------- when the graph is called ----------

  /** A start calls the graph if and only if the run is found running and, from the second attempt on, what the attempt before
      left could be deleted; a resume, if it is found neither cancelled nor failed and there is a pause to go on from or an
      input to begin again with; and both only if the run was not aborted while it waited for a slot. */
  lemma GraphIsCalledIff(a: Attempt, attempt: nat)
    ensures CallsGraph(a, attempt)
            <==> && a.lookup && a.slot
                 && match a.action
                    case Start => a.found == Some(R.Running) && (attempt <= 1 || a.cleanup)
                    case Resume =>
                      && (a.found == Some(R.Running) || a.found == Some(R.AwaitingHuman) || a.found == Some(R.Persisted))
                      && (a.paused || a.fallback)
  {
  }

  /** What the queue is told: an error if the run could not be looked up, or cleaned up for another start; a retry if the call
      broke with an error that passes, in time, and attempts are left; and that all is done in every other case. */
  lemma QueueIsTold(a: Attempt, attempt: nat, maxAttempts: nat)
    ensures var told := Told(a, attempt, maxAttempts);
            && (told == Q.Error
                <==> !a.lookup || (a.action.Start? && a.found == Some(R.Running) && attempt > 1 && !a.cleanup))
            && (told == Q.RetryAsked(None)
                <==> && CallsGraph(a, attempt) && attempt < maxAttempts
                     && (a.end == Broken(true, false, true) || a.end == Broken(true, false, false)))
            && (told == Q.Success || told == Q.Error || told == Q.RetryAsked(None))
  {
  }

  /** The human decided and the graph goes on: whatever the run's status was before the verdict, a resume that finds the run
      as the verdict left it, and a pause to go on from, calls the graph. */
  lemma VerdictIsCarriedOn(w: World, run: RunId, again: bool, attempt: nat, cleanup: bool, fallback: bool, end: End)
    requires run in w.status
    ensures var after := Step(w, Decide(run, again));
            run in after.status && CallsGraph(Attempt(Resume, true, Some(after.status[run]), cleanup, true, fallback, true, end), attempt)
  {
  }

  /** A run that was cancelled or given up meanwhile is left alone by every job. */
  lemma EndedRunIsLeftAlone(w: World, e: Event, run: RunId, a: Attempt, attempt: nat, maxAttempts: nat)
    requires Has(w, run, R.Running) && (e == Cancel(run) || e == GiveUp(run)) && a.lookup
    requires a.found == (if run in Step(w, e).status then Some(Step(w, e).status[run]) else None)
    ensures !CallsGraph(a, attempt) && Told(a, attempt, maxAttempts) == Q.Success
    ensures forall p: ProcId :: Leaves(w, p, run, a, attempt, maxAttempts) == w
  {
  }

  // ---------- what becomes of a run ----------

  /** The failure of a run is written when its call broke for good: by an error that does not pass, after the deadline or on
      the last attempt. */
  predicate BreaksForGood(e: Event, run: RunId) {
    && e.Ended? && e.run == run && e.end.Broken? && e.end.recorded
    && (!e.end.passing || e.end.deadline || e.attempt >= e.maxAttempts)
  }

  /** By which event a run comes to which status; no other event changes it. */
  lemma StatusChanges(w: World, e: Event, run: RunId)
    requires run in w.status
    ensures run in Step(w, e).status
    ensures var was, now := w.status[run], Step(w, e).status[run];
            var here := OfProcess(e) ==> e.p < |w.memory|;
            && (now == R.AwaitingHuman && was != now <==> here && e.Propose? && e.run == run && was == R.Running && e.fits && !e.lost)
            && (now == R.Failed && was != now <==> here && was == R.Running && (BreaksForGood(e, run) || e == GiveUp(run)))
            && (now == R.Cancelled && was != now <==> (was == R.Running || was == R.AwaitingHuman) && e == Cancel(run))
            && (now == R.Running && was != now <==> e == Decide(run, true) && was != R.Running)
            && (now == R.Persisted && was != now <==> e == Decide(run, false) && was != R.Persisted)
  {
  }

  /** And by which it begins. */
  lemma BeginsRunning(w: World, e: Event, run: RunId)
    requires run !in w.status
    ensures run in Step(w, e).status <==> e == Begin(run)
    ensures e == Begin(run) ==> Step(w, e).status[run] == R.Running
  {
  }

  // ---------- which runs are given up ----------

  /** A run is given up if and only if it runs, began before the cutoff, nothing happened by it since, and every job of it is
      done, failed or cancelled. */
  lemma GivenUpIff(rows: Q.Rows, run: RunId, r: Run, cutoff: int)
    ensures GivenUp(rows, run, r, cutoff)
            <==> && r.status == R.Running && r.createdAt < cutoff && (r.changed.Some? ==> r.changed.value < cutoff)
                 && forall id :: id in rows && rows[id].run == Some(run) ==>
                      rows[id].status == Q.Done || rows[id].status == Q.Failed || rows[id].status == Q.Cancelled
  {
    if GivenUp(rows, run, r, cutoff) {
      forall id | id in rows && rows[id].run == Some(run)
        ensures rows[id].status == Q.Done || rows[id].status == Q.Failed || rows[id].status == Q.Cancelled
      {
        assert !LiveJob(rows[id], run);
      }
    }
  }

  /** A run an error outside the call of the graph left running is given up by a sweep that is late enough. */
  lemma StrandedIsGivenUp(t: Q.Timing, o: Q.Settings, es: seq<Q.Event>, p: ProcId, id: Q.JobId, run: RunId, a: Attempt,
                          w: World, r: Run, cutoff: int)
    requires Q.Fits(t) && Q.IsRun(t, o, es) && Q.Executing(Q.After(t, o, es), p, id) && id in Q.After(t, o, es).rows
    requires var rows := Q.After(t, o, es).rows;
             rows[id].run == Some(run) && forall i :: i in rows && i != id ==> !LiveJob(rows[i], run)
    requires PlainError(a, Q.Claims(es, id)) && Has(w, run, R.Running) && r.status == R.Running
    requires r.createdAt < cutoff && (r.changed.Some? ==> r.changed.value < cutoff)
    ensures var claims, maxAttempts := Q.Claims(es, id), Q.After(t, o, es).rows[id].maxAttempts;
            && GivenUp(RowsAfter(t, o, es, p, id, Told(a, claims, maxAttempts)), run, r, cutoff)
            && !GivenUp(Q.After(t, o, es).rows, run, r, cutoff)
  {
    PlainErrorStrands(t, o, es, p, id, run, a, w);
    Q.EndIsWrittenByHolder(t, o, es, p, id);
    assert LiveJob(Q.After(t, o, es).rows[id], run);
  }
}
