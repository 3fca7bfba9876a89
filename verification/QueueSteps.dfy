/** What each step of a process leaves of it: its timer, its poll, and the executions it hands back (schedule, poll and
    onApplicationShutdown of jobs/jobs.service.ts). */
module QueueSteps {
  import opened JobQueue
  import opened Prelude

  // ---------- whose step it is ----------

  function ActorOf(e: Event): Option<ProcId> {
    match e
    case Tick(_) => None
    case Start(p, _) => Some(p)
    case Crash(p) => Some(p)
    case Stop(p) => Some(p)
    case Enqueue(p, _, _, _, _, _, _, _) => Some(p)
    case CancelRun(_) => None
    case Sweep(p) => Some(p)
    case Beat(p) => Some(p)
    case Fire(p) => Some(p)
    case Take(p, _) => Some(p)
    case NoJob(p) => Some(p)
    case Land(p) => Some(p)
    case Lose(p) => Some(p)
    case Finish(p, _, _) => Some(p)
    case Abort(p, _) => Some(p)
    case HandBack(p, _, _) => Some(p)
  }

  /** Processes share nothing but the table: a step of one leaves every other as it is. */
  lemma OthersUntouched(t: Timing, o: Settings, s: System, e: Event, q: ProcId)
    requires Enabled(t, s, e) && ActorOf(e) != Some(q)
    ensures q in Apply(t, o, s, e).procs <==> q in s.procs
    ensures q in s.procs ==> Apply(t, o, s, e).procs[q] == s.procs[q]
  {
  }

  /** Starting, stopping, crashing, asking and telling an execution to stop write nothing to the table. */
  lemma TableUntouched(t: Timing, o: Settings, s: System, e: Event)
    requires Enabled(t, s, e)
    requires !(e.Enqueue? || e.CancelRun? || e.Sweep? || e.Beat? || e.Take? || e.Finish? || e.HandBack?)
    ensures Apply(t, o, s, e).rows == s.rows
  {
  }

  // ---------- what can happen ----------

  /** A run can be cancelled at any time, and any process crash; a timer fires only if it is armed, also behind a stop; an
      execution is told to stop once, and no sooner than 25 s after its process was. */
  lemma CanHappen(t: Timing, s: System, p: ProcId, id: JobId, run: RunId)
    ensures Enabled(t, s, CancelRun(run))
    ensures Enabled(t, s, Crash(p)) <==> p in s.procs
    ensures Enabled(t, s, Fire(p)) <==> p in s.procs && s.procs[p].timer != None
    ensures Enabled(t, s, Abort(p, id))
            <==> p in s.procs && id in s.procs[p].active && s.procs[p].active[id].phase == Going
                 && s.procs[p].stoppedAt.Some? && s.now - s.procs[p].stoppedAt.value >= 25000
  {
  }

  lemma CrashIsGone(t: Timing, o: Settings, s: System, p: ProcId)
    requires Enabled(t, s, Crash(p))
    ensures p !in Apply(t, o, s, Crash(p)).procs && Apply(t, o, s, Crash(p)).rows == s.rows
  {
  }

  // ---------- timer and poll ----------

  /** A timer that fires behind a stop or into a poll under way does nothing. */
  lemma FiresInVain(t: Timing, o: Settings, s: System, p: ProcId)
    requires Enabled(t, s, Fire(p)) && (s.procs[p].stoppedAt.Some? || !s.procs[p].poll.Idle?)
    ensures Apply(t, o, s, Fire(p)).procs[p] == s.procs[p].(timer := None)
  {
  }

  /** A poll ends when its claim finds nothing or fails, and when there is no slot left for another: it has heard of all that
      came meanwhile, and the next one is due at once if there was any, else in `pollMs`; none is, once the process stops. */
  lemma PollEnds(t: Timing, o: Settings, s: System, e: Event, p: ProcId)
    requires Enabled(t, s, e) && (e == NoJob(p) || e == Lose(p) || e == Land(p) || (e == Fire(p) && s.procs[p].poll.Idle?))
    requires Apply(t, o, s, e).procs[p].poll.Idle?
    ensures var was, x := s.procs[p], Apply(t, o, s, e).procs[p];
            if was.stoppedAt.None? then !x.wake && x.timer == Some(if was.wake then 0 else o.pollMs)
            else x.timer == if e.Fire? then None else was.timer
  {
  }

  /** A poll that goes on leaves timer and wake as they are, but for the timer that began it. */
  lemma PollGoesOn(t: Timing, o: Settings, s: System, e: Event, p: ProcId)
    requires Enabled(t, s, e) && (e == Land(p) || (e == Fire(p) && s.procs[p].poll.Idle?)) && Apply(t, o, s, e).procs[p].poll.Asking?
    ensures var was, x := s.procs[p], Apply(t, o, s, e).procs[p];
            x.wake == was.wake && x.poll.since == s.now && x.timer == if e.Fire? then None else was.timer
  {
  }

  /** A new job makes the next poll due at once, or wakes the one under way; put there within a transaction it arms the timer
      with the poll interval, whatever goes on; a stopped process does neither. */
  lemma EnqueueArms(t: Timing, o: Settings, s: System, e: Event, p: ProcId)
    requires Enabled(t, s, e) && e.Enqueue? && e.p == p
    ensures var was, x := s.procs[p], Apply(t, o, s, e).procs[p];
            if was.stoppedAt.Some? then x == was
            else if e.inTx && o.pollMs > 0 then x == was.(timer := Some(o.pollMs))
            else x == if was.poll.Idle? then was.(timer := Some(0)) else was.(wake := true)
  {
  }

  /** What ends makes room: the execution leaves, and the next poll is due at once or the one under way woken. */
  lemma FinishArms(t: Timing, o: Settings, s: System, p: ProcId, id: JobId, outcome: Outcome)
    requires Enabled(t, s, Finish(p, id, outcome))
    ensures var was, x := s.procs[p], Apply(t, o, s, Finish(p, id, outcome)).procs[p];
            && (forall other :: other in x.active <==> other in was.active && other != id)
            && (forall other :: other in x.active ==> x.active[other] == was.active[other])
            && x.handing == was.handing && x.poll == was.poll && x.stoppedAt == was.stoppedAt
            && if was.stoppedAt.Some? then x.timer == was.timer && x.wake == was.wake
               else if was.poll.Idle? then x.timer == Some(0) && x.wake == was.wake
               else x.timer == was.timer && x.wake
  {
  }

  // ---------- the end of a process ----------

  /** A process that stops asks for nothing more by its timer; what it executes goes on. */
  lemma StopDisarms(t: Timing, o: Settings, s: System, p: ProcId)
    requires Enabled(t, s, Stop(p))
    ensures Apply(t, o, s, Stop(p)).procs[p] == s.procs[p].(stoppedAt := Some(s.now), timer := None)
  {
  }

  /** An execution told to stop stays among those under way until its handler returns; its row is being handed back. */
  lemma AbortBegins(t: Timing, o: Settings, s: System, p: ProcId, id: JobId)
    requires Enabled(t, s, Abort(p, id))
    ensures var was, x := s.procs[p], Apply(t, o, s, Abort(p, id)).procs[p];
            && (forall other :: other in x.active <==> other in was.active)
            && (forall other :: other in was.active && other != id ==> x.active[other] == was.active[other])
            && x.active[id] == was.active[id].(phase := Aborted)
            && (forall other :: other in x.handing <==> other in was.handing || other == id)
  {
  }

  /** Handing back puts a row that still runs into the queue again, its attempt spent, and touches no other; a row that was
      ended meanwhile stays so, and so does every row if the write is lost. */
  lemma HandsBackExactly(t: Timing, o: Settings, s: System, p: ProcId, id: JobId, written: bool, other: JobId)
    requires Enabled(t, s, HandBack(p, id, written)) && other in s.rows
    ensures var j, after := s.rows[other], Apply(t, o, s, HandBack(p, id, written)).rows;
            && other in after
            && after[other] == if written && other == id && j.status == Running
                               then j.(status := Queued, lockedAt := None, lockedBy := None) else j
    ensures var was, x := s.procs[p], Apply(t, o, s, HandBack(p, id, written)).procs[p];
            x == was.(handing := x.handing) && forall k :: k in x.handing <==> k in was.handing && k != id
  {
  }
}
