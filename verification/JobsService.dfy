/** The worker of one process (jobs/jobs.service.ts `JobsService`): its fields, and each stretch of code between two awaits. */
module JobsService {
  import opened Prelude
  import C = QueueChoices
  import Q = JobQueue

  /** The table of jobs, shared by all processes, and its clock. */
  class Table {
    var rows: Q.Rows
    var now: nat

    constructor (now: nat)
      ensures rows == map[] && this.now == now
    {
      rows, this.now := map[], now;
    }
  }

  /** The executions among `ids`. */
  function Among(active: Q.Active, ids: set<Q.JobId>): Q.Active {
    map id | id in active && id in ids :: active[id]
  }

  function CountOf<K(==)>(counts: map<K, nat>, key: K): nat {
    if key in counts then counts[key] else 0
  }

  lemma KindCounted(active: Q.Active, ids: set<Q.JobId>, id: Q.JobId, kind: string)
    requires id in active && id !in ids
    ensures |Q.OfKind(Among(active, ids + {id}), kind)|
         == |Q.OfKind(Among(active, ids), kind)| + if active[id].kind == kind then 1 else 0
  {
    var fewer := Q.OfKind(Among(active, ids), kind);
    assert Q.OfKind(Among(active, ids + {id}), kind) == if active[id].kind == kind then fewer + {id} else fewer;
  }

  predicate InPair(e: Q.Entry, kind: string, project: string) {
    e.kind == kind && e.project == Some(project) && project != ""
  }

  lemma PairCounted(active: Q.Active, ids: set<Q.JobId>, id: Q.JobId, kind: string, project: string)
    requires id in active && id !in ids
    ensures |Q.OfPair(Among(active, ids + {id}), kind, project)|
         == |Q.OfPair(Among(active, ids), kind, project)| + if InPair(active[id], kind, project) then 1 else 0
  {
    var fewer := Q.OfPair(Among(active, ids), kind, project);
    assert Q.OfPair(Among(active, ids + {id}), kind, project) == if InPair(active[id], kind, project) then fewer + {id} else fewer;
  }

  lemma OneCounted(active: Q.Active, ids: set<Q.JobId>, id: Q.JobId)
    requires id in active && id !in ids
    ensures forall kind :: |Q.OfKind(Among(active, ids + {id}), kind)|
                        == |Q.OfKind(Among(active, ids), kind)| + if active[id].kind == kind then 1 else 0
    ensures forall kind, project :: |Q.OfPair(Among(active, ids + {id}), kind, project)|
                                 == |Q.OfPair(Among(active, ids), kind, project)|
                                    + if InPair(active[id], kind, project) then 1 else 0
  {
    forall kind
      ensures |Q.OfKind(Among(active, ids + {id}), kind)|
           == |Q.OfKind(Among(active, ids), kind)| + if active[id].kind == kind then 1 else 0
    {
      KindCounted(active, ids, id, kind);
    }
    forall kind, project
      ensures |Q.OfPair(Among(active, ids + {id}), kind, project)|
           == |Q.OfPair(Among(active, ids), kind, project)| + if InPair(active[id], kind, project) then 1 else 0
    {
      PairCounted(active, ids, id, kind, project);
    }
  }

  /** Full are exactly the kinds, and the pairs of kind and project, whose count reaches their limit. */
  lemma FullMeaning(o: Q.Settings, active: Q.Active)
    ensures forall kind :: kind in Q.FullKinds(o, active) <==> Q.KindFull(o, active, kind)
    ensures forall kind, project :: (kind, project) in Q.FullPairs(o, active) <==> Q.PairFull(o, active, kind, project)
  {
    Q.SnapshotTaken(o, active);
    forall kind
      ensures !Q.PairFull(o, active, kind, "")
    {
      assert Q.OfPair(active, kind, "") == {};
    }
  }

  function StaleRows(rows: Q.Rows, clock: int, own: set<Q.JobId>): set<Q.JobId> {
    set j | j in rows && Q.Stale(rows[j], clock) && j !in own
  }

  function Changed(before: Q.Rows, after: Q.Rows): set<Q.JobId> {
    set j | j in before && j in after && before[j] != after[j]
  }

  class JobsService {
    const id: Q.ProcId
    const options: Q.Settings
    const db: Table
    const skew: int
    var active: Q.Active
    /** The rows the shutdown is handing back. */
    var handing: set<Q.JobId>
    var poll: Q.Poll
    var timer: Option<nat>
    var wake: bool
    var stoppedAt: Option<nat>
    var lastBeat: nat

    function View(): Q.Proc
      reads this
    {
      Q.Proc(active, poll, handing, timer, wake, stoppedAt, lastBeat, skew)
    }

    /** The time by the clock of this process. */
    function Clock(): int
      reads db
    {
      db.now + skew
    }

    /** This process and the table are as the protocol has them. */
    ghost predicate Matches(s: Q.System)
      reads this, db
    {
      db.rows == s.rows && db.now == s.now && id in s.procs && s.procs[id] == View()
    }

    constructor (id: Q.ProcId, options: Q.Settings, db: Table, skew: int, ghost t: Q.Timing, ghost s: Q.System)
      requires db.rows == s.rows && db.now == s.now && Q.Enabled(t, s, Q.Start(id, skew))
      ensures this.id == id && this.options == options && this.db == db && this.skew == skew
      ensures Matches(Q.Apply(t, options, s, Q.Start(id, skew)))
    {
      this.id, this.options, this.db, this.skew := id, options, db, skew;
      active, handing, poll, wake, stoppedAt := map[], {}, Q.Idle, false, None;
      timer, lastBeat := Some(0), db.now;
    }

    method Schedule(delay: nat)
      modifies this`timer, this`wake
      ensures View() == Q.Scheduled(old(View()), delay)
    {
      if stoppedAt.Some? {
        return;
      }
      if poll != Q.Idle && delay == 0 {
        wake := true;
        return;
      }
      timer := Some(delay);
    }

    /** The counts of `saturated`: how many executions of each kind, and of each kind and project. */
    method CountActive() returns (byKind: map<string, nat>, byPair: map<(string, string), nat>)
      ensures forall kind :: CountOf(byKind, kind) == |Q.OfKind(active, kind)|
      ensures forall kind, project :: CountOf(byPair, (kind, project)) == |Q.OfPair(active, kind, project)|
    {
      byKind, byPair := map[], map[];
      var left := active.Keys;
      while left != {}
        invariant left <= active.Keys
        invariant forall kind :: CountOf(byKind, kind) == |Q.OfKind(Among(active, active.Keys - left), kind)|
        invariant forall kind, project ::
                    CountOf(byPair, (kind, project)) == |Q.OfPair(Among(active, active.Keys - left), kind, project)|
      {
        var job: Q.JobId :| job in left;
        OneCounted(active, active.Keys - left, job);
        assert active.Keys - left + {job} == active.Keys - (left - {job});
        var e := active[job];
        byKind := byKind[e.kind := CountOf(byKind, e.kind) + 1];
        if Q.HasProject(e.project) {
          byPair := byPair[(e.kind, e.project.value) := CountOf(byPair, (e.kind, e.project.value)) + 1];
        }
        left := left - {job};
      }
      assert Among(active, active.Keys - left) == active;
    }

    method Saturated() returns (kinds: set<string>, pairs: set<(string, string)>)
      ensures kinds == Q.FullKinds(options, active)
      ensures pairs == Q.FullPairs(options, active)
    {
      var byKind, byPair := CountActive();
      FullMeaning(options, active);
      kinds := set kind | kind in byKind && options.maxConcurrent(kind) != 0 && byKind[kind] >= options.maxConcurrent(kind);
      pairs := set pair | pair in byPair && options.maxPerProject(pair.0) != 0 && byPair[pair] >= options.maxPerProject(pair.0);
    }
  
    /** The head of the loop in `poll`: ask for another job, or end the poll and arm the timer. */
    method AskForMore()
      modifies this`poll, this`timer, this`wake
      ensures View() == Q.Looped(options, old(View()), db.now)
    {
      if stoppedAt.None? && |active| < options.concurrency {
        var kinds, pairs := Saturated();
        poll := Q.Asking(db.now, kinds, pairs);
      } else {
        EndPoll();
      }
    }

    /** The `finally` of `poll`. */
    method EndPoll()
      modifies this`poll, this`timer, this`wake
      ensures View() == Q.PollEnded(options, old(View()))
    {
      poll := Q.Idle;
      var delay := if wake then 0 else options.pollMs;
      wake := false;
      Schedule(delay);
    }

    /** The timer fires: `poll` up to its first await. */
    method Poll(ghost t: Q.Timing, ghost s: Q.System)
      requires Matches(s) && Q.Enabled(t, s, Q.Fire(id))
      modifies this
      ensures Matches(Q.Apply(t, options, s, Q.Fire(id)))
    {
      timer := None;
      if stoppedAt.Some? || poll != Q.Idle {
        return;
      }
      AskForMore();
    }

    /** Of the rows `claim` may take, those other transactions hold left out, the oldest. */
    method OldestEligible(rows: Q.Rows, skip: set<Q.JobId>) returns (best: Option<Q.JobId>)
      requires poll.Asking?
      ensures best.None? <==> forall j :: j in rows && j !in skip ==> !Q.Eligible(rows[j], db.now, poll.kinds, poll.pairs)
      ensures best.Some? ==>
                && best.value in rows && best.value !in skip && Q.Eligible(rows[best.value], db.now, poll.kinds, poll.pairs)
                && forall j :: j in rows && j !in skip && Q.Eligible(rows[j], db.now, poll.kinds, poll.pairs) ==>
                     rows[best.value].createdAt <= rows[j].createdAt
    {
      best := None;
      var left := rows.Keys - skip;
      while left != {}
        invariant left <= rows.Keys - skip
        invariant best.None? ==>
                    forall j :: j in rows && j !in skip && j !in left ==> !Q.Eligible(rows[j], db.now, poll.kinds, poll.pairs)
        invariant best.Some? ==>
                    && best.value in rows && best.value !in skip && Q.Eligible(rows[best.value], db.now, poll.kinds, poll.pairs)
                    && forall j :: j in rows && j !in skip && j !in left && Q.Eligible(rows[j], db.now, poll.kinds, poll.pairs) ==>
                         rows[best.value].createdAt <= rows[j].createdAt
      {
        var j: Q.JobId :| j in left;
        if Q.Eligible(rows[j], db.now, poll.kinds, poll.pairs)
           && (best.None? || rows[j].createdAt < rows[best.value].createdAt) {
          best := Some(j);
        }
        left := left - {j};
      }
    }

    /** The statement of `claim`, `asked` being the work under way when it asked: of the rows that wait, are due, fitted then
        and are not held by another transaction the oldest becomes this process's, or there is none and the poll ends. */
    method Claim(skip: set<Q.JobId>, ghost asked: Q.Active, ghost t: Q.Timing, ghost s: Q.System) returns (job: Option<Q.JobId>)
      requires Matches(s) && poll.Asking?
      requires poll.kinds == Q.FullKinds(options, asked) && poll.pairs == Q.FullPairs(options, asked)
      modifies this, db
      ensures job.Some? ==>
                && job.value in s.rows && job.value !in skip && C.MayTake(options, asked, s.rows[job.value], s.now)
                && Q.Enabled(t, s, Q.Take(id, job.value)) && Matches(Q.Apply(t, options, s, Q.Take(id, job.value)))
                && forall j :: j in s.rows && j !in skip && C.MayTake(options, asked, s.rows[j], s.now) ==>
                     s.rows[job.value].createdAt <= s.rows[j].createdAt
      ensures job.None? ==>
                && (forall j :: j in s.rows && j !in skip ==> !C.MayTake(options, asked, s.rows[j], s.now))
                && Matches(Q.Apply(t, options, s, Q.NoJob(id)))
    {
      forall j | j in db.rows
        ensures Q.Eligible(db.rows[j], db.now, poll.kinds, poll.pairs) <==> C.MayTake(options, asked, db.rows[j], db.now)
      {
        C.EligibleIff(options, asked, db.rows[j], db.now);
      }
      job := OldestEligible(db.rows, skip);
      if job.Some? {
        var row := Q.Taken(db.rows[job.value], id, db.now);
        db.rows := db.rows[job.value := row];
        poll := Q.Holding(poll.since, job.value, Q.Entry(row.attempts, row.kind, row.project, Q.Going));
      } else {
        EndPoll();
      }
    }

    /** The claim came back: `execute` enters the job before the loop looks at the slots again. */
    method Execute(ghost t: Q.Timing, ghost s: Q.System)
      requires Matches(s) && Q.Enabled(t, s, Q.Land(id))
      modifies this
      ensures Matches(Q.Apply(t, options, s, Q.Land(id)))
    {
      active := active[poll.id := poll.entry];
      AskForMore();
    }

    /** The claim failed, whether or not it took a row. */
    method PollFailed(ghost t: Q.Timing, ghost s: Q.System)
      requires Matches(s) && !poll.Idle?
      modifies this
      ensures poll.Idle? && Matches(Q.Apply(t, options, s, if old(poll).Asking? then Q.NoJob(id) else Q.Lose(id)))
    {
      EndPoll();
    }

    /** The end of `execute`: the row is written unless the execution was aborted, and the slot is free. */
    method Finish(job: Q.JobId, outcome: Q.Outcome, ghost t: Q.Timing, ghost s: Q.System)
      requires Matches(s) && Q.Enabled(t, s, Q.Finish(id, job, outcome))
      modifies this, db
      ensures Matches(Q.Apply(t, options, s, Q.Finish(id, job, outcome)))
    {
      var e := active[job];
      if e.phase.Going? {
        var row := db.rows[job];
        match outcome {
        case WriteLost =>
        case Success =>
          row := row.(status := Q.Done, lockedAt := None);
        case RetryAsked(delay) =>
          if e.attempt < row.maxAttempts {
            var pause := if delay.Some? then delay.value else Q.Backoff(options, e.attempt);
            row := row.(status := Q.Queued, runAfter := Clock() + pause, lockedAt := None, lockedBy := None);
          } else {
            row := row.(status := Q.Failed, lockedAt := None);
          }
        case Error =>
          row := row.(status := Q.Failed, lockedAt := None);
        }
        db.rows := db.rows[job := row];
      }
      active := active - {job};
      Schedule(0);
    }

    /** Returns how many rows went back to the queue. */
    method RequeueStale() returns (count: nat)
      modifies db`rows
      ensures db.rows == Q.Swept(old(db.rows), Clock(), active.Keys)
      ensures count == |StaleRows(old(db.rows), Clock(), active.Keys)|
      ensures count == 0 <==> db.rows == old(db.rows)
    {
      var rows := db.rows;
      var own := active.Keys;
      var stale := StaleRows(rows, Clock(), own);
      count := |stale|;
      db.rows := Q.Swept(rows, Clock(), own);
      if count == 0 {
        forall j | j in rows
          ensures db.rows[j] == rows[j]
        {
          assert j !in stale;
        }
      } else {
        var j :| j in stale;
        assert db.rows[j] != rows[j];
      }
    }

    method SweepStale(ghost t: Q.Timing, ghost s: Q.System)
      requires Matches(s) && Q.Enabled(t, s, Q.Sweep(id))
      modifies this, db`rows
      ensures Matches(Q.Apply(t, options, s, Q.Sweep(id)))
    {
      var n := RequeueStale();
      if n != 0 {
        Schedule(0);
      }
    }

    method Beat(ghost t: Q.Timing, ghost s: Q.System)
      requires Matches(s) && Q.Enabled(t, s, Q.Beat(id))
      modifies this`lastBeat, db`rows
      ensures Matches(Q.Apply(t, options, s, Q.Beat(id)))
    {
      lastBeat := db.now;
      if active.Keys != {} {
        db.rows := Q.Beaten(db.rows, Clock(), active.Keys);
      } else {
        assert Q.Beaten(db.rows, Clock(), {}) == db.rows;
      }
    }

    /** The first half of `onApplicationShutdown`. */
    method Stop(ghost t: Q.Timing, ghost s: Q.System)
      requires Matches(s) && Q.Enabled(t, s, Q.Stop(id))
      modifies this
      ensures Matches(Q.Apply(t, options, s, Q.Stop(id)))
    {
      stoppedAt := Some(db.now);
      timer := None;
    }

    /** The drain is over: an execution that did not end is told to stop, and its row begins to be handed back. */
    method Abort(job: Q.JobId, ghost t: Q.Timing, ghost s: Q.System)
      requires Matches(s) && Q.Enabled(t, s, Q.Abort(id, job))
      modifies this`active, this`handing
      ensures Matches(Q.Apply(t, options, s, Q.Abort(id, job)))
    {
      active := active[job := active[job].(phase := Q.Aborted)];
      handing := handing + {job};
    }

    /** The row goes back if it still runs, whether or not the handler has returned by then. */
    method HandBack(job: Q.JobId, written: bool, ghost t: Q.Timing, ghost s: Q.System)
      requires Matches(s) && Q.Enabled(t, s, Q.HandBack(id, job, written))
      modifies this`handing, db`rows
      ensures Matches(Q.Apply(t, options, s, Q.HandBack(id, job, written)))
    {
      if written && db.rows[job].status.Running? {
        db.rows := db.rows[job := db.rows[job].(status := Q.Queued, lockedAt := None, lockedBy := None)];
      }
      handing := handing - {job};
    }

    method Enqueue(job: Q.JobId, kind: string, project: Option<string>, forRun: Option<Q.RunId>, maxAttempts: nat,
                   delay: nat, inTx: bool, ghost t: Q.Timing, ghost s: Q.System)
      requires Matches(s) && Q.Enabled(t, s, Q.Enqueue(id, job, kind, project, forRun, maxAttempts, delay, inTx))
      modifies this, db`rows
      ensures Matches(Q.Apply(t, options, s, Q.Enqueue(id, job, kind, project, forRun, maxAttempts, delay, inTx)))
    {
      var row := Q.Job(Q.Queued, kind, project, forRun, 0, maxAttempts, db.now, Clock() + delay, None, None);
      db.rows := db.rows[job := row];
      Schedule(if inTx then options.pollMs else 0);
    }

    /** Returns how many waiting jobs of the run were cancelled. */
    method CancelByRun(run: Q.RunId) returns (count: nat)
      modifies db`rows
      ensures db.rows == Q.CancelledByRun(old(db.rows), run)
      ensures db.rows.Keys == old(db.rows).Keys && forall j :: j in db.rows ==>
                db.rows[j] == if old(db.rows)[j].status == Q.Queued && old(db.rows)[j].run == Some(run)
                              then old(db.rows)[j].(status := Q.Cancelled) else old(db.rows)[j]
      ensures count == |Changed(old(db.rows), db.rows)|
    {
      var rows := db.rows;
      var waiting := set j | j in rows && rows[j].status.Queued? && rows[j].run == Some(run);
      count := |waiting|;
      db.rows := Q.CancelledByRun(rows, run);
      assert waiting == Changed(rows, db.rows);
    }
  }
}
