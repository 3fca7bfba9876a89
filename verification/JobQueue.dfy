/** The job queue (jobs/jobs.service.ts): several API processes over one table of jobs, as steps between awaits. */
module JobQueue {
  import opened Collections
  import opened Prelude

  type JobId = nat
  type ProcId = nat
  type RunId = nat

  const BEAT_MS: nat := 15000
  const STALE_MS: nat := 60000
  const DRAIN_MS: nat := 25000

  // ---------- the table ----------

  datatype Status = Queued | Running | Done | Failed | Cancelled

  datatype Job = Job(
    status: Status, kind: string, project: Option<string>, run: Option<RunId>, attempts: nat, maxAttempts: nat,
    createdAt: nat, runAfter: int, lockedAt: Option<int>, lockedBy: Option<ProcId>)

  type Rows = map<JobId, Job>

  predicate Terminal(status: Status) {
    status.Done? || status.Failed? || status.Cancelled?
  }

  /** What `claim` does to the row it selects. */
  function Taken(j: Job, p: ProcId, now: nat): Job {
    j.(status := Running, lockedAt := Some(now), lockedBy := Some(p), attempts := j.attempts + 1)
  }

  /** The row goes back to the queue; its attempt is spent. */
  function Returned(j: Job): Job {
    j.(status := Queued, lockedAt := None, lockedBy := None)
  }

  /** By the clock of the process that sweeps. */
  predicate Stale(j: Job, clock: int) {
    j.status.Running? && j.lockedAt.Some? && j.lockedAt.value + STALE_MS < clock
  }

  function Swept(rows: Rows, clock: int, own: set<JobId>): Rows {
    map id | id in rows :: if Stale(rows[id], clock) && id !in own then Returned(rows[id]) else rows[id]
  }

  function Beaten(rows: Rows, clock: int, ids: set<JobId>): Rows {
    map id | id in rows :: if id in ids && rows[id].status.Running? then rows[id].(lockedAt := Some(clock)) else rows[id]
  }

  function CancelledByRun(rows: Rows, run: RunId): Rows {
    map id | id in rows ::
      if rows[id].status.Queued? && rows[id].run == Some(run) then rows[id].(status := Cancelled) else rows[id]
  }

  /** How a handler ends: normally, with an error, with a request to retry, or with its last write lost. */
  datatype Outcome = Success | Error | RetryAsked(delay: Option<nat>) | WriteLost

  datatype Settings = Settings(
    concurrency: nat,
    pollMs: nat,
    maxConcurrent: string -> nat,
    maxPerProject: string -> nat,
    backoff: seq<nat>)

  /** The pause before the next attempt. */
  function Backoff(o: Settings, attempt: nat): nat {
    if o.backoff == [] then 30000
    else if attempt == 0 then o.backoff[0]
    else o.backoff[Min(attempt - 1, |o.backoff| - 1)]
  }

  /** The queue's own test for another attempt. */
  predicate TriesAgain(outcome: Outcome, attempt: nat, maxAttempts: nat) {
    outcome.RetryAsked? && attempt < maxAttempts
  }

  function Written(o: Settings, j: Job, attempt: nat, outcome: Outcome, clock: int): Job {
    if outcome.WriteLost? then j
    else if outcome.Success? then j.(status := Done, lockedAt := None)
    else if TriesAgain(outcome, attempt, j.maxAttempts) then
      Returned(j).(runAfter := clock + if outcome.delay.Some? then outcome.delay.value else Backoff(o, attempt))
    else j.(status := Failed, lockedAt := None)
  }

  // ---------- one process ----------

  /** An execution goes on, or was told to stop. */
  datatype Phase = Going | Aborted

  datatype Entry = Entry(attempt: nat, kind: string, project: Option<string>, phase: Phase)

  type Active = map<JobId, Entry>

  /** A poll awaits its claim with the limits as they were when it asked, or has the claimed row and not yet begun it. */
  datatype Poll =
    | Idle
    | Asking(since: nat, kinds: set<string>, pairs: set<(string, string)>)
    | Holding(since: nat, id: JobId, entry: Entry)

  /** `handing` are the rows it is handing back, whether or not the handlers have returned; `skew` is how far its clock is
      ahead of the database's; `lastBeat` is when its last beat was written. */
  datatype Proc = Proc(
    active: Active, poll: Poll, handing: set<JobId>, timer: Option<nat>, wake: bool, stoppedAt: Option<nat>, lastBeat: nat,
    skew: int)

  /** The executions of a kind, and those of them for one project; a job without a project counts for none. */
  function OfKind(active: Active, kind: string): set<JobId> {
    set id | id in active && active[id].kind == kind
  }

  function OfPair(active: Active, kind: string, project: string): set<JobId> {
    set id | id in active && active[id].kind == kind && active[id].project == Some(project) && project != ""
  }

  predicate KindFull(o: Settings, active: Active, kind: string) {
    o.maxConcurrent(kind) != 0 && |OfKind(active, kind)| >= o.maxConcurrent(kind)
  }

  predicate PairFull(o: Settings, active: Active, kind: string, project: string) {
    o.maxPerProject(kind) != 0 && |OfPair(active, kind, project)| >= o.maxPerProject(kind)
  }

  /** `saturated`: the kinds and pairs under way that are at their limit. */
  function FullKinds(o: Settings, active: Active): set<string> {
    set id | id in active && KindFull(o, active, active[id].kind) :: active[id].kind
  }

  function FullPairs(o: Settings, active: Active): set<(string, string)> {
    set id | id in active && HasProject(active[id].project) && PairFull(o, active, active[id].kind, active[id].project.value)
      :: (active[id].kind, active[id].project.value)
  }

  predicate HasProject(project: Option<string>) {
    project.Some? && project.value != ""
  }

  predicate Eligible(j: Job, now: nat, kinds: set<string>, pairs: set<(string, string)>) {
    && j.status.Queued? && j.runAfter <= now
    && j.kind !in kinds
    && (j.project.None? || (j.kind, j.project.value) !in pairs)
  }

  function Scheduled(x: Proc, delay: nat): Proc {
    if x.stoppedAt.Some? then x
    else if x.poll != Idle && delay == 0 then x.(wake := true)
    else x.(timer := Some(delay))
  }

  /** The end of `poll`: the next one follows at once if a slot came free meanwhile. */
  function PollEnded(o: Settings, x: Proc): Proc {
    Scheduled(x.(poll := Idle, wake := false), if x.wake then 0 else o.pollMs)
  }

  /** The head of the loop in `poll`: ask for another job while there is a slot. */
  function Looped(o: Settings, x: Proc, now: nat): Proc {
    if x.stoppedAt.None? && |x.active| < o.concurrency
    then x.(poll := Asking(now, FullKinds(o, x.active), FullPairs(o, x.active)))
    else PollEnded(o, x)
  }

  function Fired(o: Settings, x: Proc, now: nat): Proc {
    var y := x.(timer := None);
    if x.stoppedAt.Some? || x.poll != Idle then y else Looped(o, y, now)
  }

  function Landed(o: Settings, x: Proc, now: nat): Proc
    requires x.poll.Holding?
  {
    Looped(o, x.(active := x.active[x.poll.id := x.poll.entry]), now)
  }

  function Ended(x: Proc, id: JobId): Proc {
    Scheduled(x.(active := x.active - {id}), 0)
  }

  function Stopped(x: Proc, now: nat): Proc {
    x.(stoppedAt := Some(now), timer := None)
  }

  /** The execution is told to stop and its row is being handed back. */
  function Stopping(x: Proc, id: JobId): Proc
    requires id in x.active
  {
    x.(active := x.active[id := x.active[id].(phase := Aborted)], handing := x.handing + {id})
  }

  function HandDone(x: Proc, id: JobId): Proc {
    x.(handing := x.handing - {id})
  }

  const FRESH_ACTIVE: Active := map[]

  function Started(now: nat, skew: int): Proc {
    Proc(FRESH_ACTIVE, Idle, {}, Some(0), false, None, now, skew)
  }

  // ---------- all processes ----------

  /** What the environment grants: how long a claim may be under way, how long a stopped process may go on, how many beats
      in a row may fail to be written, and how far clocks may be apart from the database's. */
  datatype Timing = Timing(latency: nat, ending: nat, lostBeats: nat, skew: nat)

  /** The longest time between two beats that are written. */
  function Gap(t: Timing): (gap: nat)
    ensures gap >= BEAT_MS
  {
    BEAT_MS + 15000 * t.lostBeats
  }

  datatype System = System(now: nat, rows: Rows, procs: map<ProcId, Proc>)

  const EMPTY := System(0, map[], map[])

  datatype Event =
    | Tick(to: nat)
    | Start(p: ProcId, skew: int)
    | Crash(p: ProcId)
    | Stop(p: ProcId)
    | Enqueue(p: ProcId, id: JobId, kind: string, project: Option<string>, forRun: Option<RunId>, maxAttempts: nat, delay: nat, inTx: bool)
    | CancelRun(run: RunId)
    | Sweep(p: ProcId)
    | Beat(p: ProcId)
    | Fire(p: ProcId)
    | Take(p: ProcId, id: JobId)
    | NoJob(p: ProcId)
    | Land(p: ProcId)
    | Lose(p: ProcId)
    | Finish(p: ProcId, id: JobId, outcome: Outcome)
    | Abort(p: ProcId, id: JobId)
    | HandBack(p: ProcId, id: JobId, written: bool)

  /** Nothing is left that could still write to the table. */
  ghost predicate Quiet(x: Proc) {
    x.poll.Idle? && x.handing == {} && forall id :: id in x.active ==> x.active[id].phase.Aborted?
  }

  /** A live process beats every 15 s and no more beats are lost than granted, its claims take no longer than `latency`, and
      within `ending` of its stop it has exited or is quiet. */
  ghost predicate OnTime(t: Timing, now: nat, x: Proc) {
    && (x.stoppedAt.None? ==> now <= x.lastBeat + Gap(t))
    && (x.stoppedAt.Some? ==> now <= x.stoppedAt.value + t.ending || Quiet(x))
    && (!x.poll.Idle? ==> now <= x.poll.since + t.latency)
  }

  ghost predicate Enabled(t: Timing, s: System, e: Event) {
    match e
    case Tick(to) => s.now <= to && forall p :: p in s.procs ==> OnTime(t, to, s.procs[p])
    case Start(p, skew) => p !in s.procs && 0 <= skew + t.skew && skew <= t.skew
    case Crash(p) => p in s.procs
    case Stop(p) => Up(s, p)
    case Enqueue(p, id, _, _, _, _, _, _) => p in s.procs && id !in s.rows
    case CancelRun(_) => true
    case Sweep(p) => Up(s, p)
    case Beat(p) => Up(s, p)
    case Fire(p) => p in s.procs && s.procs[p].timer.Some?
    case Take(p, id) =>
      && p in s.procs && s.procs[p].poll.Asking? && id in s.rows
      && Eligible(s.rows[id], s.now, s.procs[p].poll.kinds, s.procs[p].poll.pairs)
    case NoJob(p) => p in s.procs && s.procs[p].poll.Asking?
    case Land(p) => p in s.procs && s.procs[p].poll.Holding?
    case Lose(p) => p in s.procs && s.procs[p].poll.Holding?
    case Finish(p, id, _) => p in s.procs && id in s.procs[p].active && id in s.rows
    case Abort(p, id) =>
      && p in s.procs && id in s.procs[p].active && s.procs[p].active[id].phase.Going?
      && s.procs[p].stoppedAt.Some? && s.procs[p].stoppedAt.value + DRAIN_MS <= s.now
    case HandBack(p, id, _) => p in s.procs && id in s.procs[p].handing && id in s.rows
  }

  predicate Up(s: System, p: ProcId) {
    p in s.procs && s.procs[p].stoppedAt.None?
  }

  function WithProc(s: System, p: ProcId, x: Proc): System {
    s.(procs := s.procs[p := x])
  }

  function Clock(s: System, p: ProcId): int
    requires p in s.procs
  {
    s.now + s.procs[p].skew
  }

  function HandedBack(j: Job): Job {
    if j.status.Running? then Returned(j) else j
  }

  ghost function Apply(t: Timing, o: Settings, s: System, e: Event): System
    requires Enabled(t, s, e)
  {
    match e
    case Tick(to) => s.(now := to)
    case Start(p, skew) => WithProc(s, p, Started(s.now, skew))
    case Crash(p) => s.(procs := s.procs - {p})
    case Stop(p) => WithProc(s, p, Stopped(s.procs[p], s.now))
    case Enqueue(p, id, kind, project, run, maxAttempts, delay, inTx) =>
      WithProc(s, p, Scheduled(s.procs[p], if inTx then o.pollMs else 0))
      .(rows := s.rows[id := Job(Queued, kind, project, run, 0, maxAttempts, s.now, Clock(s, p) + delay, None, None)])
    case CancelRun(run) => s.(rows := CancelledByRun(s.rows, run))
    case Sweep(p) =>
      var rows := Swept(s.rows, Clock(s, p), s.procs[p].active.Keys);
      (if rows == s.rows then s else WithProc(s, p, Scheduled(s.procs[p], 0))).(rows := rows)
    case Beat(p) =>
      WithProc(s, p, s.procs[p].(lastBeat := s.now)).(rows := Beaten(s.rows, Clock(s, p), s.procs[p].active.Keys))
    case Fire(p) => WithProc(s, p, Fired(o, s.procs[p], s.now))
    case Take(p, id) =>
      var j := Taken(s.rows[id], p, s.now);
      var entry := Entry(j.attempts, j.kind, j.project, Going);
      WithProc(s, p, s.procs[p].(poll := Holding(s.procs[p].poll.since, id, entry))).(rows := s.rows[id := j])
    case NoJob(p) => WithProc(s, p, PollEnded(o, s.procs[p]))
    case Land(p) => WithProc(s, p, Landed(o, s.procs[p], s.now))
    case Lose(p) => WithProc(s, p, PollEnded(o, s.procs[p]))
    case Finish(p, id, outcome) =>
      var entry := s.procs[p].active[id];
      var rows := if entry.phase.Going? then s.rows[id := Written(o, s.rows[id], entry.attempt, outcome, Clock(s, p))] else s.rows;
      WithProc(s, p, Ended(s.procs[p], id)).(rows := rows)
    case Abort(p, id) => WithProc(s, p, Stopping(s.procs[p], id))
    case HandBack(p, id, written) =>
      WithProc(s, p, HandDone(s.procs[p], id))
      .(rows := if written then s.rows[id := HandedBack(s.rows[id])] else s.rows)
  }

  // ---------- runs ----------

  ghost predicate IsRun(t: Timing, o: Settings, es: seq<Event>) {
    es == [] || (IsRun(t, o, es[..|es| - 1]) && Enabled(t, After(t, o, es[..|es| - 1]), es[|es| - 1]))
  }

  ghost function After(t: Timing, o: Settings, es: seq<Event>): System {
    if es == [] then EMPTY
    else
      var s := After(t, o, es[..|es| - 1]);
      if Enabled(t, s, es[|es| - 1]) then Apply(t, o, s, es[|es| - 1]) else s
  }

  /** How much older a lock may be than the last beat: as old as its claim, or by as much as the clock that beats is late. */
  function Slack(t: Timing): nat {
    if t.latency < t.skew then t.skew else t.latency
  }

  /** The longest gap between beats, the slack, a stop and the clock that sweeps together stay within the stale limit. */
  predicate Fits(t: Timing) {
    Gap(t) + Slack(t) + t.ending + t.skew <= STALE_MS
  }

  // ---------- invariant ----------

  /** The row is running, locked by this process, at this attempt. */
  predicate Held(rows: Rows, p: ProcId, id: JobId, e: Entry) {
    && id in rows && rows[id].status.Running? && rows[id].lockedBy == Some(p) && rows[id].lockedAt.Some?
    && rows[id].attempts == e.attempt && rows[id].kind == e.kind && rows[id].project == e.project
  }

  /** The lock is not older than the last beat by more than the slack. */
  predicate Lively(t: Timing, rows: Rows, id: JobId, x: Proc)
    requires id in rows && rows[id].lockedAt.Some?
  {
    rows[id].lockedAt.value + Slack(t) >= x.lastBeat
  }

  ghost predicate EntryOk(t: Timing, rows: Rows, now: nat, p: ProcId, x: Proc, id: JobId)
    requires id in x.active
  {
    if x.active[id].phase.Going? then Held(rows, p, id, x.active[id]) && Lively(t, rows, id, x) && id !in x.handing
    else Drained(x, now)
  }

  predicate Drained(x: Proc, now: nat) {
    x.stoppedAt.Some? && x.stoppedAt.value + DRAIN_MS <= now
  }

  ghost predicate HandOk(t: Timing, rows: Rows, now: nat, p: ProcId, x: Proc, id: JobId) {
    && Drained(x, now)
    && id in rows && rows[id].status.Running? && rows[id].lockedBy == Some(p) && rows[id].lockedAt.Some?
    && Lively(t, rows, id, x)
  }

  ghost predicate PollOk(rows: Rows, p: ProcId, x: Proc) {
    x.poll.Holding? ==>
      && Held(rows, p, x.poll.id, x.poll.entry) && rows[x.poll.id].lockedAt.value >= x.poll.since
      && x.poll.id !in x.active && x.poll.id !in x.handing && x.poll.entry.phase.Going?
  }

  ghost predicate ClocksOk(t: Timing, now: nat, x: Proc) {
    && 0 <= x.skew + t.skew && x.skew <= t.skew
    && x.lastBeat <= now
    && (x.stoppedAt.Some? ==> x.lastBeat <= x.stoppedAt.value <= now && x.stoppedAt.value <= x.lastBeat + Gap(t))
    && (!x.poll.Idle? ==> x.poll.since <= now)
    && (!x.poll.Idle? && x.stoppedAt.Some? ==> x.poll.since <= x.stoppedAt.value)
  }

  ghost predicate ProcOk(t: Timing, rows: Rows, now: nat, p: ProcId, x: Proc) {
    && ClocksOk(t, now, x)
    && OnTime(t, now, x)
    && PollOk(rows, p, x)
    && (forall id :: id in x.active ==> EntryOk(t, rows, now, p, x, id))
    && (forall id :: id in x.handing ==> HandOk(t, rows, now, p, x, id))
  }

  ghost predicate Inv(t: Timing, s: System) {
    forall p :: p in s.procs ==> ProcOk(t, s.rows, s.now, p, s.procs[p])
  }

  /** A process relies on the row of a job. */
  predicate Relies(x: Proc, id: JobId) {
    (id in x.active && x.active[id].phase.Going?) || id in x.handing || (x.poll.Holding? && x.poll.id == id)
  }

  /** A process executes a job: the handler runs and nobody told it to stop. */
  predicate Executing(s: System, p: ProcId, id: JobId) {
    p in s.procs && id in s.procs[p].active && s.procs[p].active[id].phase.Going?
  }

  lemma ReliedIsHeld(t: Timing, s: System, p: ProcId, id: JobId)
    requires Inv(t, s) && p in s.procs && Relies(s.procs[p], id)
    ensures id in s.rows && s.rows[id].status.Running? && s.rows[id].lockedBy == Some(p)
  {
    var x := s.procs[p];
    assert ProcOk(t, s.rows, s.now, p, x);
    if id in x.handing {
      assert HandOk(t, s.rows, s.now, p, x, id);
    } else if id in x.active {
      assert EntryOk(t, s.rows, s.now, p, x, id);
    }
  }

  /** What a live process relies on is stale by no clock. */
  lemma ReliedIsNotStale(t: Timing, s: System, p: ProcId, id: JobId, clock: int)
    requires Fits(t) && Inv(t, s) && p in s.procs && Relies(s.procs[p], id) && clock <= s.now + t.skew
    ensures id in s.rows && !Stale(s.rows[id], clock)
  {
    var x := s.procs[p];
    assert ProcOk(t, s.rows, s.now, p, x);
    assert !Quiet(x);
    if id in x.handing {
      assert HandOk(t, s.rows, s.now, p, x, id);
    } else if id in x.active {
      assert EntryOk(t, s.rows, s.now, p, x, id);
    }
  }

  /** A process keeps its part of the invariant while the rows it relies on stay as they are. */
  lemma OtherKept(t: Timing, s: System, rows: Rows, p: ProcId)
    requires Inv(t, s) && p in s.procs
    requires forall id :: Relies(s.procs[p], id) ==> id in rows && rows[id] == s.rows[id]
    ensures ProcOk(t, rows, s.now, p, s.procs[p])
  {
    var x := s.procs[p];
    assert ProcOk(t, s.rows, s.now, p, x);
    if x.poll.Holding? {
      assert Relies(x, x.poll.id);
    }
    forall id | id in x.active
      ensures EntryOk(t, rows, s.now, p, x, id)
    {
      assert EntryOk(t, s.rows, s.now, p, x, id);
      if x.active[id].phase.Going? { assert Relies(x, id); }
    }
    forall id | id in x.handing
      ensures HandOk(t, rows, s.now, p, x, id)
    {
      assert HandOk(t, s.rows, s.now, p, x, id) && Relies(x, id);
    }
  }

  /** One process moves and at most one row with it, which no other process relies on. */
  lemma StepKeeps(t: Timing, s: System, p: ProcId, x: Proc, rows: Rows)
    requires Inv(t, s) && ProcOk(t, rows, s.now, p, x)
    requires forall q, id :: q in s.procs && q != p && Relies(s.procs[q], id) ==> id in rows && rows[id] == s.rows[id]
    ensures Inv(t, WithProc(s, p, x).(rows := rows))
  {
    var next := WithProc(s, p, x).(rows := rows);
    forall q | q in next.procs
      ensures ProcOk(t, next.rows, next.now, q, next.procs[q])
    {
      if q != p { OtherKept(t, s, rows, q); }
    }
  }

  /** A row another process relies on is locked by that process. */
  lemma OthersRow(t: Timing, s: System, p: ProcId, id: JobId)
    requires Inv(t, s) && id in s.rows && (s.rows[id].status.Running? ==> s.rows[id].lockedBy == Some(p))
    ensures forall q :: q in s.procs && q != p ==> !Relies(s.procs[q], id)
  {
    forall q | q in s.procs && q != p
      ensures !Relies(s.procs[q], id)
    {
      if Relies(s.procs[q], id) { ReliedIsHeld(t, s, q, id); }
    }
  }

  lemma OneRowKeeps(t: Timing, s: System, p: ProcId, x: Proc, id: JobId, j: Job)
    requires Inv(t, s) && id in s.rows && (s.rows[id].status.Running? ==> s.rows[id].lockedBy == Some(p))
    requires ProcOk(t, s.rows[id := j], s.now, p, x)
    ensures Inv(t, WithProc(s, p, x).(rows := s.rows[id := j]))
  {
    OthersRow(t, s, p, id);
    forall q, i | q in s.procs && q != p && Relies(s.procs[q], i)
      ensures i in s.rows[id := j] && s.rows[id := j][i] == s.rows[i]
    {
      ReliedIsHeld(t, s, q, i);
    }
    StepKeeps(t, s, p, x, s.rows[id := j]);
  }

  lemma NoRowKeeps(t: Timing, s: System, p: ProcId, x: Proc)
    requires Inv(t, s) && ProcOk(t, s.rows, s.now, p, x)
    ensures Inv(t, WithProc(s, p, x))
  {
    forall q, i | q in s.procs && q != p && Relies(s.procs[q], i)
      ensures i in s.rows
    {
      ReliedIsHeld(t, s, q, i);
    }
    StepKeeps(t, s, p, x, s.rows);
    assert WithProc(s, p, x).(rows := s.rows) == WithProc(s, p, x);
  }

  // ---------- what the process functions keep ----------

  /** Only poll, timer and wake differ, and there is no new claim. */
  ghost predicate SameWork(x: Proc, y: Proc) {
    && y.active == x.active && y.handing == x.handing && y.stoppedAt == x.stoppedAt && y.lastBeat == x.lastBeat
    && y.skew == x.skew
  }

  lemma PollMoves(t: Timing, rows: Rows, now: nat, p: ProcId, x: Proc, y: Proc)
    requires ProcOk(t, rows, now, p, x) && SameWork(x, y)
    requires y.poll == x.poll || y.poll.Idle? || (y.poll.Asking? && y.poll.since == now && x.stoppedAt.None?)
    ensures ProcOk(t, rows, now, p, y)
  {
    if Quiet(x) { assert x.stoppedAt.Some? ==> Quiet(y); }
    forall id | id in y.active
      ensures EntryOk(t, rows, now, p, y, id)
    {
      assert EntryOk(t, rows, now, p, x, id);
    }
    HandsKeep(t, rows, rows, now, p, x, y);
  }

  /** Rows being handed back stay so while they are unchanged and beat and stop are. */
  lemma HandsKeep(t: Timing, rows: Rows, after: Rows, now: nat, p: ProcId, x: Proc, y: Proc)
    requires ProcOk(t, rows, now, p, x)
    requires y.handing <= x.handing && y.stoppedAt == x.stoppedAt && y.lastBeat == x.lastBeat
    requires forall id :: id in y.handing && id in rows ==> id in after && after[id] == rows[id]
    ensures forall id :: id in y.handing ==> HandOk(t, after, now, p, y, id)
  {
    forall id | id in y.handing
      ensures HandOk(t, after, now, p, y, id)
    {
      assert HandOk(t, rows, now, p, x, id);
    }
  }

  lemma LandedOk(t: Timing, o: Settings, rows: Rows, now: nat, p: ProcId, x: Proc)
    requires Fits(t) && ProcOk(t, rows, now, p, x) && x.poll.Holding?
    ensures ProcOk(t, rows, now, p, Landed(o, x, now))
  {
    var y := x.(active := x.active[x.poll.id := x.poll.entry], poll := Idle);
    assert !Quiet(x);
    forall id | id in y.active
      ensures EntryOk(t, rows, now, p, y, id)
    {
      if id != x.poll.id { assert EntryOk(t, rows, now, p, x, id); }
    }
    HandsKeep(t, rows, rows, now, p, x, y);
    PollMoves(t, rows, now, p, y, Landed(o, x, now));
  }

  lemma EndedOk(t: Timing, rows: Rows, now: nat, p: ProcId, x: Proc, id: JobId, after: Rows)
    requires ProcOk(t, rows, now, p, x) && id in x.active
    requires forall i :: (i != id || x.active[id].phase.Aborted?) && i in rows ==> i in after && after[i] == rows[i]
    ensures ProcOk(t, after, now, p, Ended(x, id))
  {
    var y := x.(active := x.active - {id});
    if Quiet(x) { assert Quiet(y); }
    forall i | i in y.active
      ensures EntryOk(t, after, now, p, y, i)
    {
      assert EntryOk(t, rows, now, p, x, i);
    }
    assert EntryOk(t, rows, now, p, x, id);
    HandsKeep(t, rows, after, now, p, x, y);
    PollMoves(t, after, now, p, y, Ended(x, id));
  }

  // ---------- every event keeps the invariant ----------

  lemma RowsKeep(t: Timing, s: System, rows: Rows)
    requires Inv(t, s)
    requires forall p, id :: p in s.procs && Relies(s.procs[p], id) ==> id in rows && rows[id] == s.rows[id]
    ensures Inv(t, s.(rows := rows))
  {
    forall p | p in s.procs
      ensures ProcOk(t, rows, s.now, p, s.procs[p])
    {
      OtherKept(t, s, rows, p);
    }
  }

  lemma TickInv(t: Timing, o: Settings, s: System, to: nat)
    requires Inv(t, s) && Enabled(t, s, Tick(to))
    ensures Inv(t, Apply(t, o, s, Tick(to)))
  {
    forall p | p in s.procs
      ensures ProcOk(t, s.rows, to, p, s.procs[p])
    {
      var x := s.procs[p];
      assert ProcOk(t, s.rows, s.now, p, x);
      forall id | id in x.active
        ensures EntryOk(t, s.rows, to, p, x, id)
      {
        assert EntryOk(t, s.rows, s.now, p, x, id);
      }
      forall id | id in x.handing
        ensures HandOk(t, s.rows, to, p, x, id)
      {
        assert HandOk(t, s.rows, s.now, p, x, id);
      }
    }
  }

  lemma UpHandsNothingBack(t: Timing, s: System, p: ProcId)
    requires Inv(t, s) && Up(s, p)
    ensures s.procs[p].handing == {}
  {
    var x := s.procs[p];
    assert ProcOk(t, s.rows, s.now, p, x);
    assert forall id :: id in x.handing ==> HandOk(t, s.rows, s.now, p, x, id);
  }

  lemma ComeAndGoInv(t: Timing, o: Settings, s: System, e: Event)
    requires Inv(t, s) && Enabled(t, s, e) && (e.Start? || e.Crash? || e.Stop?)
    ensures Inv(t, Apply(t, o, s, e))
  {
    match e
    case Start(p, skew) =>
      assert ProcOk(t, s.rows, s.now, p, Started(s.now, skew));
      NoRowKeeps(t, s, p, Started(s.now, skew));
    case Crash(p) =>
    case Stop(p) =>
      var x, y := s.procs[p], Stopped(s.procs[p], s.now);
      assert ProcOk(t, s.rows, s.now, p, x);
      forall id | id in y.active
        ensures EntryOk(t, s.rows, s.now, p, y, id)
      {
        assert EntryOk(t, s.rows, s.now, p, x, id);
      }
      UpHandsNothingBack(t, s, p);
      NoRowKeeps(t, s, p, y);
  }

  lemma ScheduledInv(t: Timing, s: System, p: ProcId, delay: nat)
    requires Inv(t, s) && p in s.procs
    ensures Inv(t, WithProc(s, p, Scheduled(s.procs[p], delay)))
  {
    PollMoves(t, s.rows, s.now, p, s.procs[p], Scheduled(s.procs[p], delay));
    NoRowKeeps(t, s, p, Scheduled(s.procs[p], delay));
  }

  lemma EnqueueInv(t: Timing, o: Settings, s: System, e: Event)
    requires Inv(t, s) && Enabled(t, s, e) && e.Enqueue?
    ensures Inv(t, Apply(t, o, s, e))
  {
    var delay := if e.inTx then o.pollMs else 0;
    var mid := WithProc(s, e.p, Scheduled(s.procs[e.p], delay));
    ScheduledInv(t, s, e.p, delay);
    var rows := Apply(t, o, s, e).rows;
    forall p, id | p in mid.procs && Relies(mid.procs[p], id)
      ensures id in rows && rows[id] == s.rows[id]
    {
      ReliedIsHeld(t, mid, p, id);
    }
    RowsKeep(t, mid, rows);
  }

  lemma CancelRunInv(t: Timing, s: System, run: RunId)
    requires Inv(t, s)
    ensures Inv(t, s.(rows := CancelledByRun(s.rows, run)))
  {
    forall p, id | p in s.procs && Relies(s.procs[p], id)
      ensures id in s.rows && CancelledByRun(s.rows, run)[id] == s.rows[id]
    {
      ReliedIsHeld(t, s, p, id);
    }
    RowsKeep(t, s, CancelledByRun(s.rows, run));
  }

  lemma SweepInv(t: Timing, o: Settings, s: System, p: ProcId)
    requires Fits(t) && Inv(t, s) && Enabled(t, s, Sweep(p))
    ensures Inv(t, Apply(t, o, s, Sweep(p)))
  {
    var rows := Swept(s.rows, Clock(s, p), s.procs[p].active.Keys);
    assert ProcOk(t, s.rows, s.now, p, s.procs[p]);
    var mid := if rows == s.rows then s else WithProc(s, p, Scheduled(s.procs[p], 0));
    ScheduledInv(t, s, p, 0);
    forall q, id | q in mid.procs && Relies(mid.procs[q], id)
      ensures id in rows && rows[id] == s.rows[id]
    {
      ReliedIsNotStale(t, mid, q, id, Clock(s, p));
    }
    RowsKeep(t, mid, rows);
  }

  lemma BeatInv(t: Timing, o: Settings, s: System, p: ProcId)
    requires Inv(t, s) && Enabled(t, s, Beat(p))
    ensures Inv(t, Apply(t, o, s, Beat(p)))
  {
    var x, y := s.procs[p], s.procs[p].(lastBeat := s.now);
    var rows := Beaten(s.rows, Clock(s, p), x.active.Keys);
    assert ProcOk(t, s.rows, s.now, p, x);
    UpHandsNothingBack(t, s, p);
    forall id | id in y.active
      ensures EntryOk(t, rows, s.now, p, y, id) && s.rows[id].lockedBy == Some(p)
    {
      assert EntryOk(t, s.rows, s.now, p, x, id);
    }
    forall q, id | q in s.procs && q != p && Relies(s.procs[q], id)
      ensures id in rows && rows[id] == s.rows[id]
    {
      ReliedIsHeld(t, s, q, id);
    }
    StepKeeps(t, s, p, y, rows);
  }

  lemma PollInv(t: Timing, o: Settings, s: System, e: Event)
    requires Inv(t, s) && Enabled(t, s, e) && (e.Fire? || e.NoJob? || e.Lose?)
    ensures Inv(t, Apply(t, o, s, e))
  {
    var x := s.procs[e.p];
    var y := if e.Fire? then Fired(o, x, s.now) else PollEnded(o, x);
    PollMoves(t, s.rows, s.now, e.p, x, y);
    NoRowKeeps(t, s, e.p, y);
  }

  lemma NothingAborted(t: Timing, s: System, p: ProcId, id: JobId)
    requires Fits(t) && Inv(t, s) && p in s.procs && id in s.procs[p].active && !s.procs[p].poll.Idle?
    ensures s.procs[p].active[id].phase.Going? && Relies(s.procs[p], id)
  {
    assert ProcOk(t, s.rows, s.now, p, s.procs[p]);
    assert EntryOk(t, s.rows, s.now, p, s.procs[p], id);
  }

  lemma TakeInv(t: Timing, o: Settings, s: System, p: ProcId, id: JobId)
    requires Fits(t) && Inv(t, s) && Enabled(t, s, Take(p, id))
    ensures Inv(t, Apply(t, o, s, Take(p, id)))
  {
    var x := s.procs[p];
    var j := Taken(s.rows[id], p, s.now);
    var y := x.(poll := Holding(x.poll.since, id, Entry(j.attempts, j.kind, j.project, Going)));
    assert ProcOk(t, s.rows, s.now, p, x);
    if id in x.active {
      NothingAborted(t, s, p, id);
      ReliedIsHeld(t, s, p, id);
    }
    var rows := s.rows[id := j];
    forall i | i in y.active
      ensures EntryOk(t, rows, s.now, p, y, i)
    {
      assert EntryOk(t, s.rows, s.now, p, x, i);
    }
    OneRowKeeps(t, s, p, y, id, j);
  }

  lemma LandInv(t: Timing, o: Settings, s: System, p: ProcId)
    requires Fits(t) && Inv(t, s) && Enabled(t, s, Land(p))
    ensures Inv(t, Apply(t, o, s, Land(p)))
  {
    LandedOk(t, o, s.rows, s.now, p, s.procs[p]);
    NoRowKeeps(t, s, p, Landed(o, s.procs[p], s.now));
  }

  lemma FinishInv(t: Timing, o: Settings, s: System, p: ProcId, id: JobId, outcome: Outcome)
    requires Inv(t, s) && Enabled(t, s, Finish(p, id, outcome))
    ensures Inv(t, Apply(t, o, s, Finish(p, id, outcome)))
  {
    var x := s.procs[p];
    var entry := x.active[id];
    assert ProcOk(t, s.rows, s.now, p, x);
    if entry.phase.Going? {
      var j := Written(o, s.rows[id], entry.attempt, outcome, Clock(s, p));
      ReliedIsHeld(t, s, p, id);
      EndedOk(t, s.rows, s.now, p, x, id, s.rows[id := j]);
      OneRowKeeps(t, s, p, Ended(x, id), id, j);
    } else {
      EndedOk(t, s.rows, s.now, p, x, id, s.rows);
      NoRowKeeps(t, s, p, Ended(x, id));
    }
  }

  lemma StoppingOk(t: Timing, rows: Rows, now: nat, p: ProcId, x: Proc, id: JobId)
    requires ProcOk(t, rows, now, p, x) && id in x.active && x.active[id].phase.Going? && x.poll.Idle? && Drained(x, now)
    ensures ProcOk(t, rows, now, p, Stopping(x, id))
  {
    var y := Stopping(x, id);
    assert !Quiet(x);
    assert EntryOk(t, rows, now, p, x, id);
    forall i | i in y.active
      ensures EntryOk(t, rows, now, p, y, i)
    {
      assert EntryOk(t, rows, now, p, x, i);
    }
    forall i | i in y.handing
      ensures HandOk(t, rows, now, p, y, i)
    {
      if i != id { assert HandOk(t, rows, now, p, x, i); }
    }
  }

  lemma HandDoneOk(t: Timing, rows: Rows, after: Rows, now: nat, p: ProcId, x: Proc, id: JobId)
    requires ProcOk(t, rows, now, p, x) && id in x.handing && x.poll.Idle?
    requires forall i :: i in rows && i != id ==> i in after && after[i] == rows[i]
    ensures ProcOk(t, after, now, p, HandDone(x, id))
  {
    var y := HandDone(x, id);
    assert !Quiet(x) && HandOk(t, rows, now, p, x, id);
    forall i | i in y.active
      ensures EntryOk(t, after, now, p, y, i)
    {
      assert EntryOk(t, rows, now, p, x, i);
    }
    HandsKeep(t, rows, after, now, p, x, y);
  }

  lemma NoPollAfterDrain(t: Timing, s: System, p: ProcId)
    requires Fits(t) && Inv(t, s) && p in s.procs
    requires Drained(s.procs[p], s.now)
    ensures s.procs[p].poll.Idle?
  {
    assert ProcOk(t, s.rows, s.now, p, s.procs[p]);
  }

  lemma DrainInv(t: Timing, o: Settings, s: System, e: Event)
    requires Fits(t) && Inv(t, s) && Enabled(t, s, e) && (e.Abort? || e.HandBack?)
    ensures Inv(t, Apply(t, o, s, e))
  {
    var p, x, id := e.p, s.procs[e.p], e.id;
    assert ProcOk(t, s.rows, s.now, p, x);
    if e.Abort? {
      NoPollAfterDrain(t, s, p);
      StoppingOk(t, s.rows, s.now, p, x, id);
      NoRowKeeps(t, s, p, Stopping(x, id));
    } else {
      assert HandOk(t, s.rows, s.now, p, x, id);
      NoPollAfterDrain(t, s, p);
      var j := if e.written then HandedBack(s.rows[id]) else s.rows[id];
      HandDoneOk(t, s.rows, s.rows[id := j], s.now, p, x, id);
      OneRowKeeps(t, s, p, HandDone(x, id), id, j);
      assert s.rows[id := s.rows[id]] == s.rows;
    }
  }

  lemma StepInv(t: Timing, o: Settings, s: System, e: Event)
    requires Fits(t) && Inv(t, s) && Enabled(t, s, e)
    ensures Inv(t, Apply(t, o, s, e))
  {
    match e
    case Tick(to) => TickInv(t, o, s, to);
    case Start(_, _) => ComeAndGoInv(t, o, s, e);
    case Crash(_) => ComeAndGoInv(t, o, s, e);
    case Stop(_) => ComeAndGoInv(t, o, s, e);
    case Enqueue(_, _, _, _, _, _, _, _) => EnqueueInv(t, o, s, e);
    case CancelRun(run) => CancelRunInv(t, s, run);
    case Sweep(p) => SweepInv(t, o, s, p);
    case Beat(p) => BeatInv(t, o, s, p);
    case Fire(_) => PollInv(t, o, s, e);
    case NoJob(_) => PollInv(t, o, s, e);
    case Lose(_) => PollInv(t, o, s, e);
    case Take(p, id) => TakeInv(t, o, s, p, id);
    case Land(p) => LandInv(t, o, s, p);
    case Finish(p, id, outcome) => FinishInv(t, o, s, p, id, outcome);
    case Abort(_, _) => DrainInv(t, o, s, e);
    case HandBack(_, _, _) => DrainInv(t, o, s, e);
  }

  lemma {:induction false} RunInv(t: Timing, o: Settings, es: seq<Event>)
    requires Fits(t)
    ensures Inv(t, After(t, o, es))
  {
    if es != [] {
      RunInv(t, o, es[..|es| - 1]);
      var s, e := After(t, o, es[..|es| - 1]), es[|es| - 1];
      if Enabled(t, s, e) { StepInv(t, o, s, e); }
    }
  }

  /** No job is ever executed by two live processes at once, nor begun by one while another executes it. */
  ghost predicate Exclusive(s: System) {
    forall p, q, id :: p in s.procs && q in s.procs && Relies(s.procs[p], id) && Relies(s.procs[q], id) ==> p == q
  }

  lemma LeaseIsExclusive(t: Timing, o: Settings, es: seq<Event>)
    requires Fits(t)
    ensures Exclusive(After(t, o, es))
  {
    var s := After(t, o, es);
    RunInv(t, o, es);
    forall p, q, id | p in s.procs && q in s.procs && Relies(s.procs[p], id) && Relies(s.procs[q], id)
      ensures p == q
    {
      ReliedIsHeld(t, s, p, id);
      ReliedIsHeld(t, s, q, id);
    }
  }

  // ---------- how slow is too slow ----------

  lemma AfterMore(t: Timing, o: Settings, es: seq<Event>, e: Event)
    requires Enabled(t, After(t, o, es), e)
    ensures After(t, o, es + [e]) == Apply(t, o, After(t, o, es), e)
  {
    assert (es + [e])[..|es|] == es;
  }

  const ONE_SLOT := Settings(1, 500, kind => 0, kind => 0, [30000])

  function Waiting(at: int): Job {
    Job(Queued, "graph", None, None, 0, 3, 0, at, None, None)
  }

  function FirstHeld(at: int, lock: int): Job {
    Job(Running, "graph", None, None, 1, 3, 0, at, Some(lock), Some(0))
  }

  const BEGUN := Entry(1, "graph", None, Going)

  lemma NothingIsFull(o: Settings)
    ensures FullKinds(o, map[]) == {} && FullPairs(o, map[]) == {}
  {
  }

  /** A process holds the claim of its first job and has beaten at `beat`. */
  function FirstProc(beat: nat, skew: int): Proc {
    Proc(map[], Holding(0, 0, BEGUN), {}, None, false, None, beat, skew)
  }

  lemma FirstClaim(t: Timing, skew: int) returns (es: seq<Event>)
    requires 0 <= skew + t.skew && skew <= 0
    ensures After(t, ONE_SLOT, es) == System(0, map[0 := FirstHeld(skew, 0)], map[0 := FirstProc(0, skew)])
  {
    var o := ONE_SLOT;
    NothingIsFull(o);
    es := [];
    AfterMore(t, o, es, Start(0, skew));
    es := es + [Start(0, skew)];
    var enqueue := Enqueue(0, 0, "graph", None, None, 3, 0, false);
    AfterMore(t, o, es, enqueue);
    es := es + [enqueue];
    AfterMore(t, o, es, Fire(0));
    es := es + [Fire(0)];
    var asking := Proc(map[], Asking(0, {}, {}), {}, None, false, None, 0, skew);
    assert After(t, o, es) == System(0, map[0 := Waiting(skew)], map[0 := asking]);
    AfterMore(t, o, es, Take(0, 0));
    es := es + [Take(0, 0)];
  }

  /** While the claim is under way the process goes on beating, at last at `at`. */
  lemma {:induction false} BeatUntil(t: Timing, skew: int, at: nat) returns (es: seq<Event>)
    requires 0 <= skew + t.skew && skew <= 0 && at <= t.latency
    ensures After(t, ONE_SLOT, es) == System(at, map[0 := FirstHeld(skew, 0)], map[0 := FirstProc(at, skew)])
    decreases at
  {
    if at < Gap(t) {
      es := FirstClaim(t, skew);
    } else {
      es := BeatUntil(t, skew, at - Gap(t));
    }
    AfterMore(t, ONE_SLOT, es, Tick(at));
    es := es + [Tick(at)];
    AfterMore(t, ONE_SLOT, es, Beat(0));
    es := es + [Beat(0)];
  }

  /** The job was begun at `beat`, the time of the last beat. */
  function Begun(beat: nat, skew: int, stoppedAt: Option<nat>): Proc {
    Proc(map[0 := BEGUN], Idle, {}, if stoppedAt.Some? then None else Some(500), false, stoppedAt, beat, skew)
  }

  lemma BegunAt(t: Timing, skew: int, beat: nat) returns (es: seq<Event>)
    requires 0 <= skew + t.skew && skew <= 0 && beat <= t.latency
    ensures After(t, ONE_SLOT, es) == System(beat, map[0 := FirstHeld(skew, 0)], map[0 := Begun(beat, skew, None)])
  {
    es := BeatUntil(t, skew, beat);
    AfterMore(t, ONE_SLOT, es, Land(0));
    es := es + [Land(0)];
  }

  /** The job is begun with a lock as much older than the last beat as can be: its claim took long, or the clock is late. */
  lemma OldLock(t: Timing) returns (es: seq<Event>, beat: nat, skew: int, lock: int)
    ensures beat - lock == Slack(t) && skew <= 0
    ensures After(t, ONE_SLOT, es) == System(beat, map[0 := FirstHeld(skew, lock)], map[0 := Begun(beat, skew, None)])
  {
    if t.latency >= t.skew {
      beat, skew, lock := t.latency, 0, 0;
      es := BegunAt(t, skew, beat);
    } else {
      beat, skew, lock := 0, 0 - t.skew, 0 - t.skew;
      es := BegunAt(t, skew, beat);
      AfterMore(t, ONE_SLOT, es, Beat(0));
      es := es + [Beat(0)];
    }
  }

  /** It is stopped just before the next beat, and goes on until `late`. */
  lemma StoppedLate(t: Timing, late: nat, es0: seq<Event>, beat: nat, skew: int, lock: int) returns (es: seq<Event>)
    requires After(t, ONE_SLOT, es0) == System(beat, map[0 := FirstHeld(skew, lock)], map[0 := Begun(beat, skew, None)])
    requires beat + Gap(t) <= late <= beat + Gap(t) + t.ending
    ensures After(t, ONE_SLOT, es)
         == System(late, map[0 := FirstHeld(skew, lock)], map[0 := Begun(beat, skew, Some(beat + Gap(t)))])
  {
    var stop := beat + Gap(t);
    AfterMore(t, ONE_SLOT, es0, Tick(stop));
    es := es0 + [Tick(stop)];
    AfterMore(t, ONE_SLOT, es, Stop(0));
    es := es + [Stop(0)];
    var x := Begun(beat, skew, Some(stop));
    assert After(t, ONE_SLOT, es) == System(stop, map[0 := FirstHeld(skew, lock)], map[0 := x]);
    AfterMore(t, ONE_SLOT, es, Tick(late));
    es := es + [Tick(late)];
  }

  /** Another process finds the lock stale: the job is back in the queue while the first process still executes it. */
  lemma SweptTooEarly(t: Timing, es0: seq<Event>, late: nat, skew: int, lock: int, x: Proc) returns (es: seq<Event>)
    requires After(t, ONE_SLOT, es0) == System(late, map[0 := FirstHeld(skew, lock)], map[0 := x])
    requires lock + STALE_MS < late + t.skew
    ensures After(t, ONE_SLOT, es) == System(late, map[0 := Waiting(skew).(attempts := 1)], map[0 := x, 1 := Started(late, t.skew)])
  {
    var o := ONE_SLOT;
    AfterMore(t, o, es0, Start(1, t.skew));
    es := es0 + [Start(1, t.skew)];
    assert After(t, o, es) == System(late, map[0 := FirstHeld(skew, lock)], map[0 := x, 1 := Started(late, t.skew)]);
    AfterMore(t, o, es, Sweep(1));
    es := es + [Sweep(1)];
  }

  /** It takes the job, too. */
  lemma TakenAgain(t: Timing, es0: seq<Event>, late: nat, at: int, x: Proc) returns (es: seq<Event>)
    requires After(t, ONE_SLOT, es0) == System(late, map[0 := Waiting(at).(attempts := 1)], map[0 := x, 1 := Started(late, t.skew)])
    requires at <= late && 0 in x.active && x.active[0].phase.Going?
    ensures Executing(After(t, ONE_SLOT, es), 0, 0) && Executing(After(t, ONE_SLOT, es), 1, 0)
  {
    var o := ONE_SLOT;
    NothingIsFull(o);
    AfterMore(t, o, es0, Fire(1));
    es := es0 + [Fire(1)];
    var second := Proc(map[], Asking(late, {}, {}), {}, None, false, None, late, t.skew);
    assert After(t, o, es) == System(late, map[0 := Waiting(at).(attempts := 1)], map[0 := x, 1 := second]);
    AfterMore(t, o, es, Take(1, 0));
    es := es + [Take(1, 0)];
    AfterMore(t, o, es, Land(1));
    es := es + [Land(1)];
  }

  /** Whatever the times, if they do not fit there is a run in which two processes execute the same job. */
  lemma TooSlow(t: Timing) returns (es: seq<Event>)
    requires !Fits(t)
    ensures Executing(After(t, ONE_SLOT, es), 0, 0) && Executing(After(t, ONE_SLOT, es), 1, 0)
  {
    var first, beat, skew, lock := OldLock(t);
    var late := Max(beat + Gap(t), STALE_MS + 1 - t.skew + lock);
    var x := Begun(beat, skew, Some(beat + Gap(t)));
    es := StoppedLate(t, late, first, beat, skew, lock);
    es := SweptTooEarly(t, es, late, skew, lock, x);
    es := TakenAgain(t, es, late, skew, x);
  }

  ghost predicate AlwaysExclusive(t: Timing) {
    forall o, es :: Exclusive(After(t, o, es))
  }

  /** The lease is exclusive in every run exactly when the gap between beats, the slack of a lock, a stop and the clocks
      together fit into the stale limit. */
  lemma LeaseIsSafeExactlyWhen(t: Timing)
    ensures AlwaysExclusive(t) <==> Gap(t) + Max(t.latency, t.skew) + t.ending + t.skew <= STALE_MS
  {
    if Fits(t) {
      forall o, es
        ensures Exclusive(After(t, o, es))
      {
        LeaseIsExclusive(t, o, es);
      }
      assert AlwaysExclusive(t);
    } else {
      var es := TooSlow(t);
      var s := After(t, ONE_SLOT, es);
      assert Relies(s.procs[0], 0) && Relies(s.procs[1], 0);
      assert !Exclusive(s);
      assert !AlwaysExclusive(t);
    }
  }

  // ---------- the life of a row ----------

  /** The steps a row takes: claimed, given back, ended, cancelled while it waits, or none. */
  predicate RowStep(a: Job, b: Job) {
    && b.kind == a.kind && b.project == a.project && b.run == a.run && b.maxAttempts == a.maxAttempts
    && if b.status == a.status then b.attempts == a.attempts
       else if a.status.Queued? && b.status.Running? then b.attempts == a.attempts + 1
       else b.attempts == a.attempts && ((a.status.Running? && !b.status.Cancelled?) || (a.status.Queued? && b.status.Cancelled?))
  }

  lemma EndMoves(t: Timing, o: Settings, s: System, p: ProcId, i: JobId, outcome: Outcome, id: JobId)
    requires Inv(t, s) && Enabled(t, s, Finish(p, i, outcome)) && id in s.rows
    ensures var next := Apply(t, o, s, Finish(p, i, outcome)).rows; id in next && RowStep(s.rows[id], next[id])
  {
    if i == id && s.procs[p].active[i].phase.Going? { ReliedIsHeld(t, s, p, i); }
  }

  /** Sweep, beat and the cancelling of a run go over all rows. */
  lemma AllRowsMove(t: Timing, o: Settings, s: System, e: Event, id: JobId)
    requires Enabled(t, s, e) && (e.Sweep? || e.Beat? || e.CancelRun?) && id in s.rows
    ensures id in Apply(t, o, s, e).rows && RowStep(s.rows[id], Apply(t, o, s, e).rows[id])
  {
  }

  lemma RowMoves(t: Timing, o: Settings, s: System, e: Event, id: JobId)
    requires Inv(t, s) && Enabled(t, s, e) && id in s.rows
    ensures id in Apply(t, o, s, e).rows && RowStep(s.rows[id], Apply(t, o, s, e).rows[id])
  {
    match e
    case Finish(p, i, outcome) => EndMoves(t, o, s, p, i, outcome, id);
    case Sweep(_) => AllRowsMove(t, o, s, e, id);
    case Beat(_) => AllRowsMove(t, o, s, e, id);
    case CancelRun(_) => AllRowsMove(t, o, s, e, id);
    case _ =>
  }

  /** Done, failed and cancelled are never left. */
  lemma {:induction false} EndsAreFinal(t: Timing, o: Settings, es: seq<Event>, more: seq<Event>, id: JobId)
    requires Fits(t) && id in After(t, o, es).rows && Terminal(After(t, o, es).rows[id].status)
    ensures id in After(t, o, es + more).rows
    ensures After(t, o, es + more).rows[id].status == After(t, o, es).rows[id].status
    decreases |more|
  {
    if more == [] {
      assert es + more == es;
    } else {
      var before := es + more[..|more| - 1];
      EndsAreFinal(t, o, es, more[..|more| - 1], id);
      assert (es + more)[..|es + more| - 1] == before;
      RunInv(t, o, before);
      var s, e := After(t, o, before), more[|more| - 1];
      if Enabled(t, s, e) { RowMoves(t, o, s, e, id); }
    }
  }

  /** Whoever writes the end of an execution still holds the row, at the attempt it was claimed for. */
  lemma EndIsWrittenByHolder(t: Timing, o: Settings, es: seq<Event>, p: ProcId, id: JobId)
    requires Fits(t) && Executing(After(t, o, es), p, id)
    ensures Held(After(t, o, es).rows, p, id, After(t, o, es).procs[p].active[id])
    ensures forall q :: Executing(After(t, o, es), q, id) ==> q == p
  {
    var s := After(t, o, es);
    RunInv(t, o, es);
    assert ProcOk(t, s.rows, s.now, p, s.procs[p]);
    assert EntryOk(t, s.rows, s.now, p, s.procs[p], id);
    LeaseIsExclusive(t, o, es);
    assert Relies(s.procs[p], id);
    forall q | Executing(s, q, id)
      ensures q == p
    {
      assert Relies(s.procs[q], id);
    }
  }

  // ---------- attempts ----------

  function Claims(es: seq<Event>, id: JobId): nat {
    if es == [] then 0
    else Claims(es[..|es| - 1], id) + if es[|es| - 1].Take? && es[|es| - 1].id == id then 1 else 0
  }

  ghost predicate GivesRetry(s: System, e: Event, id: JobId) {
    && e.Finish? && e.id == id && Executing(s, e.p, id) && id in s.rows
    && TriesAgain(e.outcome, s.procs[e.p].active[id].attempt, s.rows[id].maxAttempts)
  }

  ghost function Retries(t: Timing, o: Settings, es: seq<Event>, id: JobId): nat {
    if es == [] then 0
    else
      Retries(t, o, es[..|es| - 1], id) + if GivesRetry(After(t, o, es[..|es| - 1]), es[|es| - 1], id) then 1 else 0
  }

  ghost predicate Counted(rows: Rows, id: JobId, claims: nat, retries: nat) {
    if id !in rows then claims == 0 && retries == 0
    else
      && rows[id].attempts == claims
      && retries + (if rows[id].status.Running? then 1 else 0) <= claims
      && retries <= Max(0, rows[id].maxAttempts - 1)
  }

  lemma CountStep(t: Timing, o: Settings, s: System, e: Event, id: JobId, claims: nat, retries: nat)
    requires Inv(t, s) && Enabled(t, s, e) && Counted(s.rows, id, claims, retries)
    ensures Counted(Apply(t, o, s, e).rows, id, claims + (if e.Take? && e.id == id then 1 else 0),
                    retries + (if GivesRetry(s, e, id) then 1 else 0))
  {
    var next := Apply(t, o, s, e);
    if id in s.rows {
      RowMoves(t, o, s, e, id);
      if GivesRetry(s, e, id) {
        ReliedIsHeld(t, s, e.p, id);
        assert ProcOk(t, s.rows, s.now, e.p, s.procs[e.p]);
        assert EntryOk(t, s.rows, s.now, e.p, s.procs[e.p], id);
      }
    }
  }

  lemma {:induction false} CountedRun(t: Timing, o: Settings, es: seq<Event>, id: JobId)
    requires Fits(t) && IsRun(t, o, es)
    ensures Counted(After(t, o, es).rows, id, Claims(es, id), Retries(t, o, es, id))
  {
    if es == [] {
      assert id !in EMPTY.rows;
    } else {
      var before := es[..|es| - 1];
      CountedRun(t, o, before, id);
      RunInv(t, o, before);
      CountStep(t, o, After(t, o, before), es[|es| - 1], id, Claims(before, id), Retries(t, o, before, id));
    }
  }

  /** Attempts are claims, orphans included; retries asked for by a handler stay below the limit of attempts. */
  lemma AttemptsAreClaims(t: Timing, o: Settings, es: seq<Event>, id: JobId)
    requires Fits(t) && IsRun(t, o, es) && id in After(t, o, es).rows
    ensures After(t, o, es).rows[id].attempts == Claims(es, id)
    ensures Retries(t, o, es, id) <= Max(0, After(t, o, es).rows[id].maxAttempts - 1)
    ensures Retries(t, o, es, id) <= Claims(es, id)
  {
    CountedRun(t, o, es, id);
  }

  // ---------- pauses ----------

  /** A waiting row that is not taken stays as it is, or is cancelled. */
  lemma WaitingStep(t: Timing, o: Settings, s: System, e: Event, id: JobId)
    requires Inv(t, s) && Enabled(t, s, e) && id in s.rows && !s.rows[id].status.Running?
    requires !(e.Take? && e.id == id)
    ensures id in Apply(t, o, s, e).rows && !Apply(t, o, s, e).rows[id].status.Running?
    ensures Apply(t, o, s, e).rows[id] == s.rows[id].(status := Apply(t, o, s, e).rows[id].status)
  {
    if e.Finish? && e.id == id && Relies(s.procs[e.p], id) {
      ReliedIsHeld(t, s, e.p, id);
    }
  }

  predicate NotTaken(es: seq<Event>, id: JobId) {
    forall k :: 0 <= k < |es| ==> !(es[k].Take? && es[k].id == id)
  }

  lemma {:induction false} WaitingRow(t: Timing, o: Settings, es: seq<Event>, more: seq<Event>, id: JobId)
    requires Fits(t) && id in After(t, o, es).rows && !After(t, o, es).rows[id].status.Running? && NotTaken(more, id)
    ensures id in After(t, o, es + more).rows && !After(t, o, es + more).rows[id].status.Running?
    ensures After(t, o, es + more).rows[id] == After(t, o, es).rows[id].(status := After(t, o, es + more).rows[id].status)
    decreases |more|
  {
    if more == [] {
      assert es + more == es;
    } else {
      var n := |more| - 1;
      assert NotTaken(more[..n], id) && !(more[n].Take? && more[n].id == id);
      WaitingRow(t, o, es, more[..n], id);
      AfterLast(t, o, es, more);
      RunInv(t, o, es + more[..n]);
      var s := After(t, o, es + more[..n]);
      if Enabled(t, s, more[n]) { WaitingStep(t, o, s, more[n], id); }
    }
  }

  /** A job whose handler asked for a retry is not taken again, by any process, before its pause is over. */
  lemma RetryWaits(t: Timing, o: Settings, es: seq<Event>, e: Event, more: seq<Event>, id: JobId, p: ProcId)
    requires Fits(t) && e.Finish? && Enabled(t, After(t, o, es), e) && GivesRetry(After(t, o, es), e, id) && NotTaken(more, id)
    requires Enabled(t, After(t, o, es + [e] + more), Take(p, id))
    ensures var s := After(t, o, es);
            var pause := if e.outcome.delay.Some? then e.outcome.delay.value else Backoff(o, s.procs[e.p].active[id].attempt);
            After(t, o, es + [e] + more).now >= Clock(s, e.p) + pause
  {
    AfterMore(t, o, es, e);
    WaitingRow(t, o, es + [e], more, id);
  }

  // ---------- orphans ----------

  /** A job runs in the table, but no live process executes it, is about to, or will still hand it back. */
  ghost predicate Orphan(s: System, id: JobId) {
    && id in s.rows && s.rows[id].status.Running? && s.rows[id].lockedAt.Some?
    && forall p :: p in s.procs ==> !Relies(s.procs[p], id)
  }

  /** A process that is not stopped relies on all it executes. */
  lemma ActiveIsRelied(t: Timing, s: System, p: ProcId, id: JobId)
    requires Inv(t, s) && Up(s, p) && id in s.procs[p].active
    ensures Relies(s.procs[p], id)
  {
    assert ProcOk(t, s.rows, s.now, p, s.procs[p]);
    assert EntryOk(t, s.rows, s.now, p, s.procs[p], id);
  }

  lemma NobodyBegins(t: Timing, o: Settings, s: System, e: Event, id: JobId, p: ProcId)
    requires Enabled(t, s, e) && Orphan(s, id) && p in Apply(t, o, s, e).procs
    ensures !Relies(Apply(t, o, s, e).procs[p], id)
  {
    if p in s.procs { assert !Relies(s.procs[p], id); }
  }

  lemma OrphanRow(t: Timing, o: Settings, s: System, e: Event, id: JobId)
    requires Inv(t, s) && Enabled(t, s, e) && Orphan(s, id)
    ensures id in Apply(t, o, s, e).rows
    ensures Apply(t, o, s, e).rows[id] == s.rows[id] || (e.Sweep? && Apply(t, o, s, e).rows[id] == Returned(s.rows[id]))
  {
    match e
    case Beat(p) => if id in s.procs[p].active { ActiveIsRelied(t, s, p, id); }
    case Finish(p, i, _) => assert !Relies(s.procs[p], id);
    case HandBack(p, i, _) => assert !Relies(s.procs[p], id);
    case _ =>
  }

  lemma OrphanStep(t: Timing, o: Settings, s: System, e: Event, id: JobId)
    requires Inv(t, s) && Enabled(t, s, e) && Orphan(s, id) && !e.Sweep?
    ensures Orphan(Apply(t, o, s, e), id) && Apply(t, o, s, e).rows[id] == s.rows[id]
  {
    OrphanRow(t, o, s, e, id);
    var after := Apply(t, o, s, e);
    forall p | p in after.procs
      ensures !Relies(after.procs[p], id)
    {
      NobodyBegins(t, o, s, e, id, p);
    }
  }

  lemma AfterLast(t: Timing, o: Settings, es: seq<Event>, more: seq<Event>)
    requires more != []
    ensures var s, e := After(t, o, es + more[..|more| - 1]), more[|more| - 1];
            After(t, o, es + more) == if Enabled(t, s, e) then Apply(t, o, s, e) else s
  {
    assert (es + more)[..|es + more| - 1] == es + more[..|more| - 1];
  }

  lemma {:induction false} OrphanWaits(t: Timing, o: Settings, es: seq<Event>, more: seq<Event>, id: JobId)
    requires Fits(t) && Orphan(After(t, o, es), id) && forall k :: 0 <= k < |more| ==> !more[k].Sweep?
    ensures Orphan(After(t, o, es + more), id) && After(t, o, es + more).rows[id] == After(t, o, es).rows[id]
    decreases |more|
  {
    if more == [] {
      assert es + more == es;
    } else {
      var n := |more| - 1;
      OrphanWaits(t, o, es, more[..n], id);
      AfterLast(t, o, es, more);
      RunInv(t, o, es + more[..n]);
      var s := After(t, o, es + more[..n]);
      if Enabled(t, s, more[n]) { OrphanStep(t, o, s, more[n], id); }
    }
  }

  /** No job is lost: what a crash, a lost write or a lost claim leaves running keeps its old lock, whatever else happens,
      and the first sweep by any process that is not stopped, 60 s after that lock, puts it back into the queue. */
  lemma OrphanComesBack(t: Timing, o: Settings, es: seq<Event>, more: seq<Event>, id: JobId, p: ProcId)
    requires Fits(t) && Orphan(After(t, o, es), id) && forall k :: 0 <= k < |more| ==> !more[k].Sweep?
    requires Up(After(t, o, es + more), p)
    requires After(t, o, es).rows[id].lockedAt.value + STALE_MS < Clock(After(t, o, es + more), p)
    ensures id in After(t, o, es + more + [Sweep(p)]).rows
    ensures After(t, o, es + more + [Sweep(p)]).rows[id] == Returned(After(t, o, es).rows[id])
  {
    OrphanWaits(t, o, es, more, id);
    RunInv(t, o, es + more);
    AfterMore(t, o, es + more, Sweep(p));
    var s := After(t, o, es + more);
    if id in s.procs[p].active { ActiveIsRelied(t, s, p, id); }
  }

  // ---------- worker limits ----------

  /** Every kind, and every project within a kind, has room for one more execution. */
  ghost predicate RoomFor(o: Settings, active: Active, kind: string, project: Option<string>) {
    && !KindFull(o, active, kind)
    && (HasProject(project) ==> !PairFull(o, active, kind, project.value))
  }

  ghost predicate WithinKinds(o: Settings, active: Active) {
    forall kind :: o.maxConcurrent(kind) != 0 ==> |OfKind(active, kind)| <= o.maxConcurrent(kind)
  }

  ghost predicate WithinPairs(o: Settings, active: Active) {
    forall kind, project :: o.maxPerProject(kind) != 0 ==> |OfPair(active, kind, project)| <= o.maxPerProject(kind)
  }

  ghost predicate SnapshotOk(o: Settings, active: Active, kinds: set<string>, pairs: set<(string, string)>) {
    && (forall kind :: KindFull(o, active, kind) ==> kind in kinds)
    && (forall kind, project :: project != "" && PairFull(o, active, kind, project) ==> (kind, project) in pairs)
  }

  /** The limits hold, what a poll still believes about them is enough to keep them, and something will poll again. */
  ghost predicate WorkerOk(o: Settings, x: Proc) {
    && |x.active| <= o.concurrency
    && (!x.poll.Idle? ==> |x.active| < o.concurrency)
    && WithinKinds(o, x.active) && WithinPairs(o, x.active)
    && (x.poll.Asking? ==> SnapshotOk(o, x.active, x.poll.kinds, x.poll.pairs))
    && (x.poll.Holding? ==> RoomFor(o, x.active, x.poll.entry.kind, x.poll.entry.project))
    && (x.stoppedAt.None? ==> x.timer.Some? || !x.poll.Idle?)
  }

  /** Every execution of `fewer` is one of `active`, of the same kind and project. */
  ghost predicate NoMore(fewer: Active, active: Active) {
    forall id :: id in fewer ==>
      id in active && fewer[id].kind == active[id].kind && fewer[id].project == active[id].project
  }

  lemma FewerKeeps(o: Settings, fewer: Active, active: Active)
    requires NoMore(fewer, active)
    ensures |fewer| <= |active|
    ensures forall kind :: |OfKind(fewer, kind)| <= |OfKind(active, kind)|
    ensures forall kind, project :: |OfPair(fewer, kind, project)| <= |OfPair(active, kind, project)|
  {
    Subset(fewer.Keys, active.Keys);
    forall kind
      ensures |OfKind(fewer, kind)| <= |OfKind(active, kind)|
    {
      Subset(OfKind(fewer, kind), OfKind(active, kind));
    }
    forall kind, project
      ensures |OfPair(fewer, kind, project)| <= |OfPair(active, kind, project)|
    {
      Subset(OfPair(fewer, kind, project), OfPair(active, kind, project));
    }
  }

  /** Executions end while the claim is under way: what it believes errs on the side of the limits. */
  lemma FewerWork(o: Settings, x: Proc, fewer: Active)
    requires WorkerOk(o, x) && NoMore(fewer, x.active)
    ensures WorkerOk(o, x.(active := fewer))
  {
    FewerKeeps(o, fewer, x.active);
  }

  lemma SnapshotTaken(o: Settings, active: Active)
    ensures SnapshotOk(o, active, FullKinds(o, active), FullPairs(o, active))
  {
    forall kind | KindFull(o, active, kind)
      ensures kind in FullKinds(o, active)
    {
      var id :| id in OfKind(active, kind);
      assert active[id].kind == kind;
    }
    forall kind, project | project != "" && PairFull(o, active, kind, project)
      ensures (kind, project) in FullPairs(o, active)
    {
      var id :| id in OfPair(active, kind, project);
      assert active[id].kind == kind && active[id].project == Some(project);
    }
  }

  /** A row that passes the filters of the claim has room, whatever its kind and project. */
  lemma EligibleHasRoom(o: Settings, active: Active, j: Job, now: nat, kinds: set<string>, pairs: set<(string, string)>)
    requires SnapshotOk(o, active, kinds, pairs) && Eligible(j, now, kinds, pairs)
    ensures RoomFor(o, active, j.kind, j.project)
  {
  }

  lemma OneMoreOfKind(o: Settings, active: Active, id: JobId, e: Entry)
    requires WithinKinds(o, active) && !KindFull(o, active, e.kind)
    ensures WithinKinds(o, active[id := e])
  {
    var more := active[id := e];
    forall kind | o.maxConcurrent(kind) != 0
      ensures |OfKind(more, kind)| <= o.maxConcurrent(kind)
    {
      Subset(OfKind(more, kind), OfKind(active, kind) + if kind == e.kind then {id} else {});
    }
  }

  lemma OneMoreOfPair(o: Settings, active: Active, id: JobId, e: Entry)
    requires WithinPairs(o, active) && (HasProject(e.project) ==> !PairFull(o, active, e.kind, e.project.value))
    ensures WithinPairs(o, active[id := e])
  {
    var more := active[id := e];
    forall kind, project | o.maxPerProject(kind) != 0
      ensures |OfPair(more, kind, project)| <= o.maxPerProject(kind)
    {
      if kind == e.kind && e.project == Some(project) && project != "" {
        Subset(OfPair(more, kind, project), OfPair(active, kind, project) + {id});
      } else {
        Subset(OfPair(more, kind, project), OfPair(active, kind, project));
      }
    }
  }

  /** A job with room enters: the limits still hold. */
  lemma OneMore(o: Settings, active: Active, id: JobId, e: Entry)
    requires WithinKinds(o, active) && WithinPairs(o, active) && RoomFor(o, active, e.kind, e.project)
    ensures |active[id := e]| <= |active| + 1
    ensures WithinKinds(o, active[id := e]) && WithinPairs(o, active[id := e])
  {
    Subset(active[id := e].Keys, active.Keys + {id});
    OneMoreOfKind(o, active, id, e);
    OneMoreOfPair(o, active, id, e);
  }

  lemma ScheduledWork(o: Settings, x: Proc, delay: nat)
    requires WorkerOk(o, x.(timer := Some(0)))
    ensures WorkerOk(o, Scheduled(x, delay))
  {
  }

  lemma LoopedWork(o: Settings, x: Proc, now: nat)
    requires |x.active| <= o.concurrency && WithinKinds(o, x.active) && WithinPairs(o, x.active)
    ensures WorkerOk(o, Looped(o, x, now))
  {
    SnapshotTaken(o, x.active);
  }

  lemma LandedWork(o: Settings, x: Proc, now: nat)
    requires WorkerOk(o, x) && x.poll.Holding?
    ensures WorkerOk(o, Landed(o, x, now))
  {
    OneMore(o, x.active, x.poll.id, x.poll.entry);
    LoopedWork(o, x.(active := x.active[x.poll.id := x.poll.entry]), now);
  }

  lemma EndedWork(o: Settings, x: Proc, id: JobId)
    requires WorkerOk(o, x)
    ensures WorkerOk(o, Ended(x, id))
  {
    FewerWork(o, x, x.active - {id});
    ScheduledWork(o, x.(active := x.active - {id}), 0);
  }

  lemma PollWork(t: Timing, o: Settings, s: System, e: Event, p: ProcId)
    requires Enabled(t, s, e) && p in s.procs && WorkerOk(o, s.procs[p])
    requires e == Fire(p) || e == NoJob(p) || e == Land(p) || e == Lose(p) || (e.Take? && e.p == p)
    ensures WorkerOk(o, Apply(t, o, s, e).procs[p])
  {
    var x := s.procs[p];
    match e
    case Fire(_) => LoopedWork(o, x.(timer := None), s.now);
    case Take(_, id) => EligibleHasRoom(o, x.active, s.rows[id], s.now, x.poll.kinds, x.poll.pairs);
    case Land(_) => LandedWork(o, x, s.now);
    case _ =>
  }

  lemma EndWork(t: Timing, o: Settings, s: System, e: Event, p: ProcId)
    requires Enabled(t, s, e) && p in s.procs && WorkerOk(o, s.procs[p])
    requires (e.Finish? || e.Abort? || e.HandBack?) && e.p == p
    ensures WorkerOk(o, Apply(t, o, s, e).procs[p])
  {
    var x := s.procs[p];
    if e.Finish? {
      EndedWork(o, x, e.id);
    } else {
      FewerWork(o, x, Apply(t, o, s, e).procs[p].active);
    }
  }

  lemma QuietWork(t: Timing, o: Settings, s: System, e: Event, p: ProcId)
    requires Enabled(t, s, e) && p in s.procs && WorkerOk(o, s.procs[p]) && p in Apply(t, o, s, e).procs
    requires e.Tick? || e.Crash? || e.Stop? || e.Enqueue? || e.CancelRun? || e.Sweep? || e.Beat?
    ensures WorkerOk(o, Apply(t, o, s, e).procs[p])
  {
  }

  /** The process an event is about, if it is about one that has work. */
  predicate About(e: Event, p: ProcId) {
    match e
    case Fire(q) => q == p
    case NoJob(q) => q == p
    case Land(q) => q == p
    case Lose(q) => q == p
    case Take(q, _) => q == p
    case Finish(q, _, _) => q == p
    case Abort(q, _) => q == p
    case HandBack(q, _, _) => q == p
    case _ => false
  }

  lemma WorkerStep(t: Timing, o: Settings, s: System, e: Event, p: ProcId)
    requires Enabled(t, s, e) && p in Apply(t, o, s, e).procs
    requires p in s.procs ==> WorkerOk(o, s.procs[p])
    ensures WorkerOk(o, Apply(t, o, s, e).procs[p])
  {
    if e.Start? && e.p == p {
      LoopedWork(o, Started(s.now, e.skew), s.now);
    } else if About(e, p) {
      if e.Finish? || e.Abort? || e.HandBack? {
        EndWork(t, o, s, e, p);
      } else {
        PollWork(t, o, s, e, p);
      }
    } else if e.Tick? || e.Crash? || e.Stop? || e.Enqueue? || e.CancelRun? || e.Sweep? || e.Beat? {
      QuietWork(t, o, s, e, p);
    }
  }

  /** In every run, however late claims return: no process exceeds its slots, its limit per kind or per kind and
      project, and one that is not stopped has a timer armed or a poll under way. */
  lemma {:induction false} WorkersKeepLimits(t: Timing, o: Settings, es: seq<Event>, p: ProcId)
    requires p in After(t, o, es).procs
    ensures WorkerOk(o, After(t, o, es).procs[p])
  {
    if es != [] {
      var before, e := es[..|es| - 1], es[|es| - 1];
      var s := After(t, o, before);
      if p in s.procs { WorkersKeepLimits(t, o, before, p); }
      if Enabled(t, s, e) { WorkerStep(t, o, s, e, p); }
    }
  }
}
