/** Runs of the whole protocol: the tables of module Tables, the attempts that worker
    processes hold in memory, and history variables that only the theorems read. Each
    event is one committed transaction, of this library or of Graphile. */
module Protocol {
  import opened Wrappers
  import opened Tables

  datatype Ending = ContinuedTo(id: JobId) | Waiting(waitId: StepId)

  /** One attempt in its worker: the ending it committed, whether the executor decided without
      one, whether it then settled or scheduled a retry, the ids its step store holds, and the
      `waited` mark it was claimed with. */
  datatype Run = Run(ended: Option<Ending>, decided: bool, settled: bool, cache: set<StepId>, waited: bool)

  datatype Birth = Birth(input: Option<Json>, maxAttempts: int)

  datatype History = History(
    next: map<JobId, JobId>,        // continuations
    born: map<JobId, Birth>,        // every job ever inserted
    spent: map<JobId, int>,         // claims that did not end suspended
    enqueued: multiset<GroupKey>,   // commits that enqueued a wait's children
    lastLock: map<JobId, Time>,
    failedAt: map<JobId, Time>,     // the latest failure update or release
    excused: set<GroupKey>,         // finished before their parent was put to sleep, see DueOk
    stale: set<JobId>,              // waited on through an idempotency key, but continued before
    done: map<JobId, Time>)         // completed or continued

  datatype Sys = Sys(clock: Time, db: Db, runs: map<Token, Run>, hist: History)

  datatype Event =
    | Tick(ms: nat)
    | Add(spec: JobSpec)
    | Claim(job: JobId, pool: PoolId)
    | Fail(job: JobId)
    | Remove(job: JobId, pool: PoolId)
    | Heartbeat(pool: PoolId)
    | Recover(staleAfter: nat, sweeper: PoolId, busy: set<PoolId>)
    | Enter(token: Token, waitId: StepId, count: nat, prepared: Prepared, timeout: Option<nat>)
    | Continuation(token: Token, runAt: Option<Time>, traceparent: Option<string>, latest: Option<Json>, record: bool)
    | Decide(token: Token)
    | Settled(token: Token, report: Report, row: RowAction, record: bool)
    | Retry(token: Token, at: Time)
    | Step(token: Token, step: StepId, output: Option<Json>)
    | Progress(token: Token, value: Json)
    | SweepLost(skipped: set<WaitKey>)
    | SweepFinished
    | SweepOrphans
    | Prune(retention: nat, kept: set<JobId>)

  /** Graphile reclaims a lock this old although its holder may be alive. */
  const RECLAIM_AFTER := 14_400_000

  /** Claims of a job that did not end suspended. */
  function Spent(hist: History, j: JobId): int { if j in hist.spent then hist.spent[j] else 0 }

  const START := Sys(0, Db(0, map[], map[], map[], map[], map[]), map[],
                     History(map[], map[], map[], multiset{}, map[], map[], {}, {}, map[]))

  // Events ----------------------------------------------------------------------------

  function DoAdd(s: Sys, spec: JobSpec): Sys {
    s.(db := AddJob(s.db, spec, s.clock),
       hist := s.hist.(born := s.hist.born[s.db.nextId := Birth(spec.envelope.input, spec.maxAttempts)],
                       spent := s.hist.spent[s.db.nextId := 0]))
  }

  predicate Addable(jobs: map<JobId, Job>, spec: JobSpec) { 1 <= spec.maxAttempts && !Replaces(jobs, spec) }

  predicate Claimable(s: Sys, j: JobId) {
    && j in s.db.jobs
    && var job := s.db.jobs[j];
    && job.runAt <= s.clock && !Exhausted(job)
    && (job.lock.Some? ==> job.lock.value.at < s.clock - RECLAIM_AFTER)
    && (job.lane.Some? && job.lock.None? ==> job.lane.value !in s.db.lanes)
    // Two locks of one job in the same millisecond are not part of this model.
    && (j in s.hist.lastLock ==> s.hist.lastLock[j] < s.clock)
  }

  function DoClaim(s: Sys, j: JobId, pool: PoolId): Sys
    requires Claimable(s, j)
  {
    var job := s.db.jobs[j];
    var lock := Lock(pool, s.clock);
    s.(db := s.db.(jobs := s.db.jobs[j := ClaimRow(job, lock)],
                   lanes := if job.lane.Some? then s.db.lanes[job.lane.value := pool] else s.db.lanes),
       runs := s.runs[Token(j, lock) := Run(None, false, false, job.envelope.steps.Keys, job.envelope.waited)],
       hist := s.hist.(spent := s.hist.spent[j := Spent(s.hist, j) + 1],
                       lastLock := s.hist.lastLock[j := s.clock],
                       excused := set key | key in s.hist.excused && key.parent != j))
  }

  /** Graphile's failure update matches the pool only, so it may hit any attempt of it. */
  function DoFail(b: Backoff, s: Sys, j: JobId): Sys
    requires j in s.db.jobs && s.db.jobs[j].lock.Some?
  {
    var job := s.db.jobs[j];
    s.(db := s.db.(jobs := s.db.jobs[j := FailRow(job, b, s.clock)],
                   lanes := FreeLane(s.db.lanes, job.lane, job.lock.value.owner)),
       hist := s.hist.(failedAt := s.hist.failedAt[j := s.clock]))
  }

  /** Graphile's completion deletes by id, with no look at the lock. */
  function DoRemove(s: Sys, j: JobId, pool: PoolId): Sys
    requires j in s.db.jobs
  {
    s.(db := ActOnRow(s.db, j, Delete, pool))
  }

  function DoRecover(b: Backoff, s: Sys, staleAfter: nat, sweeper: PoolId, busy: set<PoolId>): Sys {
    var dead := DeadPools(s.db, staleAfter, sweeper, busy, s.clock);
    s.(db := SweepDead(s.db, staleAfter, sweeper, busy, b, s.clock),
       hist := s.hist.(failedAt := map j | j in s.hist.failedAt.Keys + s.db.jobs.Keys &&
                         (j in s.hist.failedAt || LockedBy(s.db.jobs[j], dead)) ::
                         if j in s.db.jobs && LockedBy(s.db.jobs[j], dead) then s.clock else s.hist.failedAt[j]))
  }

  predicate LockedBy(job: Job, pools: set<PoolId>) { job.lock.Some? && job.lock.value.owner in pools }

  /** Waits are entered by a run that did not continue, and only for ids its step store does
      not hold (src/steps.ts:156-197); a handler may do so after its result was decided. */
  predicate MayEnter(s: Sys, token: Token, waitId: StepId) {
    && token in s.runs
    && var run := s.runs[token];
    && !(run.ended.Some? && run.ended.value.ContinuedTo?) && waitId !in run.cache
  }

  predicate KnownChildren(db: Db, prepared: Prepared) {
    prepared.Children? ==>
      && (forall i :: 0 <= i < |prepared.children| ==>
            match prepared.children[i]
            case New(spec) => Addable(db.jobs, spec)
            case Existing(id) => id < db.nextId
            case Missing => true)
      && DistinctKeys(prepared.children)
  }

  /** New children of one wait that ask for a key ask for different ones. */
  predicate DistinctKeys(children: seq<Child>) {
    forall i, k :: 0 <= i < k < |children| && children[i].New? && children[k].New? ==>
      children[i].spec.key.None? || children[i].spec.key != children[k].spec.key
  }

  function AddAll(s: Sys, children: seq<Child>): (Sys, seq<JobId>)
    requires forall i :: 0 <= i < |children| ==> !children[i].Missing?
    ensures var (t, ids) := AddAll(s, children);
            && |ids| == |children| && s.db.nextId <= t.db.nextId
            && t.clock == s.clock && t.runs == s.runs && t.hist.next == s.hist.next && t.hist.done == s.hist.done
            && t.hist.enqueued == s.hist.enqueued && t.db.outcomes == s.db.outcomes
            && forall j :: j in s.db.jobs ==> j in t.db.jobs
  {
    if children == [] then (s, []) else
    var (before, ids) := AddAll(s, children[..|children| - 1]);
    match children[|children| - 1]
    case New(spec) => (DoAdd(before, spec), ids + [before.db.nextId])
    case Existing(id) => (before, ids + [id])
  }

  function DoOpen(s: Sys, key: GroupKey, children: seq<Child>, timeout: Option<nat>): Sys
    requires forall i :: 0 <= i < |children| ==> !children[i].Missing?
  {
    var (added, ids) := AddAll(s, children);
    added.(db := Open(s.db, key, children, timeout, s.clock),
           hist := added.hist.(enqueued := added.hist.enqueued + multiset{key},
                               stale := added.hist.stale + set i | 0 <= i < |ids| && ids[i] in s.hist.next :: ids[i]))
  }

  function DoFinish(s: Sys, token: Token, key: GroupKey): Sys
    requires token in s.runs && key in s.db.groups && key.parent in s.db.jobs
  {
    s.(db := FinishWait(s.db, key),
       runs := s.runs[token := s.runs[token].(cache := s.runs[token].cache + {key.waitId})])
  }

  function DoSuspend(b: Backoff, s: Sys, token: Token, key: GroupKey): Sys
    requires token in s.runs && key in s.db.groups && token.job in s.db.jobs
  {
    var j := token.job;
    var run := s.runs[token];
    var again := run.ended.Some?;
    var suspended := s.(db := s.db.(jobs := s.db.jobs[j := SuspendRow(s.db.jobs[j], Deadline(s.db.groups[key]), again, b)]),
                        runs := s.runs[token := run.(ended := if again then run.ended else Some(Waiting(key.waitId)))]);
    if again then suspended else
    suspended.(hist := s.hist.(spent := s.hist.spent[j := Spent(s.hist, j) - 1],
                               excused := s.hist.excused + FinishedGroups(s.db.groups, j)))
  }

  function DoEnter(b: Backoff, s: Sys, token: Token, waitId: StepId, count: nat, prepared: Prepared,
                   timeout: Option<nat>): Sys
    requires MayEnter(s, token, waitId)
  {
    var key := GroupKey(token.job, waitId);
    if !Owns(s.db, token) || (key !in s.db.groups && !Enqueues(prepared, count)) then s else
    var entered := if key in s.db.groups then s else DoOpen(s, key, prepared.children, timeout);
    var group := entered.db.groups[key];
    if group.remaining == 0 || (key in s.db.groups && Expired(group, s.clock))
    then DoFinish(entered, token, key)
    else DoSuspend(b, entered, token, key)
  }

  /** A run that committed an ending does not continue. */
  predicate MayContinue(s: Sys, token: Token) { token in s.runs && s.runs[token].ended.None? }

  /** The executor found no ending (src/worker.ts:473-495); an ending may still commit later,
      see Endings.EscapesIff. */
  function DoDecide(s: Sys, token: Token): Sys
    requires token in s.runs
  {
    s.(runs := s.runs[token := s.runs[token].(decided := true)])
  }

  /** Only a run decided without an ending settles or schedules a retry, once. */
  predicate MaySettle(s: Sys, token: Token) {
    token in s.runs && s.runs[token].decided && !s.runs[token].settled
  }

  function DoContinue(s: Sys, token: Token, runAt: Option<Time>, traceparent: Option<string>, latest: Option<Json>,
                      record: bool): Sys
    requires MayContinue(s, token)
  {
    if !Owns(s.db, token) then s else
    var j, next := token.job, s.db.nextId;
    var job := s.db.jobs[j];
    s.(db := Continue(s.db, token, runAt, traceparent, latest, record, s.clock),
       runs := s.runs[token := s.runs[token].(ended := Some(ContinuedTo(next)))],
       hist := s.hist.(next := s.hist.next[j := next],
                       born := s.hist.born[next := Birth(job.envelope.input, job.maxAttempts)],
                       spent := s.hist.spent[next := 0],
                       done := s.hist.done[j := s.clock]))
  }

  /** What executeTask asks settleLockedJob for (src/worker.ts:432-446). */
  function SettlementOf(report: Report, row: RowAction, record: bool, waited: bool): Settlement {
    var state := match report case Done(_) => Completed case Errored(_, message) => OutcomeState.Failed(message);
    Settlement(if record then Some(state) else None, if waited then Some(report) else None, row)
  }

  function DoSettle(s: Sys, token: Token, report: Report, row: RowAction, record: bool): Sys
    requires MaySettle(s, token)
  {
    var run := s.runs[token];
    var ended := s.(runs := s.runs[token := run.(settled := true)]);
    var completed :=
      if report.Done? && row.Delete? && Owns(s.db, token) then s.hist.done[token.job := s.clock] else s.hist.done;
    if !record && !run.waited && row != Exhaust then ended.(hist := s.hist.(done := completed)) else
    ended.(db := Settle(s.db, token, SettlementOf(report, row, record, run.waited), s.clock),
           hist := s.hist.(done := completed))
  }

  function DoRetry(b: Backoff, s: Sys, token: Token, at: Time): Sys
    requires MaySettle(s, token)
  {
    if !Owns(s.db, token) then s else
    s.(db := ScheduleRetry(s.db, token, at, b),
       runs := s.runs[token := s.runs[token].(settled := true)],
       hist := s.hist.(excused := s.hist.excused + FinishedGroups(s.db.groups, token.job)))
  }

  function DoStep(s: Sys, token: Token, step: StepId, output: Option<Json>): Sys
    requires token in s.runs
  {
    if !Owns(s.db, token) then s else
    s.(db := WriteCheckpoint(s.db, token, step, output),
       runs := s.runs[token := s.runs[token].(cache := s.runs[token].cache + {step})])
  }

  function Apply(b: Backoff, s: Sys, e: Event): Sys {
    match e
    case Tick(ms) => s.(clock := s.clock + ms)
    case Add(spec) => if Addable(s.db.jobs, spec) then DoAdd(s, spec) else s
    case Claim(j, pool) => if Claimable(s, j) then DoClaim(s, j, pool) else s
    case Fail(j) => if j in s.db.jobs && s.db.jobs[j].lock.Some? then DoFail(b, s, j) else s
    case Remove(j, pool) => if j in s.db.jobs then DoRemove(s, j, pool) else s
    case Heartbeat(pool) => s.(db := Beat(s.db, pool, s.clock))
    case Recover(staleAfter, sweeper, busy) => DoRecover(b, s, staleAfter, sweeper, busy)
    case Enter(token, waitId, count, prepared, timeout) =>
      if MayEnter(s, token, waitId) && 0 < count && KnownChildren(s.db, prepared)
      then DoEnter(b, s, token, waitId, count, prepared, timeout) else s
    case Continuation(token, runAt, traceparent, latest, record) =>
      if MayContinue(s, token) then DoContinue(s, token, runAt, traceparent, latest, record) else s
    case Decide(token) => if MayContinue(s, token) then DoDecide(s, token) else s
    case Settled(token, report, row, record) =>
      if MaySettle(s, token) then DoSettle(s, token, report, row, record) else s
    case Retry(token, at) => if MaySettle(s, token) then DoRetry(b, s, token, at) else s
    case Step(token, step, output) => if token in s.runs then DoStep(s, token, step, output) else s
    case Progress(token, value) =>
      if token in s.runs then s.(db := WriteProgress(s.db, token, value)) else s
    case SweepLost(skipped) => s.(db := ReportLost(s.db, skipped, s.clock))
    case SweepFinished => s.(db := WakeFinished(s.db, s.clock))
    case SweepOrphans => s.(db := DropOrphans(s.db))
    case Prune(retention, kept) => s.(db := PruneOutcomes(s.db, retention, kept, s.clock))
  }

  /** The run of this entry has an ending afterwards and had none before. */
  predicate FirstSuspension(b: Backoff, s: Sys, e: Event)
    requires e.Enter?
  {
    && e.token in s.runs && s.runs[e.token].ended.None?
    && var t := Apply(b, s, e); e.token in t.runs && t.runs[e.token].ended.Some?
  }

  function After(b: Backoff, s: Sys, events: seq<Event>): Sys {
    if events == [] then s else Apply(b, After(b, s, events[..|events| - 1]), events[|events| - 1])
  }
}
