/** The tables of the durable-job protocol and the meaning of each transaction in
    src/private-jobs.ts, as functions from one table state to the next.

    A group row owns its wait rows: they are inserted with it, keyed by their position,
    and deleted with it by the foreign key's cascade. They are therefore one sequence
    inside the group, indexed by `idx`. Times are in milliseconds. */
module Tables {
  import opened Wrappers

  type JobId = nat
  type PoolId = string
  type Lane = string
  type StepId = string
  type Time = int
  type Json = string

  /** The delay Graphile's failure update adds, for a number of attempts. */
  type Backoff = int -> nat

  /** A lock as the row stores it; the time tells two attempts of one pool apart. */
  datatype Lock = Lock(owner: PoolId, at: Time)

  /** One attempt: the job and the lock it was claimed with. */
  datatype Token = Token(job: JobId, lock: Lock)

  datatype Report = Done(output: Option<Json>) | Errored(name: string, message: string)

  /** A child's id and its report, absent when its row holds none. */
  datatype ChildResult = ChildResult(id: JobId, report: Option<Report>)

  /** A checkpoint under a step id: a step's output, or what a wait ended with. */
  datatype Checkpoint =
    | Output(value: Option<Json>)
    | Results(results: seq<ChildResult>)
    | TimedOut(unfinished: seq<JobId>)

  datatype Envelope = Envelope(
    input: Option<Json>,
    steps: map<StepId, Checkpoint>,
    progress: Option<Json>,
    waited: bool,
    cron: Option<Json>,
    traceparent: Option<string>)

  datatype Job = Job(
    task: string,
    lane: Option<Lane>,
    key: Option<string>,
    priority: int,
    flags: set<string>,
    runAt: Time,
    attempts: int,
    maxAttempts: int,
    lock: Option<Lock>,
    envelope: Envelope,
    lastError: Option<string>,
    createdAt: Time)

  datatype GroupKey = GroupKey(parent: JobId, waitId: StepId)

  datatype Wait = Wait(child: JobId, result: Option<Report>, finishedAt: Time)

  datatype Group = Group(remaining: int, deadline: Option<Time>, waits: seq<Wait>)

  datatype OutcomeState = Completed | Failed(error: string) | Continued(to: JobId)

  datatype Outcome = Outcome(
    state: OutcomeState,
    task: string,
    attempts: int,
    maxAttempts: int,
    createdAt: Time,
    finishedAt: Time)

  datatype Db = Db(
    nextId: JobId,
    jobs: map<JobId, Job>,
    groups: map<GroupKey, Group>,
    outcomes: map<JobId, Outcome>,
    lanes: map<Lane, PoolId>,
    heartbeats: map<PoolId, Time>)

  function Min(a: Time, b: Time): Time { if a < b then a else b }

  function Max(a: Time, b: Time): Time { if a < b then b else a }

  /** The row still carries this attempt's lock. */
  predicate Owns(db: Db, token: Token) {
    token.job in db.jobs && db.jobs[token.job].lock == Some(token.lock)
  }

  predicate Exhausted(job: Job) { job.maxAttempts <= job.attempts }

  function FreeLane(lanes: map<Lane, PoolId>, lane: Option<Lane>, pool: PoolId): map<Lane, PoolId> {
    if lane.Some? && lane.value in lanes && lanes[lane.value] == pool then lanes - {lane.value} else lanes
  }

  // Graphile's own row updates ------------------------------------------------------

  function ClaimRow(job: Job, lock: Lock): Job { job.(attempts := job.attempts + 1, lock := Some(lock)) }

  function FailRow(job: Job, backoff: Backoff, now: Time): Job {
    job.(lock := None, runAt := Max(now, job.runAt) + backoff(job.attempts))
  }

  /** What an enqueue asks for. */
  datatype JobSpec = JobSpec(
    task: string,
    lane: Option<Lane>,
    key: Option<string>,
    priority: int,
    flags: set<string>,
    runAt: Option<Time>,
    maxAttempts: int,
    envelope: Envelope)

  function NewRow(spec: JobSpec, now: Time): Job {
    Job(spec.task, spec.lane, spec.key, spec.priority, spec.flags, spec.runAt.GetOr(now),
        0, spec.maxAttempts, None, spec.envelope, None, now)
  }

  /** A key held by an unlocked job makes `add_job` replace that job in place. */
  predicate Replaces(jobs: map<JobId, Job>, spec: JobSpec) {
    spec.key.Some? && exists j :: j in jobs && jobs[j].key == spec.key && jobs[j].lock.None?
  }

  /** A locked job loses its key to a newer one and may not be retried. */
  function YieldKey(jobs: map<JobId, Job>, key: Option<string>): map<JobId, Job> {
    map j | j in jobs ::
      if key.Some? && jobs[j].key == key then jobs[j].(key := None, attempts := jobs[j].maxAttempts) else jobs[j]
  }

  function AddJob(db: Db, spec: JobSpec, now: Time): Db {
    db.(nextId := db.nextId + 1, jobs := YieldKey(db.jobs, spec.key)[db.nextId := NewRow(spec, now)])
  }

  // Reports -------------------------------------------------------------------------

  /** The wait rows a statement skips because another transaction holds them. */
  datatype WaitKey = WaitKey(group: GroupKey, idx: nat)

  /** Final states per child, as one statement writes them. */
  datatype Verdict = Verdict(reports: map<JobId, Report>, skipped: set<WaitKey>)

  predicate Hit(key: GroupKey, idx: nat, wait: Wait, verdict: Verdict) {
    wait.result.None? && wait.child in verdict.reports && WaitKey(key, idx) !in verdict.skipped
  }

  /** The unresolved rows among the first `n`. */
  function PendingIn(waits: seq<Wait>, n: nat): (count: nat)
    requires n <= |waits|
    ensures count <= n
  {
    if n == 0 then 0 else PendingIn(waits, n - 1) + if waits[n - 1].result.None? then 1 else 0
  }

  function Pending(waits: seq<Wait>): nat { PendingIn(waits, |waits|) }

  function HitsIn(key: GroupKey, waits: seq<Wait>, verdict: Verdict, n: nat): (count: nat)
    requires n <= |waits|
  {
    if n == 0 then 0 else HitsIn(key, waits, verdict, n - 1) + if Hit(key, n - 1, waits[n - 1], verdict) then 1 else 0
  }

  /** How many rows of the group one statement resolves. */
  function Hits(key: GroupKey, group: Group, verdict: Verdict): nat {
    HitsIn(key, group.waits, verdict, |group.waits|)
  }

  function Resolve(key: GroupKey, waits: seq<Wait>, verdict: Verdict, now: Time): (r: seq<Wait>) {
    seq(|waits|, i requires 0 <= i < |waits| =>
      if Hit(key, i, waits[i], verdict)
      then Wait(waits[i].child, Some(verdict.reports[waits[i].child]), now)
      else waits[i])
  }

  function Count(key: GroupKey, group: Group, verdict: Verdict, now: Time): Group {
    Group(group.remaining - Hits(key, group, verdict), group.deadline, Resolve(key, group.waits, verdict, now))
  }

  /** The statement resolved rows of this group and left none unresolved. */
  predicate Finishes(key: GroupKey, group: Group, verdict: Verdict) {
    Hits(key, group, verdict) > 0 && group.remaining == Hits(key, group, verdict)
  }

  predicate Wakes(groups: map<GroupKey, Group>, verdict: Verdict, parent: JobId) {
    exists key :: key in groups && key.parent == parent && Finishes(key, groups[key], verdict)
  }

  /** Resolve wait rows, count them against their groups and wake the finished parents. */
  function ReportAll(db: Db, verdict: Verdict, now: Time): Db {
    db.(groups := map key | key in db.groups :: Count(key, db.groups[key], verdict, now),
        jobs := map j | j in db.jobs ::
          if Wakes(db.groups, verdict, j) then db.jobs[j].(runAt := Min(db.jobs[j].runAt, now)) else db.jobs[j])
  }

  // settleJob -----------------------------------------------------------------------

  datatype RowAction = Delete | Exhaust | Keep

  datatype Settlement = Settlement(outcome: Option<OutcomeState>, report: Option<Report>, row: RowAction)

  function OutcomeOf(job: Job, state: OutcomeState, now: Time): Outcome {
    Outcome(state, job.task, job.attempts, job.maxAttempts, job.createdAt, now)
  }

  function Record(db: Db, id: JobId, outcome: Option<OutcomeState>, now: Time): Db
    requires id in db.jobs
  {
    if outcome.None? then db else
    db.(outcomes := db.outcomes[id := OutcomeOf(db.jobs[id], outcome.value, now)])
  }

  function ReportOne(db: Db, id: JobId, report: Option<Report>, now: Time): Db {
    if report.None? then db else ReportAll(db, Verdict(map[id := report.value], {}), now)
  }

  function ActOnRow(db: Db, id: JobId, action: RowAction, pool: PoolId): Db
    requires id in db.jobs
  {
    match action
    case Keep => db
    case Exhaust => db.(jobs := db.jobs[id := db.jobs[id].(maxAttempts := db.jobs[id].attempts)])
    case Delete => db.(jobs := db.jobs - {id}, lanes := FreeLane(db.lanes, db.jobs[id].lane, pool))
  }

  function Settle(db: Db, token: Token, settlement: Settlement, now: Time): Db {
    if !Owns(db, token) then db else
    var recorded := Record(db, token.job, settlement.outcome, now);
    var reported := ReportOne(recorded, token.job, settlement.report, now);
    ActOnRow(reported, token.job, settlement.row, token.lock.owner)
  }

  // continueJob ---------------------------------------------------------------------

  function ContinuedEnvelope(envelope: Envelope, traceparent: Option<string>, progress: Option<Json>): Envelope {
    envelope.(cron := None, traceparent := traceparent,
              progress := if progress.Some? then progress else envelope.progress)
  }

  function ContinuationSpec(job: Job, runAt: Option<Time>, traceparent: Option<string>,
                            progress: Option<Json>): JobSpec {
    JobSpec(job.task, job.lane, job.key, job.priority, job.flags, runAt, job.maxAttempts,
            ContinuedEnvelope(job.envelope, traceparent, progress))
  }

  /** Unresolved waits on `from` follow it to `to`. */
  function Follow(groups: map<GroupKey, Group>, from: JobId, to: JobId): map<GroupKey, Group> {
    map key | key in groups :: groups[key].(waits := FollowRows(groups[key].waits, from, to))
  }

  function FollowRows(waits: seq<Wait>, from: JobId, to: JobId): (r: seq<Wait>) {
    seq(|waits|, i requires 0 <= i < |waits| =>
      if waits[i].child == from && waits[i].result.None? then waits[i].(child := to) else waits[i])
  }

  /** Enqueue the successor and spend the current row's attempts. */
  function Succeed(db: Db, id: JobId, runAt: Option<Time>, traceparent: Option<string>,
                   progress: Option<Json>, now: Time): Db
    requires id in db.jobs
  {
    var job := db.jobs[id];
    var added := AddJob(db, ContinuationSpec(job, runAt, traceparent, progress), now);
    var spent := added.(jobs := added.jobs[id := added.jobs[id].(maxAttempts := added.jobs[id].attempts)]);
    if job.envelope.waited then spent.(groups := Follow(spent.groups, id, db.nextId)) else spent
  }

  function Continue(db: Db, token: Token, runAt: Option<Time>, traceparent: Option<string>,
                    progress: Option<Json>, record: bool, now: Time): Db {
    if !Owns(db, token) then db else
    var succeeded := Succeed(db, token.job, runAt, traceparent, progress, now);
    if record then Settle(succeeded, token, Settlement(Some(Continued(db.nextId)), None, Delete), now) else succeeded
  }

  // enterWait -----------------------------------------------------------------------

  /** What the prepared enqueue yields per child: a new row, the job an idempotency key
      recorded earlier, or no row (a key claimed concurrently). */
  datatype Child = New(spec: JobSpec) | Existing(id: JobId) | Missing

  datatype Prepared = Skipped | Children(children: seq<Child>)

  function AddChildren(db: Db, children: seq<Child>, now: Time): (Db, seq<JobId>)
    requires forall i :: 0 <= i < |children| ==> !children[i].Missing?
    ensures forall j :: j in db.jobs ==> j in AddChildren(db, children, now).0.jobs
    ensures var (after, ids) := AddChildren(db, children, now);
            && after.(jobs := db.jobs, nextId := db.nextId) == db
            && db.nextId <= after.nextId && |ids| == |children|
  {
    if children == [] then (db, []) else
    var (before, ids) := AddChildren(db, children[..|children| - 1], now);
    match children[|children| - 1]
    case New(spec) => (AddJob(before, spec, now), ids + [before.nextId])
    case Existing(id) => (before, ids + [id])
  }

  function MarkWaited(jobs: map<JobId, Job>, ids: seq<JobId>): map<JobId, Job> {
    map j | j in jobs ::
      if j in ids then jobs[j].(envelope := jobs[j].envelope.(waited := true)) else jobs[j]
  }

  function FreshWaits(ids: seq<JobId>): seq<Wait> {
    seq(|ids|, i requires 0 <= i < |ids| => Wait(ids[i], None, 0))
  }

  /** The first entry: children, their group and one wait row each. */
  function Open(db: Db, key: GroupKey, children: seq<Child>, timeout: Option<nat>, now: Time): Db
    requires forall i :: 0 <= i < |children| ==> !children[i].Missing?
  {
    var (added, ids) := AddChildren(db, children, now);
    var deadline := if timeout.Some? then Some(now + timeout.value) else None;
    added.(jobs := MarkWaited(added.jobs, ids),
           groups := added.groups[key := Group(|children|, deadline, FreshWaits(ids))])
  }

  predicate Enqueues(prepared: Prepared, count: nat) {
    prepared.Children? && |prepared.children| == count
    && forall i :: 0 <= i < count ==> !prepared.children[i].Missing?
  }

  /** Every row's result, in input order. */
  function Collect(waits: seq<Wait>): (r: seq<ChildResult>) {
    seq(|waits|, i requires 0 <= i < |waits| => ChildResult(waits[i].child, waits[i].result))
  }

  function Unfinished(waits: seq<Wait>): seq<JobId> {
    if waits == [] then [] else
    Unfinished(waits[..|waits| - 1]) + if waits[|waits| - 1].result.None? then [waits[|waits| - 1].child] else []
  }

  predicate Expired(group: Group, now: Time) { group.deadline.Some? && group.deadline.value <= now }

  function CheckpointOf(group: Group): Checkpoint {
    if group.remaining == 0 then Results(Collect(group.waits)) else TimedOut(Unfinished(group.waits))
  }

  function WriteStep(db: Db, id: JobId, step: StepId, checkpoint: Checkpoint): Db
    requires id in db.jobs
  {
    var job := db.jobs[id];
    db.(jobs := db.jobs[id := job.(envelope := job.envelope.(steps := job.envelope.steps[step := checkpoint]))])
  }

  function FinishWait(db: Db, key: GroupKey): Db
    requires key in db.groups && key.parent in db.jobs
  {
    var written := WriteStep(db, key.parent, key.waitId, CheckpointOf(db.groups[key]));
    written.(groups := written.groups - {key})
  }

  /** 9999-01-01T00:00:00Z. */
  const NO_DEADLINE: Time := 253_370_764_800_000

  function Deadline(group: Group): Time { group.deadline.GetOr(NO_DEADLINE) }

  /** Give the attempt back once per run and aim at the deadline. */
  function SuspendRow(job: Job, deadline: Time, again: bool, backoff: Backoff): Job {
    var attempts := if again then job.attempts else job.attempts - 1;
    var target := deadline - backoff(attempts);
    job.(attempts := attempts, runAt := if again then Min(job.runAt, target) else target)
  }

  datatype Entered = Finished(checkpoint: Checkpoint) | Suspended | Rejected

  function EnterWait(db: Db, token: Token, waitId: StepId, count: nat, prepared: Prepared, timeout: Option<nat>,
                     again: bool, backoff: Backoff, now: Time): (Db, Entered) {
    var key := GroupKey(token.job, waitId);
    if !Owns(db, token) || (key !in db.groups && !Enqueues(prepared, count)) then (db, Rejected) else
    var entered := if key in db.groups then db else Open(db, key, prepared.children, timeout, now);
    var group := entered.groups[key];
    if group.remaining == 0 || (key in db.groups && Expired(group, now)) then
      (FinishWait(entered, key), Finished(CheckpointOf(group)))
    else
      (entered.(jobs := entered.jobs[token.job := SuspendRow(entered.jobs[token.job], Deadline(group), again, backoff)]),
       Suspended)
  }

  // Other writes of the attempt ------------------------------------------------------

  function WriteCheckpoint(db: Db, token: Token, step: StepId, value: Option<Json>): Db {
    if Owns(db, token) then WriteStep(db, token.job, step, Output(value)) else db
  }

  function WriteProgress(db: Db, token: Token, value: Json): Db {
    if !Owns(db, token) then db else
    var job := db.jobs[token.job];
    db.(jobs := db.jobs[token.job := job.(envelope := job.envelope.(progress := Some(value)))])
  }

  function ScheduleRetry(db: Db, token: Token, at: Time, backoff: Backoff): Db {
    if !Owns(db, token) then db else
    var job := db.jobs[token.job];
    db.(jobs := db.jobs[token.job := job.(runAt := at - backoff(job.attempts))])
  }

  // Maintenance ---------------------------------------------------------------------

  function ReleasedError(pool: PoolId): string {
    "Worker " + pool + " stopped sending heartbeats (crashed or blocked); released by crash recovery"
  }

  function ReleaseRow(job: Job, backoff: Backoff, now: Time): Job
    requires job.lock.Some?
  {
    FailRow(job, backoff, now).(lastError := Some(ReleasedError(job.lock.value.owner)))
  }

  function ReleaseLockedBy(db: Db, pools: set<PoolId>, backoff: Backoff, now: Time): Db {
    db.(jobs := map j | j in db.jobs ::
          if db.jobs[j].lock.Some? && db.jobs[j].lock.value.owner in pools
          then ReleaseRow(db.jobs[j], backoff, now) else db.jobs[j],
        lanes := map lane | lane in db.lanes && db.lanes[lane] !in pools :: db.lanes[lane])
  }

  /** The pools one sweep takes for dead; SKIP LOCKED leaves some to another sweeper. */
  function DeadPools(db: Db, staleAfter: nat, sweeper: PoolId, skipped: set<PoolId>, now: Time): set<PoolId> {
    set pool | pool in db.heartbeats && db.heartbeats[pool] < now - staleAfter && pool != sweeper && pool !in skipped
  }

  function SweepDead(db: Db, staleAfter: nat, sweeper: PoolId, skipped: set<PoolId>, backoff: Backoff, now: Time): Db {
    var dead := DeadPools(db, staleAfter, sweeper, skipped, now);
    ReleaseLockedBy(db.(heartbeats := db.heartbeats - dead), dead, backoff, now)
  }

  function Beat(db: Db, pool: PoolId, now: Time): Db { db.(heartbeats := db.heartbeats[pool := now]) }

  /** A child that ended without reporting: gone, or unlocked with its attempts spent. */
  predicate Lost(jobs: map<JobId, Job>, child: JobId) {
    child !in jobs || (jobs[child].lock.None? && Exhausted(jobs[child]))
  }

  function LostReport(jobs: map<JobId, Job>, child: JobId): Report {
    Errored("ChildJobLostError",
            if child !in jobs
            then "The child job finished without reporting a result (deleted, or run by a worker without wait support)"
            else jobs[child].lastError.GetOr("The child job failed permanently"))
  }

  function WaitedOn(groups: map<GroupKey, Group>): set<JobId> {
    set key, i | key in groups && 0 <= i < |groups[key].waits| :: groups[key].waits[i].child
  }

  function LostVerdict(db: Db, skipped: set<WaitKey>): Verdict {
    Verdict(map c | c in WaitedOn(db.groups) && Lost(db.jobs, c) :: LostReport(db.jobs, c), skipped)
  }

  predicate HasFinishedGroup(groups: map<GroupKey, Group>, parent: JobId) {
    exists key :: key in groups && key.parent == parent && groups[key].remaining == 0
  }

  function FinishedGroups(groups: map<GroupKey, Group>, parent: JobId): set<GroupKey> {
    set key | key in groups && key.parent == parent && groups[key].remaining == 0
  }

  /** Wake parents whose wakeup was swallowed. */
  function WakeFinished(db: Db, now: Time): Db {
    db.(jobs := map j | j in db.jobs ::
      if HasFinishedGroup(db.groups, j) && db.jobs[j].lock.None? && now < db.jobs[j].runAt && !Exhausted(db.jobs[j])
      then db.jobs[j].(runAt := now) else db.jobs[j])
  }

  function DropOrphans(db: Db): Db {
    db.(groups := map key | key in db.groups && key.parent in db.jobs :: db.groups[key])
  }

  /** `sweepWaits` runs three statements outside any transaction: this one, WakeFinished and
      DropOrphans. Other transactions may commit between them. */
  function ReportLost(db: Db, skipped: set<WaitKey>, now: Time): Db { ReportAll(db, LostVerdict(db, skipped), now) }

  function PruneOutcomes(db: Db, retention: nat, skipped: set<JobId>, now: Time): Db {
    db.(outcomes := map id | id in db.outcomes && (now - retention <= db.outcomes[id].finishedAt || id in skipped)
                    :: db.outcomes[id])
  }
}
