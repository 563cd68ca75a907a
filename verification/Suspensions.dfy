/** What suspensions and scheduled retries leave of a job, over whole runs: the attempts it
    resumes with and the time it is due. */
module Suspensions {
  import opened Wrappers
  import opened Tables
  import opened Protocol
  import opened Invariants
  import opened Rows
  import opened Chains
  import opened Wakeups

  /** What an observer of one job notes since its latest claim: the attempts it had before that
      claim, whether an add took its key while it had attempts left, the time its row aims at
      and the retry that was asked for. */
  datatype Watch = Watch(base: int, taken: bool, aim: Option<Time>, asked: Option<Time>)

  /** The row lost its key, and with it attempts it still had. */
  predicate LosesKey(s: Sys, t: Sys, j: JobId) {
    && j in s.db.jobs && j in t.db.jobs
    && s.db.jobs[j].key.Some? && t.db.jobs[j].key.None? && !Exhausted(s.db.jobs[j])
  }

  /** A run of the job enters a wait and suspends. */
  predicate Suspends(b: Backoff, s: Sys, e: Event, j: JobId) {
    && e.Enter? && e.token.job == j && MayEnter(s, e.token, e.waitId) && 0 < e.count && KnownChildren(s.db, e.prepared)
    && EnterWait(s.db, e.token, e.waitId, e.count, e.prepared, e.timeout, s.runs[e.token].ended.Some?, b, s.clock).1.Suspended?
  }

  predicate Retries(s: Sys, e: Event, j: JobId) {
    e.Retry? && e.token.job == j && MaySettle(s, e.token) && Owns(s.db, e.token)
  }

  /** The event reports the last children of one of the job's groups. */
  predicate Wakens(s: Sys, e: Event, j: JobId) {
    match e
    case Settled(token, report, _, _) =>
      MaySettle(s, token) && Owns(s.db, token) && s.runs[token].waited
      && Wakes(s.db.groups, Verdict(map[token.job := report], {}), j)
    case SweepLost(skipped) => Wakes(s.db.groups, LostVerdict(s.db, skipped), j)
    case _ => false
  }

  function Earlier(aim: Option<Time>, at: Time): Time { if aim.Some? then Min(aim.value, at) else at }

  /** A run's first suspension aims at the deadline of its wait, each further one at the earlier of
      the deadlines, a retry at the time it asks for; a report makes it one backoff from then. */
  function Aim(b: Backoff, s: Sys, e: Event, t: Sys, aim: Option<Time>, j: JobId): Option<Time> {
    if Suspends(b, s, e, j) then
      var key := GroupKey(j, e.waitId);
      var deadline := if key in t.db.groups then Deadline(t.db.groups[key]) else NO_DEADLINE;
      Some(if s.runs[e.token].ended.None? then deadline else Earlier(aim, deadline))
    else if Retries(s, e, j) then Some(e.at)
    else if aim.Some? && j in s.db.jobs && Wakens(s, e, j) then Some(Min(aim.value, s.clock + b(s.db.jobs[j].attempts)))
    else aim
  }

  /** The sweep's second statement finds the job asleep beside a finished group. */
  predicate SweepWakes(s: Sys, j: JobId) {
    && j in s.db.jobs && s.db.jobs[j].lock.None? && !Exhausted(s.db.jobs[j]) && s.clock < s.db.jobs[j].runAt
    && HasFinishedGroup(s.db.groups, j)
  }

  /** A later suspension, a report or a sweep may bring the job back before its retry. */
  function Asked(b: Backoff, s: Sys, e: Event, asked: Option<Time>, j: JobId): Option<Time> {
    if Retries(s, e, j) then Some(e.at)
    else if Suspends(b, s, e, j) || Wakens(s, e, j) || (e.SweepFinished? && SweepWakes(s, j)) then None
    else asked
  }

  /** The event `e` leads from `s` to `t`. */
  function Observe(b: Backoff, s: Sys, e: Event, t: Sys, w: Watch, j: JobId): Watch {
    if e.Claim? && e.job == j && Claimable(s, j) then Watch(s.db.jobs[j].attempts, false, None, None) else
    Watch(w.base, w.taken || LosesKey(s, t, j), Aim(b, s, e, t, w.aim, j), Asked(b, s, e, w.asked, j))
  }

  function Watching(b: Backoff, events: seq<Event>, j: JobId): Watch {
    if events == [] then Watch(0, false, None, None) else
    var n := |events| - 1;
    var s := After(b, START, events[..n]);
    Observe(b, s, events[n], Apply(b, s, events[n]), Watching(b, events[..n], j), j)
  }

  // Invariant -------------------------------------------------------------------------------

  /** The ending of the run that holds the row. */
  function Held(s: Sys, j: JobId): Option<Ending> {
    if j in s.db.jobs && s.db.jobs[j].lock.Some? && Token(j, s.db.jobs[j].lock.value) in s.runs
    then s.runs[Token(j, s.db.jobs[j].lock.value)].ended else None
  }

  predicate AttemptsNoted(job: Job, ended: Option<Ending>, w: Watch) {
    job.lock.Some? ==>
      match ended
      case None => w.base + 1 <= job.attempts && (job.attempts == w.base + 1 <==> !w.taken)
      case Some(Waiting(_)) => w.base <= job.attempts && (job.attempts == w.base <==> !w.taken)
      case Some(ContinuedTo(_)) => true
  }

  predicate TimesNoted(b: Backoff, job: Job, ended: Option<Ending>, w: Watch) {
    && (job.lock.Some? && ended.Some? && ended.value.Waiting? ==> w.aim.Some?)
    && (job.lock.Some? && w.aim.Some? && !Exhausted(job) ==> job.runAt == w.aim.value - b(job.attempts))
    && (w.asked.Some? ==> w.asked.value <= job.runAt + if job.lock.Some? then b(job.attempts) else 0)
  }

  predicate Noted(b: Backoff, s: Sys, w: Watch, j: JobId) {
    && (s.db.nextId <= j ==> w.asked.None? && w.aim.None?)
    && (j in s.db.jobs ==>
          AttemptsNoted(s.db.jobs[j], Held(s, j), w) && TimesNoted(b, s.db.jobs[j], Held(s, j), w))
  }

  // Rows that other events touch --------------------------------------------------------------

  /** The row as it was, or robbed of its key and with it of its attempts. */
  predicate Yielded(before: Job, after: Job) {
    && after.lock == before.lock && after.runAt == before.runAt && after.maxAttempts == before.maxAttempts
    && if after.key == before.key then after.attempts == before.attempts
       else before.key.Some? && after.key.None? && after.attempts == before.maxAttempts
  }

  lemma YieldingKeepsNotes(b: Backoff, s: Sys, t: Sys, w: Watch, j: JobId)
    requires Monotone(b) && Noted(b, s, w, j) && s.db.nextId <= t.db.nextId
    requires j in s.db.jobs && j in t.db.jobs && Yielded(s.db.jobs[j], t.db.jobs[j]) && Held(t, j) == Held(s, j)
    requires s.db.jobs[j].attempts <= s.db.jobs[j].maxAttempts && j < s.db.nextId
    ensures Noted(b, t, w.(taken := w.taken || LosesKey(s, t, j)), j)
  {
  }

  lemma {:induction false} AddChildrenYields(db: Db, children: seq<Child>, now: Time, j: JobId)
    requires j in db.jobs && j < db.nextId && forall i :: 0 <= i < |children| ==> !children[i].Missing?
    ensures var after := AddChildren(db, children, now).0;
            j in after.jobs && Yielded(db.jobs[j], after.jobs[j])
  {
    if children != [] { AddChildrenYields(db, children[..|children| - 1], now, j); }
  }

  lemma NewRowsAreNoted(b: Backoff, s: Sys, t: Sys, w: Watch, j: JobId)
    requires Noted(b, s, w, j) && s.db.nextId <= j && (j in t.db.jobs ==> t.db.jobs[j].lock.None?)
    ensures Noted(b, t, w, j)
  {
  }

  /** The row as it was, but perhaps brought forward to `now` and exhausted. */
  predicate Nudged(before: Job, after: Job, woken: bool, now: Time) {
    && after.lock == before.lock && after.key == before.key && after.attempts == before.attempts
    && (after.maxAttempts == before.maxAttempts || after.maxAttempts == before.attempts)
    && after.runAt == if woken then Min(before.runAt, now) else before.runAt
  }

  lemma NudgingKeepsNotes(b: Backoff, s: Sys, t: Sys, w: Watch, v: Watch, woken: bool, j: JobId)
    requires Noted(b, s, w, j) && s.db.nextId <= t.db.nextId && j in s.db.jobs && j < s.db.nextId
    requires j in t.db.jobs && Nudged(s.db.jobs[j], t.db.jobs[j], woken, s.clock) && Held(t, j) == Held(s, j)
    requires v.base == w.base && v.taken == w.taken
    requires v.aim == if woken && w.aim.Some? then Some(Min(w.aim.value, s.clock + b(s.db.jobs[j].attempts))) else w.aim
    requires v.asked == (if woken then None else w.asked) || v.asked.None?
    ensures Noted(b, t, v, j)
  {
  }

  lemma UnlockingKeepsNotes(b: Backoff, s: Sys, t: Sys, w: Watch, j: JobId)
    requires Noted(b, s, w, j) && j in s.db.jobs && j in t.db.jobs && j < s.db.nextId <= t.db.nextId
    requires s.db.jobs[j].lock.Some? && t.db.jobs[j].lock.None?
    requires t.db.jobs[j].runAt == Max(s.clock, s.db.jobs[j].runAt) + b(s.db.jobs[j].attempts)
    ensures Noted(b, t, w, j)
  {
  }

  lemma ClaimingKeepsNotes(b: Backoff, t: Sys, w: Watch, j: JobId)
    requires j in t.db.jobs && j < t.db.nextId && t.db.jobs[j].lock.Some? && Held(t, j).None?
    requires t.db.jobs[j].attempts == w.base + 1 && !w.taken && w.aim.None? && w.asked.None?
    ensures Noted(b, t, w, j)
  {
  }

  lemma RetryingKeepsNotes(b: Backoff, s: Sys, t: Sys, w: Watch, v: Watch, at: Time, j: JobId)
    requires Noted(b, s, w, j) && j in s.db.jobs && j in t.db.jobs && j < s.db.nextId <= t.db.nextId
    requires s.db.jobs[j].lock.Some? && t.db.jobs[j].lock == s.db.jobs[j].lock && Held(t, j) == Held(s, j)
    requires t.db.jobs[j].attempts == s.db.jobs[j].attempts && t.db.jobs[j].runAt == at - b(s.db.jobs[j].attempts)
    requires v == Watch(w.base, w.taken, Some(at), Some(at))
    ensures Noted(b, t, v, j)
  {
  }

  /** The fields of one row that the notes speak of, and whose run holds it, did not change. */
  predicate Alike(s: Sys, t: Sys, j: JobId) {
    && s.db.nextId <= t.db.nextId && Held(t, j) == Held(s, j)
    && (j in t.db.jobs ==>
          && j in s.db.jobs && Yielded(s.db.jobs[j], t.db.jobs[j]) && t.db.jobs[j].key == s.db.jobs[j].key)
  }

  lemma AlikeKeepsNotes(b: Backoff, s: Sys, t: Sys, w: Watch, j: JobId)
    requires Noted(b, s, w, j) && Alike(s, t, j)
    ensures Noted(b, t, w.(taken := w.taken || LosesKey(s, t, j)), j)
  {
  }

  // Events --------------------------------------------------------------------------------------

  /** Events on other matters than this job's attempts and times. */
  lemma OthersAreNotNoted(b: Backoff, s: Sys, e: Event, t: Sys, w: Watch, j: JobId)
    requires !Suspends(b, s, e, j) && !Retries(s, e, j) && !Wakens(s, e, j) && !e.SweepFinished? && !e.Claim?
    ensures Observe(b, s, e, t, w, j) == w.(taken := w.taken || LosesKey(s, t, j))
  {
  }

  /** Events that leave every row's lock, times and attempts alone. */
  predicate Still(e: Event) {
    e.Tick? || e.Heartbeat? || e.Step? || e.Progress? || e.Decide? || e.Prune? || e.SweepOrphans?
  }

  lemma StillRows(b: Backoff, s: Sys, e: Event, t: Sys, j: JobId)
    requires Still(e) && t == Apply(b, s, e)
    ensures Alike(s, t, j)
  {
  }

  lemma StillKeepsNotes(b: Backoff, s: Sys, e: Event, t: Sys, w: Watch, j: JobId)
    requires Noted(b, s, w, j) && Still(e) && t == Apply(b, s, e)
    ensures Noted(b, t, Observe(b, s, e, t, w, j), j)
  {
    StillRows(b, s, e, t, j);
    OthersAreNotNoted(b, s, e, t, w, j);
    AlikeKeepsNotes(b, s, t, w, j);
  }

  lemma AddKeepsNotes(b: Backoff, s: Sys, spec: JobSpec, t: Sys, w: Watch, j: JobId)
    requires Monotone(b) && Inv(b, s) && Noted(b, s, w, j) && t == DoAdd(s, spec)
    ensures Noted(b, t, Observe(b, s, Add(spec), t, w, j), j)
  {
    OthersAreNotNoted(b, s, Add(spec), t, w, j);
    if j in s.db.jobs {
      LifeOf(s, j);
      YieldingKeepsNotes(b, s, t, w, j);
    } else if s.db.nextId <= j {
      NewRowsAreNoted(b, s, t, w, j);
    }
  }

  lemma ClaimedRow(s: Sys, i: JobId, pool: PoolId, t: Sys, j: JobId)
    requires Claimable(s, i) && t == DoClaim(s, i, pool)
    ensures t.db.nextId == s.db.nextId && i in t.db.jobs
    ensures t.db.jobs[i].attempts == s.db.jobs[i].attempts + 1 && t.db.jobs[i].lock.Some? && Held(t, i).None?
    ensures i != j ==> Alike(s, t, j)
  {
  }

  lemma ClaimKeepsNotes(b: Backoff, s: Sys, i: JobId, pool: PoolId, t: Sys, w: Watch, j: JobId)
    requires Inv(b, s) && Noted(b, s, w, j) && Claimable(s, i) && t == DoClaim(s, i, pool)
    ensures Noted(b, t, Observe(b, s, Claim(i, pool), t, w, j), j)
  {
    ClaimedRow(s, i, pool, t, j);
    if i == j {
      LifeOf(s, j);
      ClaimingKeepsNotes(b, t, Watch(s.db.jobs[j].attempts, false, None, None), j);
    } else {
      AlikeKeepsNotes(b, s, t, w, j);
    }
  }

  lemma FailKeepsNotes(b: Backoff, s: Sys, i: JobId, t: Sys, w: Watch, j: JobId)
    requires Inv(b, s) && Noted(b, s, w, j) && i in s.db.jobs && s.db.jobs[i].lock.Some? && t == DoFail(b, s, i)
    ensures Noted(b, t, Observe(b, s, Fail(i), t, w, j), j)
  {
    OthersAreNotNoted(b, s, Fail(i), t, w, j);
    if i == j {
      LifeOf(s, j);
      UnlockingKeepsNotes(b, s, t, w, j);
    } else {
      AlikeKeepsNotes(b, s, t, w, j);
    }
  }

  lemma RemoveKeepsNotes(b: Backoff, s: Sys, i: JobId, pool: PoolId, t: Sys, w: Watch, j: JobId)
    requires Noted(b, s, w, j) && i in s.db.jobs && t == DoRemove(s, i, pool)
    ensures Noted(b, t, Observe(b, s, Remove(i, pool), t, w, j), j)
  {
    OthersAreNotNoted(b, s, Remove(i, pool), t, w, j);
  }

  lemma RecoverKeepsNotes(b: Backoff, s: Sys, e: Event, t: Sys, w: Watch, j: JobId)
    requires Inv(b, s) && Noted(b, s, w, j) && e.Recover? && t == DoRecover(b, s, e.staleAfter, e.sweeper, e.busy)
    ensures Noted(b, t, Observe(b, s, e, t, w, j), j)
  {
    OthersAreNotNoted(b, s, e, t, w, j);
    RecoveredRow(b, s, e.staleAfter, e.sweeper, e.busy, t, j);
    if Alike(s, t, j) {
      AlikeKeepsNotes(b, s, t, w, j);
    } else {
      LifeOf(s, j);
      UnlockingKeepsNotes(b, s, t, w, j);
    }
  }

  lemma RecoveredRow(b: Backoff, s: Sys, staleAfter: nat, sweeper: PoolId, busy: set<PoolId>, t: Sys, j: JobId)
    requires t == DoRecover(b, s, staleAfter, sweeper, busy)
    ensures t.db.nextId == s.db.nextId
    ensures Alike(s, t, j)
            || (j in s.db.jobs && j in t.db.jobs && s.db.jobs[j].lock.Some? && t.db.jobs[j].lock.None?
                && t.db.jobs[j].key == s.db.jobs[j].key
                && t.db.jobs[j].runAt == Max(s.clock, s.db.jobs[j].runAt) + b(s.db.jobs[j].attempts))
  {
    RecoverElsewhere(b, s, staleAfter, sweeper, busy);
    if j in s.db.jobs { RecoverRow(b, s, staleAfter, sweeper, busy, j); }
  }

  lemma RetriedRow(b: Backoff, s: Sys, token: Token, at: Time, t: Sys, j: JobId)
    requires MaySettle(s, token) && t == DoRetry(b, s, token, at)
    ensures t.db.nextId == s.db.nextId
    ensures if Owns(s.db, token) && token.job == j then
              && j in t.db.jobs && s.db.jobs[j].lock.Some? && t.db.jobs[j].lock == s.db.jobs[j].lock
              && Held(t, j) == Held(s, j) && t.db.jobs[j].key == s.db.jobs[j].key
              && t.db.jobs[j].attempts == s.db.jobs[j].attempts && t.db.jobs[j].runAt == at - b(s.db.jobs[j].attempts)
            else Alike(s, t, j)
  {
  }

  lemma RetryKeepsNotes(b: Backoff, s: Sys, token: Token, at: Time, t: Sys, w: Watch, j: JobId)
    requires Inv(b, s) && Noted(b, s, w, j) && MaySettle(s, token) && t == DoRetry(b, s, token, at)
    ensures Noted(b, t, Observe(b, s, Retry(token, at), t, w, j), j)
  {
    RetriedRow(b, s, token, at, t, j);
    if Retries(s, Retry(token, at), j) {
      LifeOf(s, j);
      RetryingKeepsNotes(b, s, t, w, Watch(w.base, w.taken, Some(at), Some(at)), at, j);
    } else {
      OthersAreNotNoted(b, s, Retry(token, at), t, w, j);
      AlikeKeepsNotes(b, s, t, w, j);
    }
  }

  // Reports and sweeps ----------------------------------------------------------------------------

  lemma ReportedRow(db: Db, id: JobId, report: Option<Report>, now: Time, j: JobId)
    requires j in db.jobs
    ensures var after := ReportOne(db, id, report, now);
            && j in after.jobs
            && Nudged(db.jobs[j], after.jobs[j],
                      report.Some? && Wakes(db.groups, Verdict(map[id := report.value], {}), j), now)
  {
  }

  lemma ActedRow(db: Db, before: Job, id: JobId, action: RowAction, pool: PoolId, woken: bool, now: Time, j: JobId)
    requires id in db.jobs && j in db.jobs && Nudged(before, db.jobs[j], woken, now)
             && db.jobs[j].maxAttempts == before.maxAttempts
    ensures var after := ActOnRow(db, id, action, pool);
            after.nextId == db.nextId && (j in after.jobs ==> Nudged(before, after.jobs[j], woken, now))
  {
  }

  lemma SettlementRow(db: Db, token: Token, settlement: Settlement, now: Time, j: JobId)
    requires Owns(db, token)
    ensures var after := Settle(db, token, settlement, now);
            && after.nextId == db.nextId
            && (j in after.jobs ==>
                  j in db.jobs
                  && Nudged(db.jobs[j], after.jobs[j],
                            settlement.report.Some?
                            && Wakes(db.groups, Verdict(map[token.job := settlement.report.value], {}), j), now))
  {
    var recorded := Record(db, token.job, settlement.outcome, now);
    var reported := ReportOne(recorded, token.job, settlement.report, now);
    ReportIsTame(recorded, token.job, settlement.report, now, token.job);
    if j in db.jobs {
      ReportIsTame(recorded, token.job, settlement.report, now, j);
      ReportedRow(recorded, token.job, settlement.report, now, j);
      ActedRow(reported, db.jobs[j], token.job, settlement.row, token.lock.owner,
               settlement.report.Some?
               && Wakes(db.groups, Verdict(map[token.job := settlement.report.value], {}), j), now, j);
    }
  }

  lemma SettledRow(s: Sys, token: Token, report: Report, row: RowAction, record: bool, t: Sys, j: JobId)
    requires MaySettle(s, token) && t == DoSettle(s, token, report, row, record)
    ensures t.db.nextId == s.db.nextId && Held(t, j) == (if j in t.db.jobs then Held(s, j) else None)
    ensures j in t.db.jobs ==>
              j in s.db.jobs
              && Nudged(s.db.jobs[j], t.db.jobs[j], Wakens(s, Settled(token, report, row, record), j), s.clock)
  {
    if Owns(s.db, token) {
      SettlementRow(s.db, token, SettlementOf(report, row, record, s.runs[token].waited), s.clock, j);
    }
  }

  /** A report, given what it did to the row. */
  lemma ReportKeepsNotes(b: Backoff, s: Sys, e: Event, t: Sys, w: Watch, j: JobId)
    requires Noted(b, s, w, j) && (e.Settled? || e.SweepLost?) && t.db.nextId == s.db.nextId
    requires j in s.db.jobs ==> j < s.db.nextId
    requires j in t.db.jobs ==>
               j in s.db.jobs && Held(t, j) == Held(s, j)
               && Nudged(s.db.jobs[j], t.db.jobs[j], Wakens(s, e, j), s.clock)
    ensures Noted(b, t, Observe(b, s, e, t, w, j), j)
  {
    if j in t.db.jobs { NudgingKeepsNotes(b, s, t, w, Observe(b, s, e, t, w, j), Wakens(s, e, j), j); }
  }

  lemma SettleKeepsNotes(b: Backoff, s: Sys, token: Token, report: Report, row: RowAction, record: bool, t: Sys,
                         w: Watch, j: JobId)
    requires Noted(b, s, w, j) && MaySettle(s, token) && t == DoSettle(s, token, report, row, record)
    requires j in s.db.jobs ==> j < s.db.nextId
    ensures Noted(b, t, Observe(b, s, Settled(token, report, row, record), t, w, j), j)
  {
    SettledRow(s, token, report, row, record, t, j);
    ReportKeepsNotes(b, s, Settled(token, report, row, record), t, w, j);
  }

  lemma SweepLostRow(s: Sys, skipped: set<WaitKey>, t: Sys, j: JobId)
    requires t == s.(db := ReportLost(s.db, skipped, s.clock))
    ensures t.db.nextId == s.db.nextId
    ensures j in t.db.jobs ==> j in s.db.jobs && Held(t, j) == Held(s, j)
                               && Nudged(s.db.jobs[j], t.db.jobs[j], Wakens(s, SweepLost(skipped), j), s.clock)
  {
    if j in s.db.jobs { SweepsWakeExactly(s.db, skipped, s.clock, j); }
  }

  lemma SweepLostKeepsNotes(b: Backoff, s: Sys, skipped: set<WaitKey>, t: Sys, w: Watch, j: JobId)
    requires Noted(b, s, w, j) && t == s.(db := ReportLost(s.db, skipped, s.clock))
    requires j in s.db.jobs ==> j < s.db.nextId
    ensures Noted(b, t, Observe(b, s, SweepLost(skipped), t, w, j), j)
  {
    SweepLostRow(s, skipped, t, j);
    ReportKeepsNotes(b, s, SweepLost(skipped), t, w, j);
  }

  lemma SweepFinishedRow(s: Sys, t: Sys, j: JobId)
    requires t == s.(db := WakeFinished(s.db, s.clock))
    ensures t.db.nextId == s.db.nextId && Held(t, j) == Held(s, j)
    ensures j in t.db.jobs ==> j in s.db.jobs
                               && t.db.jobs[j] == s.db.jobs[j].(runAt := t.db.jobs[j].runAt)
                               && (!SweepWakes(s, j) ==> t.db.jobs[j] == s.db.jobs[j])
  {
    if j in s.db.jobs { SweepsWakeExactly(s.db, {}, s.clock, j); }
  }

  lemma WakingKeepsNotes(b: Backoff, s: Sys, t: Sys, w: Watch, v: Watch, j: JobId)
    requires Noted(b, s, w, j) && t.db.nextId == s.db.nextId && Held(t, j) == Held(s, j)
    requires j in t.db.jobs ==> j in s.db.jobs
                                && t.db.jobs[j] == s.db.jobs[j].(runAt := t.db.jobs[j].runAt)
                                && (!SweepWakes(s, j) ==> t.db.jobs[j] == s.db.jobs[j])
    requires v == w.(asked := if SweepWakes(s, j) then None else w.asked)
    ensures Noted(b, t, v, j)
  {
  }

  lemma SweepFinishedKeepsNotes(b: Backoff, s: Sys, t: Sys, w: Watch, j: JobId)
    requires Noted(b, s, w, j) && t == s.(db := WakeFinished(s.db, s.clock))
    ensures Noted(b, t, Observe(b, s, SweepFinished, t, w, j), j)
  {
    SweepFinishedRow(s, t, j);
    WakingKeepsNotes(b, s, t, w, Observe(b, s, SweepFinished, t, w, j), j);
  }

  // Continuations ---------------------------------------------------------------------------------

  lemma SpentRow(db: Db, id: JobId, runAt: Option<Time>, traceparent: Option<string>, latest: Option<Json>, now: Time)
    requires id in db.jobs && id < db.nextId
    ensures var after := Succeed(db, id, runAt, traceparent, latest, now);
            && id in after.jobs && after.jobs[id].lock == db.jobs[id].lock && after.jobs[id].runAt == db.jobs[id].runAt
            && Exhausted(after.jobs[id])
            && after.jobs[id].attempts == (if db.jobs[id].key.Some? then db.jobs[id].maxAttempts else db.jobs[id].attempts)
  {
  }

  lemma SucceededRow(db: Db, id: JobId, runAt: Option<Time>, traceparent: Option<string>, latest: Option<Json>,
                     now: Time, j: JobId)
    requires id in db.jobs && id < db.nextId
    ensures var after := Succeed(db, id, runAt, traceparent, latest, now);
            && (j in after.jobs ==> j in db.jobs || j == db.nextId)
            && (j == db.nextId ==> j in after.jobs && after.jobs[j].lock.None?)
            && (j in db.jobs && j < db.nextId && j != id ==> j in after.jobs && Yielded(db.jobs[j], after.jobs[j]))
  {
  }

  lemma ContinuedRow(s: Sys, token: Token, runAt: Option<Time>, traceparent: Option<string>, latest: Option<Json>,
                     record: bool,
                     t: Sys, j: JobId)
    requires MayContinue(s, token) && Owns(s.db, token) && token.job < s.db.nextId
    requires t == DoContinue(s, token, runAt, traceparent, latest, record)
    requires j in s.db.jobs ==> j < s.db.nextId
    ensures t.db.nextId == s.db.nextId + 1
    ensures j in t.db.jobs ==> j in s.db.jobs || (j == s.db.nextId && t.db.jobs[j].lock.None?)
    ensures j in s.db.jobs && j != token.job ==>
              j in t.db.jobs && Yielded(s.db.jobs[j], t.db.jobs[j]) && Held(t, j) == Held(s, j)
    ensures j == token.job && j in t.db.jobs ==>
              && t.db.jobs[j].lock == s.db.jobs[j].lock && t.db.jobs[j].runAt == s.db.jobs[j].runAt
                 && Exhausted(t.db.jobs[j])
              && t.db.jobs[j].attempts == (if s.db.jobs[j].key.Some? then s.db.jobs[j].maxAttempts else s.db.jobs[j].attempts)
              && Held(t, j) == Some(ContinuedTo(s.db.nextId))
  {
    SpentRow(s.db, token.job, runAt, traceparent, latest, s.clock);
    SucceededRow(s.db, token.job, runAt, traceparent, latest, s.clock, j);
    SuccessorInherits(s.db, token.job, runAt, traceparent, latest, s.clock);
    if record {
      DeletedAndRecorded(Succeed(s.db, token.job, runAt, traceparent, latest, s.clock), token, Continued(s.db.nextId), s.clock);
    }
  }

  lemma ContinuingKeepsNotes(b: Backoff, s: Sys, t: Sys, w: Watch, v: Watch, j: JobId)
    requires Monotone(b) && Noted(b, s, w, j) && j in s.db.jobs && j < s.db.nextId <= t.db.nextId
    requires s.db.jobs[j].lock.Some? && v.asked == w.asked && v.aim == w.aim
    requires j in t.db.jobs ==>
               && t.db.jobs[j].lock == s.db.jobs[j].lock && t.db.jobs[j].runAt == s.db.jobs[j].runAt
                  && Exhausted(t.db.jobs[j])
               && s.db.jobs[j].attempts <= t.db.jobs[j].attempts && Held(t, j).Some? && Held(t, j).value.ContinuedTo?
    ensures Noted(b, t, v, j)
  {
  }

  lemma ContinueKeepsNotes(b: Backoff, s: Sys, e: Event, t: Sys, w: Watch, j: JobId)
    requires Monotone(b) && Inv(b, s) && Noted(b, s, w, j) && e.Continuation? && MayContinue(s, e.token)
    requires t == DoContinue(s, e.token, e.runAt, e.traceparent, e.latest, e.record)
    ensures Noted(b, t, Observe(b, s, e, t, w, j), j)
  {
    OthersAreNotNoted(b, s, e, t, w, j);
    if j in s.db.jobs { LifeOf(s, j); }
    if !Owns(s.db, e.token) {
      AlikeKeepsNotes(b, s, t, w, j);
    } else {
      LifeOf(s, e.token.job);
      ContinuedRow(s, e.token, e.runAt, e.traceparent, e.latest, e.record, t, j);
      if j == e.token.job {
        ContinuingKeepsNotes(b, s, t, w, Observe(b, s, e, t, w, j), j);
      } else if j in s.db.jobs {
        YieldingKeepsNotes(b, s, t, w, j);
      } else if s.db.nextId <= j {
        NewRowsAreNoted(b, s, t, w, j);
      }
    }
  }

  // Waits -------------------------------------------------------------------------------------------

  lemma {:induction false} AddedRowsAreFree(db: Db, children: seq<Child>, now: Time, j: JobId)
    requires db.nextId <= j && j !in db.jobs && forall i :: 0 <= i < |children| ==> !children[i].Missing?
    ensures var after := AddChildren(db, children, now).0; j in after.jobs ==> after.jobs[j].lock.None?
  {
    if children != [] { AddedRowsAreFree(db, children[..|children| - 1], now, j); }
  }

  lemma OpenedRow(s: Sys, key: GroupKey, children: seq<Child>, timeout: Option<nat>, t: Sys, j: JobId)
    requires forall i :: 0 <= i < |children| ==> !children[i].Missing?
    requires t == DoOpen(s, key, children, timeout) && (j in s.db.jobs ==> j < s.db.nextId)
    ensures s.db.nextId <= t.db.nextId && t.runs == s.runs && t.clock == s.clock && key in t.db.groups
    ensures t.db.groups[key].remaining == |children|
    ensures j in s.db.jobs ==> j in t.db.jobs && Yielded(s.db.jobs[j], t.db.jobs[j]) && Held(t, j) == Held(s, j)
    ensures j !in s.db.jobs && s.db.nextId <= j && j in t.db.jobs ==> t.db.jobs[j].lock.None?
  {
    OpenExtendsNoChain(s, key, children, timeout);
    if j in s.db.jobs {
      AddChildrenYields(s.db, children, s.clock, j);
    } else if s.db.nextId <= j {
      AddedRowsAreFree(s.db, children, s.clock, j);
    }
  }

  lemma OldRowsDoNotReturn(s: Sys, key: GroupKey, children: seq<Child>, timeout: Option<nat>, j: JobId)
    requires forall i :: 0 <= i < |children| ==> !children[i].Missing?
    requires j !in s.db.jobs && j < s.db.nextId
    ensures j !in DoOpen(s, key, children, timeout).db.jobs
  {
    AddChildrenIsTame(s.db, children, s.clock, j);
  }

  /** A suspension of the run that holds the row. */
  lemma SuspendingKeepsNotes(b: Backoff, s: Sys, t: Sys, w: Watch, v: Watch, deadline: Time, j: JobId)
    requires Noted(b, s, w, j) && j in s.db.jobs && j < s.db.nextId <= t.db.nextId && s.db.jobs[j].lock.Some?
    requires Held(s, j).None? || Held(s, j).value.Waiting?
    requires j in t.db.jobs && t.db.jobs[j] == SuspendRow(s.db.jobs[j], deadline, Held(s, j).Some?, b)
    requires Held(t, j).Some? && Held(t, j).value.Waiting?
    requires v == Watch(w.base, w.taken, Some(if Held(s, j).None? then deadline else Earlier(w.aim, deadline)), None)
    ensures Noted(b, t, v, j)
  {
  }

  lemma SuspendedRow(b: Backoff, s: Sys, token: Token, key: GroupKey, t: Sys, j: JobId)
    requires token in s.runs && Owns(s.db, token) && key in s.db.groups && key.parent == token.job
    requires t == DoSuspend(b, s, token, key)
    ensures t.db.nextId == s.db.nextId && t.db.groups == s.db.groups
    ensures if j == token.job then
              && j in t.db.jobs && Held(s, j) == s.runs[token].ended
              && t.db.jobs[j] == SuspendRow(s.db.jobs[j], Deadline(s.db.groups[key]), Held(s, j).Some?, b)
              && Held(t, j) == (if Held(s, j).Some? then Held(s, j) else Some(Waiting(key.waitId)))
            else Alike(s, t, j)
  {
  }

  lemma FinishedRow(s: Sys, token: Token, key: GroupKey, t: Sys, j: JobId)
    requires token in s.runs && Owns(s.db, token) && key in s.db.groups && key.parent == token.job
             && t == DoFinish(s, token, key)
    ensures Alike(s, t, j)
  {
  }

  /** The state in which the entering run holds its group. */
  function Entered(s: Sys, e: Event): Sys
    requires e.Enter? && (GroupKey(e.token.job, e.waitId) in s.db.groups || Enqueues(e.prepared, e.count))
  {
    var key := GroupKey(e.token.job, e.waitId);
    if key in s.db.groups then s else DoOpen(s, key, e.prepared.children, e.timeout)
  }

  /** The owner's entry goes through. */
  predicate Enters(s: Sys, e: Event) {
    && e.Enter? && MayEnter(s, e.token, e.waitId) && 0 < e.count && KnownChildren(s.db, e.prepared)
       && Owns(s.db, e.token)
    && (GroupKey(e.token.job, e.waitId) in s.db.groups || Enqueues(e.prepared, e.count))
  }

  /** It ends in a checkpoint or in a suspension. */
  lemma EntersEither(b: Backoff, s: Sys, e: Event)
    requires Enters(s, e)
    requires var key := GroupKey(e.token.job, e.waitId);
             && key in Entered(s, e).db.groups && Owns(Entered(s, e).db, e.token) && Entered(s, e).runs == s.runs
    ensures var t, entered := Apply(b, s, e), Entered(s, e);
            if Suspends(b, s, e, e.token.job) then t == DoSuspend(b, entered, e.token, GroupKey(e.token.job, e.waitId))
            else t == DoFinish(entered, e.token, GroupKey(e.token.job, e.waitId))
  {
  }

  lemma EnteredNotes(b: Backoff, s: Sys, e: Event, w: Watch, j: JobId)
    requires Monotone(b) && Inv(b, s) && Noted(b, s, w, j) && Enters(s, e)
    ensures var t := Entered(s, e);
            && s.db.nextId <= t.db.nextId && t.runs == s.runs && t.clock == s.clock
            && GroupKey(e.token.job, e.waitId) in t.db.groups && Owns(t.db, e.token)
            && Noted(b, t, w.(taken := w.taken || LosesKey(s, t, j)), j)
            && (j in s.db.jobs ==> j in t.db.jobs)
  {
    var key := GroupKey(e.token.job, e.waitId);
    if j in s.db.jobs { LifeOf(s, j); }
    LifeOf(s, e.token.job);
    if key !in s.db.groups {
      var t := Entered(s, e);
      OpenedRow(s, key, e.prepared.children, e.timeout, t, e.token.job);
      OpenedRow(s, key, e.prepared.children, e.timeout, t, j);
      if j in s.db.jobs {
        YieldingKeepsNotes(b, s, t, w, j);
      } else if s.db.nextId <= j {
        NewRowsAreNoted(b, s, t, w, j);
      } else {
        OldRowsDoNotReturn(s, key, e.prepared.children, e.timeout, j);
      }
    }
  }

  lemma FinishKeepsNotes(b: Backoff, s: Sys, token: Token, key: GroupKey, t: Sys, w: Watch, j: JobId)
    requires Noted(b, s, w, j) && token in s.runs && Owns(s.db, token) && key in s.db.groups && key.parent == token.job
    requires t == DoFinish(s, token, key)
    ensures Noted(b, t, w, j) && (j in t.db.jobs ==> j in s.db.jobs && t.db.jobs[j].key == s.db.jobs[j].key)
  {
    FinishedRow(s, token, key, t, j);
    AlikeKeepsNotes(b, s, t, w, j);
  }

  lemma SuspendKeepsNotes(b: Backoff, s: Sys, token: Token, key: GroupKey, t: Sys, w: Watch, v: Watch, j: JobId)
    requires Noted(b, s, w, j) && token in s.runs && Owns(s.db, token) && key in s.db.groups && key.parent == token.job
    requires s.runs[token].ended.None? || s.runs[token].ended.value.Waiting?
    requires t == DoSuspend(b, s, token, key) && (j in s.db.jobs ==> j < s.db.nextId)
    requires v == if j != token.job then w else
                  Watch(w.base, w.taken,
                        Some(if s.runs[token].ended.None? then Deadline(s.db.groups[key]) else Earlier(w.aim, Deadline(s.db.groups[key]))),
                        None)
    ensures Noted(b, t, v, j) && (j in t.db.jobs ==> j in s.db.jobs && t.db.jobs[j].key == s.db.jobs[j].key)
  {
    SuspendedRow(b, s, token, key, t, j);
    if j == token.job {
      SuspendingKeepsNotes(b, s, t, w, v, Deadline(s.db.groups[key]), j);
    } else {
      AlikeKeepsNotes(b, s, t, w, j);
    }
  }

  /** What the observer notes of an entry, in terms of the state in between. */
  lemma ObservesEntry(b: Backoff, s: Sys, e: Event, entered: Sys, t: Sys, w: Watch, j: JobId)
    requires Enters(s, e) && t.db.groups.Keys <= entered.db.groups.Keys && entered.runs == s.runs
    requires (j in s.db.jobs ==> j in entered.db.jobs) && (j in t.db.jobs ==> j in entered.db.jobs)
    requires j in t.db.jobs ==> t.db.jobs[j].key == entered.db.jobs[j].key
    requires j in entered.db.jobs ==> j in t.db.jobs
    requires Suspends(b, s, e, e.token.job) ==> GroupKey(e.token.job, e.waitId) in t.db.groups && t.db.groups == entered.db.groups
    ensures Observe(b, s, e, t, w, j) ==
              var noted := w.(taken := w.taken || LosesKey(s, entered, j));
              if j == e.token.job && Suspends(b, s, e, j) then
                var deadline := Deadline(entered.db.groups[GroupKey(j, e.waitId)]);
                Watch(noted.base, noted.taken,
                      Some(if s.runs[e.token].ended.None? then deadline else Earlier(noted.aim, deadline)), None)
              else noted
  {
  }

  lemma SuspendedKeys(b: Backoff, s: Sys, token: Token, key: GroupKey, t: Sys, j: JobId)
    requires token in s.runs && Owns(s.db, token) && key in s.db.groups && key.parent == token.job
    requires t == DoSuspend(b, s, token, key) || t == DoFinish(s, token, key)
    ensures (j in t.db.jobs <==> j in s.db.jobs) && t.db.groups.Keys <= s.db.groups.Keys
    ensures j in t.db.jobs ==> t.db.jobs[j].key == s.db.jobs[j].key
    ensures t == DoSuspend(b, s, token, key) ==> t.db.groups == s.db.groups
  {
  }

  lemma EntrySuspendsNotes(b: Backoff, s: Sys, e: Event, entered: Sys, t: Sys, w: Watch, j: JobId)
    requires Enters(s, e) && Suspends(b, s, e, e.token.job) && entered.runs == s.runs
    requires GroupKey(e.token.job, e.waitId) in entered.db.groups && Owns(entered.db, e.token)
    requires (j in s.db.jobs ==> j in entered.db.jobs) && (j in entered.db.jobs ==> j < entered.db.nextId)
    requires Noted(b, entered, w.(taken := w.taken || LosesKey(s, entered, j)), j)
    requires t == DoSuspend(b, entered, e.token, GroupKey(e.token.job, e.waitId))
    ensures Noted(b, t, Observe(b, s, e, t, w, j), j)
  {
    var key := GroupKey(e.token.job, e.waitId);
    SuspendedKeys(b, entered, e.token, key, t, j);
    ObservesEntry(b, s, e, entered, t, w, j);
    SuspendKeepsNotes(b, entered, e.token, key, t, w.(taken := w.taken || LosesKey(s, entered, j)),
                      Observe(b, s, e, t, w, j), j);
  }

  lemma EntryFinishesNotes(b: Backoff, s: Sys, e: Event, entered: Sys, t: Sys, w: Watch, j: JobId)
    requires Enters(s, e) && !Suspends(b, s, e, e.token.job) && entered.runs == s.runs
    requires GroupKey(e.token.job, e.waitId) in entered.db.groups && Owns(entered.db, e.token)
    requires j in s.db.jobs ==> j in entered.db.jobs
    requires Noted(b, entered, w.(taken := w.taken || LosesKey(s, entered, j)), j)
    requires t == DoFinish(entered, e.token, GroupKey(e.token.job, e.waitId))
    ensures Noted(b, t, Observe(b, s, e, t, w, j), j)
  {
    var key := GroupKey(e.token.job, e.waitId);
    SuspendedKeys(b, entered, e.token, key, t, j);
    ObservesEntry(b, s, e, entered, t, w, j);
    FinishKeepsNotes(b, entered, e.token, key, t, w.(taken := w.taken || LosesKey(s, entered, j)), j);
  }

  lemma EnterKeepsNotes(b: Backoff, s: Sys, e: Event, w: Watch, j: JobId)
    requires Monotone(b) && Inv(b, s) && Noted(b, s, w, j) && Enters(s, e)
    ensures Noted(b, Apply(b, s, e), Observe(b, s, e, Apply(b, s, e), w, j), j)
  {
    var entered := Entered(s, e);
    EnteredNotes(b, s, e, w, j);
    EntersEither(b, s, e);
    if Suspends(b, s, e, e.token.job) {
      if j in entered.db.jobs { IdsBelow(b, s, e, j); }
      EntrySuspendsNotes(b, s, e, entered, Apply(b, s, e), w, j);
    } else {
      EntryFinishesNotes(b, s, e, entered, Apply(b, s, e), w, j);
    }
  }

  lemma IdsBelow(b: Backoff, s: Sys, e: Event, j: JobId)
    requires Inv(b, s) && Enters(s, e) && j in Entered(s, e).db.jobs
    ensures j < Entered(s, e).db.nextId
  {
    IdsAreHandedOut(b, s);
    if GroupKey(e.token.job, e.waitId) !in s.db.groups { AddAllMatches(s, e.prepared.children); }
  }

  // Keys --------------------------------------------------------------------------------------------

  /** The event adds a job for the key: a producer's, a wait's child or a continuation. */
  predicate TakesKey(s: Sys, e: Event, key: string) {
    match e
    case Add(spec) => Addable(s.db.jobs, spec) && spec.key == Some(key)
    case Enter(token, waitId, _, prepared, _) =>
      Enters(s, e) && GroupKey(token.job, waitId) !in s.db.groups && Asks(prepared.children, key)
    case Continuation(token, _, _, _, _) => MayContinue(s, token) && Owns(s.db, token)
    && s.db.jobs[token.job].key == Some(key)
    case _ => false
  }

  predicate Asks(children: seq<Child>, key: string) {
    exists i :: 0 <= i < |children| && children[i].New? && children[i].spec.key == Some(key)
  }

  lemma {:induction false} AddedKeys(db: Db, children: seq<Child>, now: Time, j: JobId)
    requires j in db.jobs && j < db.nextId && db.jobs[j].key.Some?
             && forall i :: 0 <= i < |children| ==> !children[i].Missing?
    ensures var after := AddChildren(db, children, now).0;
            j in after.jobs && (after.jobs[j].key.None? <==> Asks(children, db.jobs[j].key.value))
  {
    AddChildrenYields(db, children, now, j);
    if children != [] {
      var n, key := |children| - 1, db.jobs[j].key.value;
      var before := AddChildren(db, children[..n], now).0;
      AddChildrenYields(db, children[..n], now, j);
      AddedKeys(db, children[..n], now, j);
      if i :| 0 <= i < |children| && children[i].New? && children[i].spec.key == Some(key) {
        assert i < n ==> children[..n][i] == children[i];
      }
      if i :| 0 <= i < n && children[..n][i].New? && children[..n][i].spec.key == Some(key) {
        assert children[i] == children[..n][i];
      }
      assert before.jobs[j].key == Some(key) || before.jobs[j].key.None?;
    }
  }

  lemma OpenedKeys(s: Sys, e: Event, j: JobId)
    requires Enters(s, e) && j in s.db.jobs && j < s.db.nextId && s.db.jobs[j].key.Some?
    ensures var t := Entered(s, e);
            j in t.db.jobs && (t.db.jobs[j].key.None? <==> TakesKey(s, e, s.db.jobs[j].key.value))
  {
    var key := GroupKey(e.token.job, e.waitId);
    if key !in s.db.groups {
      OpenedRow(s, key, e.prepared.children, e.timeout, Entered(s, e), j);
      AddedKeys(s.db, e.prepared.children, s.clock, j);
    }
  }

  lemma EndedKeys(b: Backoff, s: Sys, e: Event, entered: Sys, t: Sys, j: JobId)
    requires e.Enter? && e.token in entered.runs && Owns(entered.db, e.token)
    requires GroupKey(e.token.job, e.waitId) in entered.db.groups && j in entered.db.jobs
    requires t == DoSuspend(b, entered, e.token, GroupKey(e.token.job, e.waitId))
             || t == DoFinish(entered, e.token, GroupKey(e.token.job, e.waitId))
    ensures j in t.db.jobs && t.db.jobs[j].key == entered.db.jobs[j].key
  {
    SuspendedKeys(b, entered, e.token, GroupKey(e.token.job, e.waitId), t, j);
  }

  lemma EnteredKeys(b: Backoff, s: Sys, e: Event, j: JobId)
    requires Inv(b, s) && Enters(s, e) && j in s.db.jobs && s.db.jobs[j].key.Some?
    ensures var t := Apply(b, s, e);
            j in t.db.jobs && (t.db.jobs[j].key.None? <==> TakesKey(s, e, s.db.jobs[j].key.value))
  {
    LifeOf(s, j);
    EntersOwned(b, s, e);
    EntersEither(b, s, e);
    OpenedKeys(s, e, j);
    EndedKeys(b, s, e, Entered(s, e), Apply(b, s, e), j);
  }

  lemma EntersOwned(b: Backoff, s: Sys, e: Event)
    requires Inv(b, s) && Enters(s, e)
    ensures var t := Entered(s, e);
            t.runs == s.runs && GroupKey(e.token.job, e.waitId) in t.db.groups && Owns(t.db, e.token)
  {
    LifeOf(s, e.token.job);
    if GroupKey(e.token.job, e.waitId) !in s.db.groups {
      OpenedRow(s, GroupKey(e.token.job, e.waitId), e.prepared.children, e.timeout, Entered(s, e), e.token.job);
    }
  }

  lemma SucceededKeys(db: Db, id: JobId, runAt: Option<Time>, traceparent: Option<string>, latest: Option<Json>,
                      now: Time, j: JobId)
    requires id in db.jobs && j in db.jobs && j < db.nextId && db.jobs[j].key.Some?
    ensures var after := Succeed(db, id, runAt, traceparent, latest, now);
            j in after.jobs && (after.jobs[j].key.None? <==> db.jobs[id].key == db.jobs[j].key)
  {
  }

  lemma ContinuedKeys(s: Sys, e: Event, t: Sys, j: JobId)
    requires e.Continuation? && MayContinue(s, e.token)
    requires t == DoContinue(s, e.token, e.runAt, e.traceparent, e.latest, e.record)
    requires Owns(s.db, e.token) ==> e.token.job < s.db.nextId
    requires j in s.db.jobs && j in t.db.jobs && j < s.db.nextId && s.db.jobs[j].key.Some?
    ensures t.db.jobs[j].key.None? <==> TakesKey(s, e, s.db.jobs[j].key.value)
  {
    if Owns(s.db, e.token) {
      SucceededKeys(s.db, e.token.job, e.runAt, e.traceparent, e.latest, s.clock, j);
      if e.record {
        SuccessorInherits(s.db, e.token.job, e.runAt, e.traceparent, e.latest, s.clock);
        var succeeded := Succeed(s.db, e.token.job, e.runAt, e.traceparent, e.latest, s.clock);
        DeletedAndRecorded(succeeded, e.token, Continued(s.db.nextId), s.clock);
      }
    }
  }

  lemma SettlementsTakeNoKey(b: Backoff, s: Sys, e: Event, t: Sys, j: JobId)
    requires (e.Settled? || e.Retry?) && t == Apply(b, s, e) && j in s.db.jobs && j in t.db.jobs
    ensures t.db.jobs[j].key == s.db.jobs[j].key
  {
    if e.Settled? && MaySettle(s, e.token) { SettledRow(s, e.token, e.report, e.row, e.record, t, j); }
  }

  lemma SweepsTakeNoKey(b: Backoff, s: Sys, e: Event, t: Sys, j: JobId)
    requires (e.SweepLost? || e.SweepFinished?) && t == Apply(b, s, e) && j in s.db.jobs && j in t.db.jobs
    ensures t.db.jobs[j].key == s.db.jobs[j].key
  {
    if e.SweepLost? { SweepLostRow(s, e.skipped, t, j); } else { SweepFinishedRow(s, t, j); }
  }

  lemma GraphileTakesNoKey(b: Backoff, s: Sys, e: Event, t: Sys, j: JobId)
    requires (e.Claim? || e.Fail? || e.Remove? || e.Recover?) && t == Apply(b, s, e) && j in s.db.jobs && j in t.db.jobs
    ensures t.db.jobs[j].key == s.db.jobs[j].key
  {
    if e.Recover? { RecoverRow(b, s, e.staleAfter, e.sweeper, e.busy, j); }
  }

  lemma OthersTakeNoKey(b: Backoff, s: Sys, e: Event, t: Sys, j: JobId)
    requires !e.Add? && !e.Enter? && !e.Continuation? && t == Apply(b, s, e) && j in s.db.jobs && j in t.db.jobs
    ensures t.db.jobs[j].key == s.db.jobs[j].key
  {
    if Still(e) {
      StillRows(b, s, e, t, j);
    } else if e.Claim? || e.Fail? || e.Remove? || e.Recover? {
      GraphileTakesNoKey(b, s, e, t, j);
    } else if e.Settled? || e.Retry? {
      SettlementsTakeNoKey(b, s, e, t, j);
    } else {
      SweepsTakeNoKey(b, s, e, t, j);
    }
  }

  lemma AddedKey(s: Sys, spec: JobSpec, t: Sys, j: JobId)
    requires j in s.db.jobs && s.db.jobs[j].key.Some? && j < s.db.nextId
    requires t == if Addable(s.db.jobs, spec) then DoAdd(s, spec) else s
    ensures j in t.db.jobs && (t.db.jobs[j].key.None? <==> TakesKey(s, Add(spec), s.db.jobs[j].key.value))
  {
  }

  lemma EntryTakesKeys(b: Backoff, s: Sys, e: Event, t: Sys, j: JobId)
    requires Inv(b, s) && e.Enter? && t == Apply(b, s, e) && j in s.db.jobs && s.db.jobs[j].key.Some?
    ensures j in t.db.jobs && (t.db.jobs[j].key.None? <==> TakesKey(s, e, s.db.jobs[j].key.value))
  {
    if Enters(s, e) {
      EnteredKeys(b, s, e, j);
    } else {
      assert t == s;
    }
  }

  lemma ContinuationTakesKeys(b: Backoff, s: Sys, e: Event, t: Sys, j: JobId)
    requires Inv(b, s) && e.Continuation? && t == Apply(b, s, e) && j in s.db.jobs && s.db.jobs[j].key.Some?
             && j in t.db.jobs
    ensures t.db.jobs[j].key.None? <==> TakesKey(s, e, s.db.jobs[j].key.value)
  {
    LifeOf(s, j);
    if MayContinue(s, e.token) {
      if Owns(s.db, e.token) { LifeOf(s, e.token.job); }
      ContinuedKeys(s, e, t, j);
    }
  }

  lemma TakenKey(b: Backoff, s: Sys, e: Event, t: Sys, j: JobId)
    requires Inv(b, s) && t == Apply(b, s, e) && j in s.db.jobs && s.db.jobs[j].key.Some? && j in t.db.jobs
    ensures t.db.jobs[j].key.None? <==> TakesKey(s, e, s.db.jobs[j].key.value)
  {
    if e.Enter? {
      EntryTakesKeys(b, s, e, t, j);
    } else if e.Continuation? {
      ContinuationTakesKeys(b, s, e, t, j);
    } else if e.Add? {
      LifeOf(s, j);
      AddedKey(s, e.spec, t, j);
    } else {
      OthersTakeNoKey(b, s, e, t, j);
    }
  }

  /** A row with attempts left loses its key exactly when an event adds a job for it. */
  lemma {:induction false} KeysGoToAdds(b: Backoff, s: Sys, e: Event, j: JobId)
    requires Inv(b, s) && j in s.db.jobs && s.db.jobs[j].key.Some? && j in Apply(b, s, e).db.jobs
    ensures LosesKey(s, Apply(b, s, e), j) <==> !Exhausted(s.db.jobs[j]) && TakesKey(s, e, s.db.jobs[j].key.value)
  {
    TakenKey(b, s, e, Apply(b, s, e), j);
  }

  // Whole runs ----------------------------------------------------------------------------------------

  lemma RefusedKeepsNotes(b: Backoff, s: Sys, e: Event, w: Watch, j: JobId)
    requires Noted(b, s, w, j) && Apply(b, s, e) == s
    requires !Suspends(b, s, e, j) && !Retries(s, e, j) && !Wakens(s, e, j) && !e.SweepFinished?
    requires !(e.Claim? && Claimable(s, e.job))
    ensures Noted(b, s, Observe(b, s, e, s, w, j), j)
  {
  }

  lemma EndingEventKeepsNotes(b: Backoff, s: Sys, e: Event, w: Watch, j: JobId)
    requires Monotone(b) && Inv(b, s) && Noted(b, s, w, j) && (e.Enter? || e.Continuation?)
    ensures Noted(b, Apply(b, s, e), Observe(b, s, e, Apply(b, s, e), w, j), j)
  {
    if j in s.db.jobs { LifeOf(s, j); }
    if e.Enter? && Enters(s, e) {
      EnterKeepsNotes(b, s, e, w, j);
    } else if e.Continuation? && MayContinue(s, e.token) {
      ContinueKeepsNotes(b, s, e, Apply(b, s, e), w, j);
    } else {
      RefusedKeepsNotes(b, s, e, w, j);
    }
  }

  lemma ResultEventKeepsNotes(b: Backoff, s: Sys, e: Event, w: Watch, j: JobId)
    requires Monotone(b) && Inv(b, s) && Noted(b, s, w, j) && (e.Settled? || e.Retry?)
    ensures Noted(b, Apply(b, s, e), Observe(b, s, e, Apply(b, s, e), w, j), j)
  {
    if j in s.db.jobs { LifeOf(s, j); }
    if !MaySettle(s, e.token) {
      RefusedKeepsNotes(b, s, e, w, j);
    } else if e.Settled? {
      SettleKeepsNotes(b, s, e.token, e.report, e.row, e.record, Apply(b, s, e), w, j);
    } else {
      RetryKeepsNotes(b, s, e.token, e.at, Apply(b, s, e), w, j);
    }
  }

  lemma GraphileEventKeepsNotes(b: Backoff, s: Sys, e: Event, w: Watch, j: JobId)
    requires Monotone(b) && Inv(b, s) && Noted(b, s, w, j) && OfOneJob(e)
    ensures Noted(b, Apply(b, s, e), Observe(b, s, e, Apply(b, s, e), w, j), j)
  {
    var t := Apply(b, s, e);
    match e
    case Add(spec) =>
      if Addable(s.db.jobs, spec) { AddKeepsNotes(b, s, spec, t, w, j); } else { RefusedKeepsNotes(b, s, e, w, j); }
    case Claim(i, pool) =>
      if Claimable(s, i) { ClaimKeepsNotes(b, s, i, pool, t, w, j); } else { RefusedKeepsNotes(b, s, e, w, j); }
    case Fail(i) =>
      if i in s.db.jobs && s.db.jobs[i].lock.Some? {
        FailKeepsNotes(b, s, i, t, w, j);
      } else {
        RefusedKeepsNotes(b, s, e, w, j);
      }
    case Remove(i, pool) =>
      if i in s.db.jobs { RemoveKeepsNotes(b, s, i, pool, t, w, j); } else { RefusedKeepsNotes(b, s, e, w, j); }
  }

  lemma MaintenanceKeepsNotes(b: Backoff, s: Sys, e: Event, w: Watch, j: JobId)
    requires Inv(b, s) && Noted(b, s, w, j) && (e.Recover? || e.SweepLost? || e.SweepFinished?)
    ensures Noted(b, Apply(b, s, e), Observe(b, s, e, Apply(b, s, e), w, j), j)
  {
    if j in s.db.jobs { LifeOf(s, j); }
    match e
    case Recover(_, _, _) => RecoverKeepsNotes(b, s, e, Apply(b, s, e), w, j);
    case SweepLost(skipped) => SweepLostKeepsNotes(b, s, skipped, Apply(b, s, e), w, j);
    case SweepFinished => SweepFinishedKeepsNotes(b, s, Apply(b, s, e), w, j);
  }

  lemma EventKeepsNotes(b: Backoff, s: Sys, e: Event, w: Watch, j: JobId)
    requires Monotone(b) && Inv(b, s) && Noted(b, s, w, j)
    ensures Noted(b, Apply(b, s, e), Observe(b, s, e, Apply(b, s, e), w, j), j)
  {
    if OfOneJob(e) {
      GraphileEventKeepsNotes(b, s, e, w, j);
    } else if e.Recover? || e.SweepLost? || e.SweepFinished? {
      MaintenanceKeepsNotes(b, s, e, w, j);
    } else if Still(e) {
      StillKeepsNotes(b, s, e, Apply(b, s, e), w, j);
    } else if e.Enter? || e.Continuation? {
      EndingEventKeepsNotes(b, s, e, w, j);
    } else {
      ResultEventKeepsNotes(b, s, e, w, j);
    }
  }

  lemma {:induction false} WatchingIsNoted(b: Backoff, events: seq<Event>, j: JobId)
    requires Monotone(b)
    ensures Noted(b, After(b, START, events), Watching(b, events, j), j)
  {
    if events != [] {
      var n := |events| - 1;
      var s, e := After(b, START, events[..n]), events[n];
      WatchingIsNoted(b, events[..n], j);
      Reachable(b, events[..n]);
      EventKeepsNotes(b, s, e, Watching(b, events[..n], j), j);
    }
  }

  /** In every reachable state, a run that suspended, however often, holds its job at exactly the
      attempts it had before its claim, if and only if no add took the job's key since that claim
      while the job had attempts left. The failure update keeps them. */
  lemma {:induction false} SuspensionsGiveTheAttemptBack(b: Backoff, events: seq<Event>, j: JobId)
    requires Monotone(b)
    requires var s := After(b, START, events); j in s.db.jobs && SuspendedRun(s, j)
    ensures var s, w := After(b, START, events), Watching(b, events, j);
            && (s.db.jobs[j].attempts == w.base <==> !w.taken)
            && w.base <= s.db.jobs[j].attempts
            && DoFail(b, s, j).db.jobs[j].attempts == s.db.jobs[j].attempts
  {
    WatchingIsNoted(b, events, j);
  }

  /** In every reachable state, the failure update makes a job with attempts left that suspended or
      asked for a retry due exactly at the time it aims at, or one backoff from now if that is
      later; and a suspended run aims at something. */
  lemma {:induction false} SleepersAreDueAsAimed(b: Backoff, events: seq<Event>, j: JobId)
    requires Monotone(b)
    requires var s := After(b, START, events); j in s.db.jobs && s.db.jobs[j].lock.Some? && !Exhausted(s.db.jobs[j])
    ensures var s, aim := After(b, START, events), Watching(b, events, j).aim;
            && (SuspendedRun(s, j) ==> aim.Some?)
            && (aim.Some? ==>
                  DoFail(b, s, j).db.jobs[j].runAt == Max(s.clock + b(s.db.jobs[j].attempts), aim.value))
  {
    WatchingIsNoted(b, events, j);
  }

  /** A job that asked for a retry is never claimed before that time, unless a report or a sweep
      finished one of its groups or it suspended since; only Graphile's reclaim of a lock whose
      failure update never came may be early, by at most the backoff that update would have added. */
  lemma {:induction false} RetriesAreNeverEarly(b: Backoff, events: seq<Event>, j: JobId)
    requires Monotone(b) && Claimable(After(b, START, events), j) && Watching(b, events, j).asked.Some?
    ensures var s, at := After(b, START, events), Watching(b, events, j).asked.value;
            at <= s.clock + if s.db.jobs[j].lock.Some? then b(s.db.jobs[j].attempts) else 0
  {
    WatchingIsNoted(b, events, j);
  }
}
