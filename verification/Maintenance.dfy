/** When a worker counts as dead (src/maintenance.ts:25-83). */
module Maintenance {
  import opened Wrappers
  import opened Tables
  import opened Protocol
  import opened Invariants

  const MAX_TIMER := 2_147_483_647
  const MAX_SAFE_INTEGER := 9_007_199_254_740_991

  /** `false`; `true` or undefined; an object. */
  datatype RecoveryOption = Disabled | Default | Tuned(heartbeatInterval: Option<int>, staleAfter: Option<int>)

  datatype Recovery = Off | On(heartbeatInterval: nat, staleAfter: nat) | RangeError

  function ResolveCrashRecovery(option: RecoveryOption): Recovery {
    match option
    case Disabled => Off
    case Default => On(30_000, 300_000)
    case Tuned(heartbeatInterval, staleAfter) =>
      var interval, stale := heartbeatInterval.GetOr(30_000), staleAfter.GetOr(300_000);
      if 1 <= interval <= MAX_TIMER && 3 * interval <= stale <= MAX_SAFE_INTEGER then On(interval, stale) else RangeError
  }

  /** Recovery is off only if disabled, and else runs with the given or default times exactly when the
      worker beats and counts as dead only after three intervals. */
  lemma RecoveryIsChecked(option: RecoveryOption)
    ensures ResolveCrashRecovery(option).Off? <==> option.Disabled?
    ensures !option.Disabled? ==>
              var interval := if option.Tuned? && option.heartbeatInterval.Some? then option.heartbeatInterval.value
                              else 30_000;
              var stale := if option.Tuned? && option.staleAfter.Some? then option.staleAfter.value else 300_000;
              if 1 <= interval <= 2_147_483_647 && 3 * interval <= stale <= 9_007_199_254_740_991
              then ResolveCrashRecovery(option) == On(interval, stale) else ResolveCrashRecovery(option).RangeError?
  {
  }

  /** Under every accepted setting a worker keeps its jobs while its latest heartbeat is at most
      three intervals old, so two beats in a row may fail; a sweeper always keeps its own. */
  lemma TwoBeatsMayFail(db: Db, option: RecoveryOption, sweeper: PoolId, skipped: set<PoolId>, backoff: Backoff,
                        now: Time, j: JobId)
    requires var recovery := ResolveCrashRecovery(option);
             && recovery.On? && j in db.jobs && db.jobs[j].lock.Some?
             && var pool := db.jobs[j].lock.value.owner;
             pool == sweeper || (pool in db.heartbeats && now <= db.heartbeats[pool] + 3 * recovery.heartbeatInterval)
    ensures var after := SweepDead(db, ResolveCrashRecovery(option).staleAfter, sweeper, skipped, backoff, now);
            j in after.jobs && after.jobs[j] == db.jobs[j]
  {
  }

  /** A pool counts as dead when its latest heartbeat is older than `staleAfter`, unless it is the
      sweeper's own or another sweep holds its heartbeat. */
  predicate Dead(db: Db, staleAfter: nat, sweeper: PoolId, skipped: set<PoolId>, now: Time, pool: PoolId) {
    pool in db.heartbeats && staleAfter < now - db.heartbeats[pool] && pool != sweeper && pool !in skipped
  }

  /** A sweep releases exactly the rows, lanes and heartbeats of the dead pools: each row becomes
      claimable one backoff later, with its spent attempt still spent. */
  lemma SweepsReleaseTheDead(db: Db, staleAfter: nat, sweeper: PoolId, skipped: set<PoolId>, backoff: Backoff,
                             now: Time, j: JobId)
    requires j in db.jobs
    ensures var after := SweepDead(db, staleAfter, sweeper, skipped, backoff, now);
            var job := db.jobs[j];
            && j in after.jobs
            && (forall pool :: pool in after.heartbeats <==>
                  pool in db.heartbeats && !Dead(db, staleAfter, sweeper, skipped, now, pool))
            && (forall lane :: lane in after.lanes <==>
                  lane in db.lanes && !Dead(db, staleAfter, sweeper, skipped, now, db.lanes[lane]))
            && if job.lock.Some? && Dead(db, staleAfter, sweeper, skipped, now, job.lock.value.owner)
               then after.jobs[j] == job.(lock := None, runAt := Max(now, job.runAt) + backoff(job.attempts),
                                          lastError := after.jobs[j].lastError)
                    && after.jobs[j].lastError == Some("Worker " + job.lock.value.owner +
                         " stopped sending heartbeats (crashed or blocked); released by crash recovery")
               else after.jobs[j] == job
  {
  }

  /** No heartbeat of the pool older than `since` is stored. */
  predicate BeatsSince(s: Sys, pool: PoolId, since: Time) {
    since <= s.clock && (pool in s.db.heartbeats ==> since <= s.db.heartbeats[pool])
  }

  lemma BeatsStay(b: Backoff, s: Sys, e: Event, t: Sys, pool: PoolId, since: Time)
    requires BeatsSince(s, pool, since) && t == Apply(b, s, e)
    ensures BeatsSince(t, pool, since)
  {
    if e.Enter? {
      if MayEnter(s, e.token, e.waitId) {
        EntriesBeatNothing(b, s, e.token, e.waitId, e.count, e.prepared, e.timeout);
      }
    } else {
      OthersKeepBeats(b, s, e, t, pool, since);
    }
  }

  lemma OthersKeepBeats(b: Backoff, s: Sys, e: Event, t: Sys, pool: PoolId, since: Time)
    requires !e.Enter? && BeatsSince(s, pool, since) && t == Apply(b, s, e)
    ensures BeatsSince(t, pool, since)
  {
    if OfLibrary(e) { LibraryBeatsNothing(b, s, e, t); }
  }

  lemma LibraryBeatsNothing(b: Backoff, s: Sys, e: Event, t: Sys)
    requires !e.Enter? && OfLibrary(e) && t == Apply(b, s, e)
    ensures t.clock == s.clock && t.db.heartbeats == s.db.heartbeats
  {
    if e.Settled? { SettlementsBeatNothing(b, s, e, t); } else { RestBeatsNothing(b, s, e, t); }
  }

  lemma SettlementsBeatNothing(b: Backoff, s: Sys, e: Event, t: Sys)
    requires e.Settled? && t == Apply(b, s, e)
    ensures t.clock == s.clock && t.db.heartbeats == s.db.heartbeats
  {
  }

  lemma RestBeatsNothing(b: Backoff, s: Sys, e: Event, t: Sys)
    requires !e.Enter? && !e.Settled? && OfLibrary(e) && t == Apply(b, s, e)
    ensures t.clock == s.clock && t.db.heartbeats == s.db.heartbeats
  {
  }

  lemma EntriesBeatNothing(b: Backoff, s: Sys, token: Token, waitId: StepId, count: nat, prepared: Prepared,
                           timeout: Option<nat>)
    requires MayEnter(s, token, waitId)
    ensures var t := DoEnter(b, s, token, waitId, count, prepared, timeout);
            t.clock == s.clock && t.db.heartbeats == s.db.heartbeats
  {
    EnterMatches(b, s, token, waitId, count, prepared, timeout);
  }

  lemma {:induction false} RunsBeat(b: Backoff, s: Sys, events: seq<Event>, pool: PoolId, since: Time)
    requires BeatsSince(s, pool, since)
    ensures BeatsSince(After(b, s, events), pool, since)
  {
    if events != [] {
      var n := |events| - 1;
      RunsBeat(b, s, events[..n], pool, since);
      BeatsStay(b, After(b, s, events[..n]), events[n], After(b, s, events), pool, since);
    }
  }

  /** Whatever happens after a worker's heartbeat, sweeps included, no sweep takes its jobs before
      `staleAfter` has passed since. */
  lemma {:induction false} BeatsProtect(b: Backoff, s: Sys, pool: PoolId, events: seq<Event>, e: Event, j: JobId)
    requires var t := After(b, Apply(b, s, Heartbeat(pool)), events);
             && e.Recover? && t.clock - s.clock <= e.staleAfter
             && j in t.db.jobs && LockedBy(t.db.jobs[j], {pool})
    ensures var t := After(b, Apply(b, s, Heartbeat(pool)), events);
            j in Apply(b, t, e).db.jobs && Apply(b, t, e).db.jobs[j] == t.db.jobs[j]
  {
    RunsBeat(b, Apply(b, s, Heartbeat(pool)), events, pool, s.clock);
    FreshPoolsAreSpared(b, After(b, Apply(b, s, Heartbeat(pool)), events), pool, s.clock, e, j);
  }

  lemma FreshPoolsAreSpared(b: Backoff, t: Sys, pool: PoolId, since: Time, e: Event, j: JobId)
    requires BeatsSince(t, pool, since) && e.Recover? && t.clock - since <= e.staleAfter
    requires j in t.db.jobs && LockedBy(t.db.jobs[j], {pool})
    ensures j in Apply(b, t, e).db.jobs && Apply(b, t, e).db.jobs[j] == t.db.jobs[j]
  {
  }
}
