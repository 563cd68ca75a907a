/** The tables as worker processes change them: one method per exported function of
    src/private-jobs.ts and per maintenance statement, each one committed transaction.
    Module Tables specifies them; modules Invariants to Lookup prove what follows. */
module PrivateJobs {
  import opened Wrappers
  import opened Tables

  class Database {
    var nextId: JobId
    var jobs: map<JobId, Job>
    var groups: map<GroupKey, Group>
    var outcomes: map<JobId, Outcome>
    var lanes: map<Lane, PoolId>
    var heartbeats: map<PoolId, Time>
    const backoff: Backoff

    ghost function View(): Db
      reads this
    {
      Db(nextId, jobs, groups, outcomes, lanes, heartbeats)
    }

    constructor (backoff: Backoff)
      ensures View() == Db(0, map[], map[], map[], map[], map[]) && this.backoff == backoff
    {
      this.backoff := backoff;
      nextId := 0;
      jobs, groups, outcomes, lanes, heartbeats := map[], map[], map[], map[], map[];
    }

    /** The `owned()` condition of every statement an attempt issues. */
    predicate Holds(token: Token)
      reads this
      ensures Holds(token) == Owns(View(), token)
    {
      token.job in jobs && jobs[token.job].lock == Some(token.lock)
    }

    /** Graphile's add_job, for a key no unlocked job holds. */
    method AddJob(spec: JobSpec, now: Time) returns (id: JobId)
      modifies this`nextId, this`jobs
      ensures View() == Tables.AddJob(old(View()), spec, now) && id == old(nextId)
    {
      jobs := YieldKey(jobs, spec.key);
      id := nextId;
      jobs := jobs[id := NewRow(spec, now)];
      nextId := nextId + 1;
    }

    /** Resolve wait rows, count them against their groups, then wake the parents of the
        groups that this left without children. */
    method ReportWaits(verdict: Verdict, now: Time)
      modifies this
      ensures View() == ReportAll(old(View()), verdict, now)
    {
      var finished := set key | key in groups && Finishes(key, groups[key], verdict);
      groups := map key | key in groups :: groups[key].(waits := Resolve(key, groups[key].waits, verdict, now),
                                                        remaining := groups[key].remaining - Hits(key, groups[key], verdict));
      var parents := set key | key in finished :: key.parent;
      assert forall j :: j in parents <==> Wakes(old(groups), verdict, j);
      jobs := map j | j in jobs :: if j in parents then jobs[j].(runAt := Min(jobs[j].runAt, now)) else jobs[j];
    }

    method SettleJob(token: Token, settlement: Settlement, now: Time) returns (owned: bool)
      modifies this
      ensures View() == Settle(old(View()), token, settlement, now)
      ensures owned == old(Holds(token))
    {
      owned := Holds(token);
      if !owned { return; }
      var id := token.job;
      if settlement.outcome.Some? {
        outcomes := outcomes[id := OutcomeOf(jobs[id], settlement.outcome.value, now)];
      }
      if settlement.report.Some? { ReportWaits(Verdict(map[id := settlement.report.value], {}), now); }
      match settlement.row
      case Exhaust => jobs := jobs[id := jobs[id].(maxAttempts := jobs[id].attempts)];
      case Delete =>
        var lane := jobs[id].lane;
        jobs := jobs - {id};
        lanes := FreeLane(lanes, lane, token.lock.owner);
      case Keep =>
    }

    /** Returns the continuation's id, or nothing without the attempt's lock. */
    method ContinueJob(token: Token, runAt: Option<Time>, traceparent: Option<string>, latest: Option<Json>,
                       record: bool, now: Time) returns (id: Option<JobId>)
      modifies this
      ensures View() == Continue(old(View()), token, runAt, traceparent, latest, record, now)
      ensures id == if old(Holds(token)) then Some(old(nextId)) else None
    {
      if !Holds(token) { return None; }
      var job := jobs[token.job];
      var next := AddJob(ContinuationSpec(job, runAt, traceparent, latest), now);
      // A keyed job was exhausted by the enqueue; this covers an unkeyed one.
      jobs := jobs[token.job := jobs[token.job].(maxAttempts := jobs[token.job].attempts)];
      if job.envelope.waited { groups := Follow(groups, token.job, next); }
      if record { var _ := SettleJob(token, Settlement(Some(Continued(next)), None, Delete), now); }
      return Some(next);
    }

    /** The prepared enqueue inside a wait: every id in order, or nothing for a lost one. */
    method Enqueue(children: seq<Child>, now: Time) returns (ids: seq<JobId>, complete: bool)
      modifies this`nextId, this`jobs
      ensures complete == forall i :: 0 <= i < |children| ==> !children[i].Missing?
      ensures complete ==> (View(), ids) == AddChildren(old(View()), children, now)
    {
      ids, complete := [], true;
      for i := 0 to |children|
        invariant complete == forall k :: 0 <= k < i ==> !children[k].Missing?
        invariant complete ==> (View(), ids) == AddChildren(old(View()), children[..i], now)
      {
        assert children[..i + 1][..i] == children[..i];
        match children[i]
        case New(spec) =>
          var id := AddJob(spec, now);
          ids := ids + [id];
        case Existing(id) => ids := ids + [id];
        case Missing => complete := false;
      }
      assert children[..|children|] == children;
    }

    /** One wait of the locked job. A rejected entry rolls everything back. */
    method EnterWait(token: Token, waitId: StepId, count: nat, prepared: Prepared, timeout: Option<nat>,
                     again: bool, now: Time) returns (entered: Entered)
      modifies this
      ensures (View(), entered) == Tables.EnterWait(old(View()), token, waitId, count, prepared, timeout, again, backoff, now)
    {
      if !Holds(token) { return Rejected; }
      var key := GroupKey(token.job, waitId);
      var savedId, savedJobs, savedGroups := nextId, jobs, groups;
      var expired := false;
      if key in groups {
        expired := Expired(groups[key], now);
      } else {
        if prepared.Skipped? { return Rejected; }
        var ids, complete := Enqueue(prepared.children, now);
        if !complete || |ids| != count {
          nextId, jobs, groups := savedId, savedJobs, savedGroups;
          return Rejected;
        }
        var deadline := if timeout.Some? then Some(now + timeout.value) else None;
        jobs := MarkWaited(jobs, ids);
        groups := groups[key := Group(count, deadline, FreshWaits(ids))];
      }
      var group := groups[key];
      if group.remaining == 0 || expired {
        var checkpoint := FinishWait(key);
        return Finished(checkpoint);
      }
      jobs := jobs[token.job := SuspendRow(jobs[token.job], Deadline(group), again, backoff)];
      return Suspended;
    }

    /** Checkpoint the wait's results in its parent's envelope and delete its group. */
    method FinishWait(key: GroupKey) returns (checkpoint: Checkpoint)
      requires key in groups && key.parent in jobs
      modifies this
      ensures View() == Tables.FinishWait(old(View()), key) && checkpoint == CheckpointOf(old(groups)[key])
    {
      var group := groups[key];
      if group.remaining == 0 { checkpoint := Results(Collect(group.waits)); }
      else { checkpoint := TimedOut(Unfinished(group.waits)); }
      var job := jobs[key.parent];
      jobs := jobs[key.parent := job.(envelope := job.envelope.(steps := job.envelope.steps[key.waitId := checkpoint]))];
      groups := groups - {key};
    }

    method WriteCheckpoint(token: Token, step: StepId, value: Option<Json>) returns (written: bool)
      modifies this
      ensures View() == Tables.WriteCheckpoint(old(View()), token, step, value) && written == old(Holds(token))
    {
      written := Holds(token);
      if written {
        var job := jobs[token.job];
        jobs := jobs[token.job := job.(envelope := job.envelope.(steps := job.envelope.steps[step := Output(value)]))];
      }
    }

    method WriteProgress(token: Token, value: Json) returns (written: bool)
      modifies this
      ensures View() == Tables.WriteProgress(old(View()), token, value) && written == old(Holds(token))
    {
      written := Holds(token);
      if written {
        var job := jobs[token.job];
        jobs := jobs[token.job := job.(envelope := job.envelope.(progress := Some(value)))];
      }
    }

    /** Returns when the retry is expected, which is when a failure update made now sets it. */
    method ScheduleRetry(token: Token, at: Time, now: Time) returns (retryAt: Option<Time>)
      modifies this
      ensures View() == Tables.ScheduleRetry(old(View()), token, at, backoff)
      ensures retryAt == if old(Holds(token)) then Some(FailRow(jobs[token.job], backoff, now).runAt) else None
    {
      if !Holds(token) { return None; }
      var job := jobs[token.job];
      jobs := jobs[token.job := job.(runAt := at - backoff(job.attempts))];
      return Some(Max(now, at - backoff(job.attempts)) + backoff(job.attempts));
    }

    /** The attempt taken when a dead pool locked a job stays spent. */
    method ReleaseJobsLockedBy(pools: set<PoolId>, now: Time) returns (released: set<JobId>)
      modifies this
      ensures View() == ReleaseLockedBy(old(View()), pools, backoff, now)
      ensures released == set j | j in old(jobs) && old(jobs)[j].lock.Some? && old(jobs)[j].lock.value.owner in pools
    {
      released := set j | j in jobs && jobs[j].lock.Some? && jobs[j].lock.value.owner in pools;
      jobs := map j | j in jobs :: if j in released then ReleaseRow(jobs[j], backoff, now) else jobs[j];
      lanes := map lane | lane in lanes && lanes[lane] !in pools :: lanes[lane];
    }

    method Heartbeat(pool: PoolId, now: Time)
      modifies this
      ensures View() == Tables.Beat(old(View()), pool, now)
    {
      heartbeats := heartbeats[pool := now];
    }

    method SweepDeadWorkers(staleAfter: nat, sweeper: PoolId, skipped: set<PoolId>, now: Time)
      returns (dead: set<PoolId>, released: set<JobId>)
      modifies this
      ensures View() == SweepDead(old(View()), staleAfter, sweeper, skipped, backoff, now)
      ensures dead == DeadPools(old(View()), staleAfter, sweeper, skipped, now) && sweeper !in dead
      ensures forall j :: j in released ==> j in old(jobs) && old(jobs)[j].lock.Some? && old(jobs)[j].lock.value.owner in dead
    {
      dead := set pool | pool in heartbeats && heartbeats[pool] < now - staleAfter && pool != sweeper
                         && pool !in skipped;
      heartbeats := heartbeats - dead;
      released := {};
      if dead != {} {
        released := ReleaseJobsLockedBy(dead, now);
      } else {
        assert jobs == ReleaseLockedBy(View(), dead, backoff, now).jobs;
        assert lanes == ReleaseLockedBy(View(), dead, backoff, now).lanes;
      }
    }

    /** The first of the three statements of `sweepWaits`; returns the lost children. WakeFinishedParents
        and DropOrphanGroups are the others. */
    method ReportLostChildren(skipped: set<WaitKey>, now: Time) returns (lost: set<JobId>)
      modifies this
      ensures View() == ReportLost(old(View()), skipped, now)
      ensures lost == set key, i | key in old(groups) && 0 <= i < |old(groups)[key].waits|
                        && Hit(key, i, old(groups)[key].waits[i], LostVerdict(old(View()), skipped))
                      :: old(groups)[key].waits[i].child
    {
      var verdict := LostVerdict(Db(nextId, jobs, groups, outcomes, lanes, heartbeats), skipped);
      lost := set key, i | key in groups && 0 <= i < |groups[key].waits| && Hit(key, i, groups[key].waits[i], verdict)
              :: groups[key].waits[i].child;
      ReportWaits(verdict, now);
    }

    /** Groups of parents that no longer exist. */
    method DropOrphanGroups()
      modifies this`groups
      ensures View() == DropOrphans(old(View()))
    {
      groups := map key | key in groups && key.parent in jobs :: groups[key];
    }

    method WakeFinishedParents(now: Time)
      modifies this`jobs
      ensures View() == WakeFinished(old(View()), now)
    {
      var finished := set key | key in groups && groups[key].remaining == 0 :: key.parent;
      assert forall j :: j in finished <==> HasFinishedGroup(groups, j);
      jobs := map j | j in jobs ::
        if j in finished && jobs[j].lock.None? && now < jobs[j].runAt && !Exhausted(jobs[j])
        then jobs[j].(runAt := now) else jobs[j];
    }

    method PruneJobOutcomes(retention: nat, skipped: set<JobId>, now: Time)
      modifies this
      ensures View() == PruneOutcomes(old(View()), retention, skipped, now)
    {
      var expired := set id | id in outcomes && outcomes[id].finishedAt < now - retention && id !in skipped;
      outcomes := outcomes - expired;
    }
  }
}
