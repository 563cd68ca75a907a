/** A finished wait wakes its parent. */
module Wakeups {
  import opened Wrappers
  import opened Tables
  import opened Protocol
  import opened Invariants

  /** A parent whose group is finished is due: by the time its last child reported if it
      suspended in the run that holds it or sleeps on an earlier wakeup, and otherwise at most
      one backoff after the failure update that unlocked it. */
  ghost predicate WokenInTime(b: Backoff, s: Sys, key: GroupKey)
    requires key in s.db.groups && key.parent in s.db.jobs
  {
    var j, job, done := key.parent, s.db.jobs[key.parent], DoneAt(s.db.groups[key]);
    && (job.lock.Some? ==> job.runAt <= s.clock)
    && (SuspendedRun(s, j) ==> job.runAt <= done)
    && (job.lock.None? && j !in s.hist.failedAt ==> job.runAt <= done)
    && (job.lock.None? && j in s.hist.failedAt ==> job.runAt <= Max(done, s.hist.failedAt[j] + b(job.attempts)))
  }

  lemma DueIsInTime(b: Backoff, s: Sys, key: GroupKey)
    requires WakeOk(b, s) && key in s.db.groups && key.parent in s.db.jobs
    requires s.db.groups[key].remaining == 0 && key !in s.hist.excused
    ensures WokenInTime(b, s, key)
  {
    assert DueOk(b, s, key);
  }

  /** Every reachable state has woken the parent of each finished group in time, except for the
      groups that ExcusedIff names. */
  lemma {:induction false} NoLostWakeup(b: Backoff, events: seq<Event>, key: GroupKey)
    requires Monotone(b)
    ensures var s := After(b, START, events);
            (key in s.db.groups && s.db.groups[key].remaining == 0
             && key.parent in s.db.jobs && key !in s.hist.excused) ==> WokenInTime(b, s, key)
  {
    var s := After(b, START, events);
    Reachable(b, events);
    if key in s.db.groups && s.db.groups[key].remaining == 0 && key.parent in s.db.jobs && key !in s.hist.excused {
      DueIsInTime(b, s, key);
    }
  }

  /** The event puts a parent to sleep beside this group, which has finished: a scheduled retry,
      or the first suspension of a run. */
  ghost predicate Excuses(b: Backoff, s: Sys, e: Event, key: GroupKey) {
    (e.Retry? || e.Enter?) && e.token.job == key.parent && Owns(s.db, e.token)
    && key in s.db.groups && s.db.groups[key].remaining == 0
    && if e.Retry? then MaySettle(s, e.token) else FirstSuspension(b, s, e)
  }

  /** Exactly when a group is excused after an event: a claim of its parent ends every excuse,
      and otherwise it was excused or is put aside finished; a group that finishes later never
      is, whatever other group of the same parent was. */
  lemma {:induction false} ExcusedIff(b: Backoff, s: Sys, e: Event, key: GroupKey)
    requires Inv(b, s)
    ensures key in Apply(b, s, e).hist.excused <==>
              (key in s.hist.excused && !(e.Claim? && e.job == key.parent && Claimable(s, e.job))) || Excuses(b, s, e, key)
  {
    if e.Enter? {
      if MayEnter(s, e.token, e.waitId) && 0 < e.count && KnownChildren(s.db, e.prepared) {
        EntersExcuse(b, s, e.token, e.waitId, e.count, e.prepared, e.timeout, key);
      }
    } else {
      OthersExcuse(b, s, e, key);
    }
  }

  lemma OthersExcuse(b: Backoff, s: Sys, e: Event, key: GroupKey)
    requires !e.Enter?
    ensures key in Apply(b, s, e).hist.excused <==>
              (key in s.hist.excused && !(e.Claim? && e.job == key.parent && Claimable(s, e.job)))
              || (e.Retry? && MaySettle(s, e.token) && Owns(s.db, e.token) && key in FinishedGroups(s.db.groups, e.token.job))
  {
    if !e.Claim? && !e.Retry? { OthersExcuseNothing(b, s, e); }
  }

  lemma OthersExcuseNothing(b: Backoff, s: Sys, e: Event)
    requires !e.Enter? && !e.Claim? && !e.Retry?
    ensures Apply(b, s, e).hist.excused == s.hist.excused
  {
  }

  lemma OpenExcusesNothing(s: Sys, open: GroupKey, children: seq<Child>, timeout: Option<nat>, key: GroupKey)
    requires forall i :: 0 <= i < |children| ==> !children[i].Missing?
    requires children != [] && open !in s.db.groups && forall j :: j in s.db.jobs ==> j < s.db.nextId
    ensures var t := DoOpen(s, open, children, timeout);
            && t.hist.excused == s.hist.excused && t.runs == s.runs && open in t.db.groups
            && FinishedGroups(t.db.groups, open.parent) == FinishedGroups(s.db.groups, open.parent)
            && forall j :: j in s.db.jobs ==> j in t.db.jobs
  {
    AddAllMatches(s, children);
    var t := DoOpen(s, open, children, timeout);
    assert t.db.groups == s.db.groups[open := t.db.groups[open]];
  }

  lemma EntersExcuse(b: Backoff, s: Sys, token: Token, waitId: StepId, count: nat, prepared: Prepared,
                     timeout: Option<nat>, key: GroupKey)
    requires Inv(b, s) && MayEnter(s, token, waitId) && 0 < count
    ensures var t := DoEnter(b, s, token, waitId, count, prepared, timeout);
            && token in t.runs
            && (key in t.hist.excused <==>
                  key in s.hist.excused
                  || (Owns(s.db, token) && s.runs[token].ended.None? && t.runs[token].ended.Some?
                      && key in FinishedGroups(s.db.groups, token.job)))
  {
    var open := GroupKey(token.job, waitId);
    if Owns(s.db, token) && open !in s.db.groups && Enqueues(prepared, count) {
      IdsAreHandedOut(b, s);
      OpenExcusesNothing(s, open, prepared.children, timeout, key);
    }
  }

  /** What a first suspension does to a wakeup it did not consume: the suspending row aims at
      its own deadline from infinity, so it is still due exactly if that deadline is. */
  lemma ForgottenWakeup(b: Backoff, s: Sys, token: Token, key: GroupKey)
    requires MaySuspend(s, token, key) && s.runs[token].ended.None?
    ensures var row := DoSuspend(b, s, token, key).db.jobs[token.job];
            row.runAt <= s.clock <==> Deadline(s.db.groups[key]) <= s.clock + b(row.attempts)
  {
  }

  /** Right after the sweep's second statement no finished group has an unlocked parent with
      attempts left that is not due, excused or not. */
  lemma SweepsWakeTheFinished(db: Db, now: Time, key: GroupKey)
    requires key in db.groups && db.groups[key].remaining == 0 && key.parent in db.jobs
    ensures var after := WakeFinished(db, now);
            && key.parent in after.jobs
            && var job := after.jobs[key.parent];
            (job.lock.None? && !Exhausted(job) ==> job.runAt <= now)
  {
    assert HasFinishedGroup(db.groups, key.parent);
  }

  /** The three statements with no commit between them: every group left has a parent, and no
      finished one a parent that sleeps with attempts left. */
  lemma UndisturbedSweepsLeaveNothing(db: Db, skipped: set<WaitKey>, now: Time, key: GroupKey)
    ensures var after := DropOrphans(WakeFinished(ReportLost(db, skipped, now), now));
            key in after.groups ==>
              && key.parent in after.jobs
              && var job := after.jobs[key.parent];
              (after.groups[key].remaining == 0 && job.lock.None? && !Exhausted(job) ==> job.runAt <= now)
  {
    var reported := ReportLost(db, skipped, now);
    if key in reported.groups && key.parent in reported.jobs && reported.groups[key].remaining == 0 {
      SweepsWakeTheFinished(reported, now, key);
    }
  }

  /** Its third statement drops exactly the groups whose parent has no row. */
  lemma SweepsDropTheOrphans(b: Backoff, s: Sys, t: Sys, key: GroupKey)
    requires t == Apply(b, s, SweepOrphans)
    ensures key in t.db.groups <==> key in s.db.groups && key.parent in s.db.jobs
    ensures key in t.db.groups ==> t.db.groups[key] == s.db.groups[key]
    ensures t.db == s.db.(groups := t.db.groups)
  {
  }

  /** What a sweep reports of a child without a final report: the row is gone, or it is unlocked
      and has no attempt left. */
  predicate LostAs(jobs: map<JobId, Job>, child: JobId, report: Report) {
    if child !in jobs then
      report == Errored("ChildJobLostError",
        "The child job finished without reporting a result (deleted, or run by a worker without wait support)")
    else
      && jobs[child].lock.None? && jobs[child].maxAttempts <= jobs[child].attempts
      && report == Errored("ChildJobLostError", jobs[child].lastError.GetOr("The child job failed permanently"))
  }

  /** Its first statement resolves every unresolved wait whose child is lost, unless the row was
      held by another transaction, and no other row. */
  lemma SweepsResolveTheLost(db: Db, skipped: set<WaitKey>, now: Time, key: GroupKey, i: nat)
    requires key in db.groups && i < |db.groups[key].waits| && db.groups[key].waits[i].result.None?
    ensures var after, wait := ReportLost(db, skipped, now).groups, db.groups[key].waits[i];
            && key in after && |after[key].waits| == |db.groups[key].waits|
            && if (wait.child in db.jobs ==>
                     db.jobs[wait.child].lock.None? && db.jobs[wait.child].maxAttempts <= db.jobs[wait.child].attempts)
                  && WaitKey(key, i) !in skipped
               then && after[key].waits[i].child == wait.child && after[key].waits[i].finishedAt == now
                    && after[key].waits[i].result.Some?
                    && LostAs(db.jobs, wait.child, after[key].waits[i].result.value)
               else after[key].waits[i] == wait
  {
    var child := db.groups[key].waits[i].child;
    LostAreReportedAsLost(db.jobs, child);
    LostAreHit(db, skipped, key, i);
    ReportsResolveHits(db, LostVerdict(db, skipped), now, key, i);
  }

  lemma LostAreReportedAsLost(jobs: map<JobId, Job>, child: JobId)
    ensures Lost(jobs, child) <==> child in jobs ==> jobs[child].lock.None? && jobs[child].maxAttempts <= jobs[child].attempts
    ensures Lost(jobs, child) ==> LostAs(jobs, child, LostReport(jobs, child))
  {
  }

  lemma LostAreHit(db: Db, skipped: set<WaitKey>, key: GroupKey, i: nat)
    requires key in db.groups && i < |db.groups[key].waits| && db.groups[key].waits[i].result.None?
    ensures var child, verdict := db.groups[key].waits[i].child, LostVerdict(db, skipped);
            && (Hit(key, i, db.groups[key].waits[i], verdict) <==> Lost(db.jobs, child) && WaitKey(key, i) !in skipped)
            && (Lost(db.jobs, child) ==> child in verdict.reports && verdict.reports[child] == LostReport(db.jobs, child))
  {
    assert db.groups[key].waits[i].child in WaitedOn(db.groups);
  }

  lemma ReportsResolveHits(db: Db, verdict: Verdict, now: Time, key: GroupKey, i: nat)
    requires key in db.groups && i < |db.groups[key].waits|
    ensures var after, wait := ReportAll(db, verdict, now).groups, db.groups[key].waits[i];
            && key in after && |after[key].waits| == |db.groups[key].waits|
            && after[key].waits[i] == if Hit(key, i, wait, verdict)
                                      then Wait(wait.child, Some(verdict.reports[wait.child]), now) else wait
  {
  }

  // Sleepers --------------------------------------------------------------------------------

  /** When a settlement changes the time of a row it does not own: exactly when it reports the
      last unresolved children of one of that job's groups, and then to no later than now. */
  lemma ReportsWakeExactly(db: Db, token: Token, settlement: Settlement, now: Time, j: JobId)
    requires Owns(db, token) && j in db.jobs && j != token.job
    ensures var after := Settle(db, token, settlement, now);
            && j in after.jobs
            && after.jobs[j] == db.jobs[j].(runAt :=
                 if settlement.report.Some?
                 && Wakes(db.groups, Verdict(map[token.job := settlement.report.value], {}), j)
                 then Min(db.jobs[j].runAt, now) else db.jobs[j].runAt)
  {
  }

  /** What the statements of a sweep do to any row: the first brings it forward exactly when it
      resolves the last children of one of its groups, the second exactly when it sleeps beside a
      finished one, and nothing else of it changes. */
  lemma SweepsWakeExactly(db: Db, skipped: set<WaitKey>, now: Time, j: JobId)
    requires j in db.jobs
    ensures var after, job := ReportLost(db, skipped, now), db.jobs[j];
            && j in after.jobs
            && after.jobs[j] == job.(runAt :=
                 if Wakes(db.groups, LostVerdict(db, skipped), j) then Min(job.runAt, now) else job.runAt)
    ensures var after, job := WakeFinished(db, now), db.jobs[j];
            && j in after.jobs
            && after.jobs[j] == job.(runAt :=
                 if HasFinishedGroup(db.groups, j) && job.lock.None? && !Exhausted(job) then Min(job.runAt, now) else job.runAt)
  {
  }
}
