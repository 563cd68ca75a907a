/** What every event keeps. The modules that import this one read their results off it. */
module Invariants {
  import opened Wrappers
  import opened Tables
  import opened Protocol

  ghost predicate Monotone(b: Backoff) { forall m, n :: m <= n ==> b(m) <= b(n) }

  // Wait rows -------------------------------------------------------------------------

  lemma {:induction false} ResolvingCounts(key: GroupKey, waits: seq<Wait>, verdict: Verdict, now: Time, n: nat)
    requires n <= |waits|
    ensures PendingIn(Resolve(key, waits, verdict, now), n) == PendingIn(waits, n) - HitsIn(key, waits, verdict, n)
  {
    if n > 0 { ResolvingCounts(key, waits, verdict, now, n - 1); }
  }

  lemma {:induction false} FollowingKeepsPending(waits: seq<Wait>, from: JobId, to: JobId, n: nat)
    requires n <= |waits|
    ensures PendingIn(FollowRows(waits, from, to), n) == PendingIn(waits, n)
  {
    if n > 0 { FollowingKeepsPending(waits, from, to, n - 1); }
  }

  lemma {:induction false} FreshAllPending(ids: seq<JobId>, n: nat)
    requires n <= |ids|
    ensures PendingIn(FreshWaits(ids), n) == n
  {
    if n > 0 { FreshAllPending(ids, n - 1); }
  }

  lemma {:induction false} NonePending(waits: seq<Wait>, n: nat)
    requires n <= |waits|
    ensures PendingIn(waits, n) == 0 <==> forall i :: 0 <= i < n ==> waits[i].result.Some?
  {
    if n > 0 { NonePending(waits, n - 1); }
  }

  /** When the latest of the first `n` rows was resolved. */
  function DoneIn(waits: seq<Wait>, n: nat): Time
    requires n <= |waits|
  {
    if n == 0 then 0 else Max(DoneIn(waits, n - 1), waits[n - 1].finishedAt)
  }

  /** When a group's last child reported. */
  function DoneAt(group: Group): Time { DoneIn(group.waits, |group.waits|) }

  lemma {:induction false} ResolvingStamps(key: GroupKey, waits: seq<Wait>, verdict: Verdict, now: Time, n: nat)
    requires n <= |waits|
    ensures HitsIn(key, waits, verdict, n) > 0 ==> now <= DoneIn(Resolve(key, waits, verdict, now), n)
    ensures HitsIn(key, waits, verdict, n) == 0 ==>
      DoneIn(Resolve(key, waits, verdict, now), n) == DoneIn(waits, n)
  {
    if n > 0 { ResolvingStamps(key, waits, verdict, now, n - 1); }
  }

  lemma {:induction false} FollowingKeepsStamps(waits: seq<Wait>, from: JobId, to: JobId, n: nat)
    requires n <= |waits|
    ensures DoneIn(FollowRows(waits, from, to), n) == DoneIn(waits, n)
  {
    if n > 0 { FollowingKeepsStamps(waits, from, to, n - 1); }
  }

  // The invariant ---------------------------------------------------------------------

  /** The attempt that holds a locked row is in memory, agrees with the row's checkpoints,
      and still has its attempt to give back until an ending commits. */
  ghost predicate AttemptOk(s: Sys, j: JobId)
    requires j in s.db.jobs && s.db.jobs[j].lock.Some? && j in s.hist.spent
  {
    var token := Token(j, s.db.jobs[j].lock.value);
    && token in s.runs
    && j in s.hist.lastLock && s.hist.lastLock[j] == token.lock.at
    && s.runs[token].cache == s.db.jobs[j].envelope.steps.Keys
    && (s.runs[token].ended.None? ==> 1 <= s.hist.spent[j])
    && (j in s.hist.next ==> s.runs[token].ended == Some(ContinuedTo(s.hist.next[j])))
  }

  ghost predicate JobOk(s: Sys, j: JobId)
    requires j in s.db.jobs
  {
    var job := s.db.jobs[j];
    && j in s.hist.born && j in s.hist.spent
    && s.hist.spent[j] <= job.attempts <= job.maxAttempts <= s.hist.born[j].maxAttempts
    && job.envelope.input == s.hist.born[j].input
    && (j in s.hist.next ==> Exhausted(job))
    && (job.lock.Some? ==> AttemptOk(s, j))
  }

  ghost predicate JobsOk(s: Sys) { forall j :: j in s.db.jobs ==> JobOk(s, j) }

  /** Every id was handed out once, and no job was claimed beyond its budget. */
  ghost predicate LivesOk(s: Sys) {
    && s.hist.spent.Keys == s.hist.born.Keys
    && (forall j: JobId :: j in s.hist.born <==> j < s.db.nextId)
    && (forall j :: j in s.hist.born ==> 0 <= s.hist.spent[j] <= s.hist.born[j].maxAttempts)
    && (forall token :: token in s.runs ==>
          token.job in s.hist.born && token.job in s.hist.lastLock && token.lock.at <= s.hist.lastLock[token.job])
    && (forall j :: j in s.hist.lastLock ==> s.hist.lastLock[j] <= s.clock)
    && (forall j :: j in s.hist.failedAt ==> s.hist.failedAt[j] <= s.clock)
  }

  /** Continuations form chains of ever newer jobs that carry one input. */
  ghost predicate ChainsOk(s: Sys) {
    && (forall j :: j in s.hist.next ==>
          && j in s.hist.born && s.hist.next[j] in s.hist.born && j < s.hist.next[j]
          && s.hist.born[s.hist.next[j]].input == s.hist.born[j].input)
    && (forall i, j :: i in s.hist.next && j in s.hist.next && s.hist.next[i] == s.hist.next[j] ==> i == j)
  }

  /** An unresolved row points at the newest job of its child's chain, whose mark makes a
      continuation take the row along. */
  ghost predicate WaitOk(s: Sys, wait: Wait) {
    wait.child in s.hist.born && (wait.result.None? ==>
      && (wait.child in s.hist.next ==> wait.child in s.hist.stale)
      && (wait.child in s.db.jobs ==> s.db.jobs[wait.child].envelope.waited))
  }

  ghost predicate GroupOk(s: Sys, key: GroupKey)
    requires key in s.db.groups
  {
    var group := s.db.groups[key];
    && key.parent in s.hist.born
    && s.hist.enqueued[key] == 1
    && group.remaining == Pending(group.waits)
    && (forall i :: 0 <= i < |group.waits| ==> WaitOk(s, group.waits[i]))
  }

  ghost predicate GroupsOk(s: Sys) { forall key :: key in s.db.groups ==> GroupOk(s, key) }

  /** A wait's children were enqueued once, and until the parent's row is gone their group
      or their checkpoint remembers it. */
  ghost predicate EnqueuedOk(s: Sys) {
    forall key :: key in s.hist.enqueued ==>
      && s.hist.enqueued[key] == 1 && key.parent in s.hist.born
      && (key.parent in s.db.jobs ==>
            key in s.db.groups || key.waitId in s.db.jobs[key.parent].envelope.steps)
  }

  ghost predicate SuspendedRun(s: Sys, j: JobId)
    requires j in s.db.jobs
  {
    && s.db.jobs[j].lock.Some?
    && var token := Token(j, s.db.jobs[j].lock.value);
    && token in s.runs && s.runs[token].ended.Some? && s.runs[token].ended.value.Waiting?
  }

  /** A parent whose group finished is due: while it is locked, no later than now, and no
      later than the last report if it suspended; once unlocked, no later than that report
      or one backoff after the failure update that unlocked it. Excused are the groups that had
      finished when their parent asked for a later retry or suspended for the first time in its
      run (see ForgottenWakeup). */
  ghost predicate DueOk(b: Backoff, s: Sys, key: GroupKey)
    requires key in s.db.groups && key.parent in s.db.jobs
  {
    var j, job := key.parent, s.db.jobs[key.parent];
    s.db.groups[key].remaining == 0 && key !in s.hist.excused ==>
      var done := DoneAt(s.db.groups[key]);
      && (job.lock.Some? ==> job.runAt <= s.clock)
      && (SuspendedRun(s, j) ==> job.runAt <= done)
      && (job.lock.None? ==>
            job.runAt <= if j in s.hist.failedAt then Max(done, s.hist.failedAt[j] + b(job.attempts)) else done)
  }

  ghost predicate WakeOk(b: Backoff, s: Sys) {
    forall key :: key in s.db.groups && key.parent in s.db.jobs ==> DueOk(b, s, key)
  }

  ghost predicate Inv(b: Backoff, s: Sys) {
    JobsOk(s) && LivesOk(s) && ChainsOk(s) && GroupsOk(s) && EnqueuedOk(s) && WakeOk(b, s)
  }

  // Changes to one row ------------------------------------------------------------------

  /** The two systems differ only in job `j`: its row, its attempts and its history. */
  ghost predicate Elsewhere(s: Sys, t: Sys, j: JobId) {
    && t.clock == s.clock && t.db.nextId == s.db.nextId && t.db.groups == s.db.groups
    && t.db.jobs.Keys == s.db.jobs.Keys
    && (forall i :: i in s.db.jobs && i != j ==> t.db.jobs[i] == s.db.jobs[i])
    && s.runs.Keys <= t.runs.Keys
    && (forall token :: token in t.runs && token.job != j ==> token in s.runs && t.runs[token] == s.runs[token])
    && t.hist.next == s.hist.next && t.hist.born == s.hist.born
    && t.hist.enqueued == s.hist.enqueued && t.hist.stale == s.hist.stale
    && t.hist.spent.Keys == s.hist.spent.Keys
    && (forall i :: i in s.hist.spent && i != j ==> t.hist.spent[i] == s.hist.spent[i])
    && (forall i :: i != j ==> (i in t.hist.lastLock <==> i in s.hist.lastLock))
    && (forall i :: i in s.hist.lastLock && i != j ==> t.hist.lastLock[i] == s.hist.lastLock[i])
    && (forall i :: i != j ==> (i in t.hist.failedAt <==> i in s.hist.failedAt))
    && (forall i :: i in s.hist.failedAt && i != j ==> t.hist.failedAt[i] == s.hist.failedAt[i])
    && (forall key: GroupKey :: key.parent != j ==> (key in t.hist.excused <==> key in s.hist.excused))
  }

  /** The part of LivesOk that speaks of one job. */
  ghost predicate LifeOk(s: Sys, j: JobId)
    requires j in s.hist.spent && j in s.hist.born
  {
    && 0 <= s.hist.spent[j] <= s.hist.born[j].maxAttempts
    && (forall token :: token in s.runs && token.job == j ==> j in s.hist.lastLock && token.lock.at <= s.hist.lastLock[j])
    && (j in s.hist.lastLock ==> s.hist.lastLock[j] <= s.clock)
    && (j in s.hist.failedAt ==> s.hist.failedAt[j] <= s.clock)
  }

  /** Nothing a change leaves out: checkpoints and the `waited` mark stay. */
  predicate Grows(before: Job, after: Job) {
    before.envelope.steps.Keys <= after.envelope.steps.Keys && (before.envelope.waited ==> after.envelope.waited)
  }

  lemma ChangeRow(b: Backoff, s: Sys, t: Sys, j: JobId)
    requires Inv(b, s) && Elsewhere(s, t, j) && j in s.db.jobs
    requires Grows(s.db.jobs[j], t.db.jobs[j])
    requires JobOk(t, j) && LifeOk(t, j)
    requires forall key :: key in t.db.groups && key.parent == j ==> DueOk(b, t, key)
    ensures Inv(b, t)
  {
    ChangeRowKeepsJobs(s, t, j);
    ChangeRowKeepsLives(s, t, j);
    ChangeRowKeepsGroups(s, t, j);
    ChangeRowKeepsEnqueued(s, t, j);
    ChangeRowKeepsDue(b, s, t, j);
  }

  lemma ChangeRowKeepsJobs(s: Sys, t: Sys, j: JobId)
    requires JobsOk(s) && Elsewhere(s, t, j) && j in s.db.jobs && JobOk(t, j)
    ensures JobsOk(t)
  {
    forall i | i in t.db.jobs ensures JobOk(t, i) {
      if i != j { assert JobOk(s, i); }
    }
  }

  lemma ChangeRowKeepsLives(s: Sys, t: Sys, j: JobId)
    requires LivesOk(s) && Elsewhere(s, t, j) && j in s.hist.born && LifeOk(t, j)
    ensures LivesOk(t)
  {
  }

  lemma ChangeRowKeepsGroups(s: Sys, t: Sys, j: JobId)
    requires GroupsOk(s) && Elsewhere(s, t, j) && j in s.db.jobs && Grows(s.db.jobs[j], t.db.jobs[j])
    ensures GroupsOk(t)
  {
    forall key | key in t.db.groups ensures GroupOk(t, key) {
      assert GroupOk(s, key);
      forall i | 0 <= i < |t.db.groups[key].waits| ensures WaitOk(t, t.db.groups[key].waits[i]) {
        assert WaitOk(s, s.db.groups[key].waits[i]);
      }
    }
  }

  lemma ChangeRowKeepsEnqueued(s: Sys, t: Sys, j: JobId)
    requires EnqueuedOk(s) && Elsewhere(s, t, j) && j in s.db.jobs && Grows(s.db.jobs[j], t.db.jobs[j])
    ensures EnqueuedOk(t)
  {
  }

  lemma ChangeRowKeepsDue(b: Backoff, s: Sys, t: Sys, j: JobId)
    requires WakeOk(b, s) && Elsewhere(s, t, j) && j in s.db.jobs
    requires forall key :: key in t.db.groups && key.parent == j ==> DueOk(b, t, key)
    ensures WakeOk(b, t)
  {
    forall key | key in t.db.groups && key.parent in t.db.jobs ensures DueOk(b, t, key) {
      if key.parent != j { assert DueOk(b, s, key); }
    }
  }

  lemma LifeOf(s: Sys, j: JobId)
    requires JobsOk(s) && LivesOk(s) && j in s.db.jobs
    ensures JobOk(s, j) && LifeOk(s, j)
  {
  }

  // Events on one row --------------------------------------------------------------------

  /** What `ChangeRow` asks of a change, apart from wakeups. */
  ghost predicate RowChange(s: Sys, t: Sys, j: JobId)
    requires j in s.db.jobs
  {
    Elsewhere(s, t, j) && Grows(s.db.jobs[j], t.db.jobs[j]) && JobOk(t, j) && LifeOk(t, j)
  }

  lemma ClaimRowKeeps(s: Sys, j: JobId, pool: PoolId)
    requires j in s.db.jobs && JobOk(s, j) && LifeOk(s, j) && Claimable(s, j)
    ensures RowChange(s, DoClaim(s, j, pool), j)
  {
  }

  lemma ClaimKeeps(b: Backoff, s: Sys, j: JobId, pool: PoolId)
    requires Inv(b, s) && Claimable(s, j)
    ensures Inv(b, DoClaim(s, j, pool))
  {
    LifeOf(s, j);
    ClaimRowKeeps(s, j, pool);
    ChangeRow(b, s, DoClaim(s, j, pool), j);
  }

  lemma FailRowKeeps(b: Backoff, s: Sys, j: JobId)
    requires j in s.db.jobs && JobOk(s, j) && LifeOk(s, j) && s.db.jobs[j].lock.Some?
    ensures RowChange(s, DoFail(b, s, j), j)
  {
  }

  lemma FailKeeps(b: Backoff, s: Sys, j: JobId)
    requires Inv(b, s) && j in s.db.jobs && s.db.jobs[j].lock.Some?
    ensures Inv(b, DoFail(b, s, j))
  {
    LifeOf(s, j);
    FailRowKeeps(b, s, j);
    ChangeRow(b, s, DoFail(b, s, j), j);
  }

  /** A run that may suspend: it holds the row and did not continue. */
  ghost predicate MaySuspend(s: Sys, token: Token, key: GroupKey) {
    && Owns(s.db, token) && token in s.runs
    && key in s.db.groups && key.parent == token.job && s.db.groups[key].remaining != 0
    && !(s.runs[token].ended.Some? && s.runs[token].ended.value.ContinuedTo?)
  }

  lemma SuspendRowKeeps(b: Backoff, s: Sys, token: Token, key: GroupKey)
    requires MaySuspend(s, token, key) && JobOk(s, token.job) && LifeOk(s, token.job)
    ensures RowChange(s, DoSuspend(b, s, token, key), token.job)
  {
  }

  lemma SuspendKeepsDue(b: Backoff, s: Sys, token: Token, key: GroupKey, other: GroupKey)
    requires MaySuspend(s, token, key) && other in s.db.groups && other.parent == token.job && DueOk(b, s, other)
    ensures DueOk(b, DoSuspend(b, s, token, key), other)
  {
  }

  lemma SuspendKeeps(b: Backoff, s: Sys, token: Token, key: GroupKey)
    requires Inv(b, s) && MaySuspend(s, token, key)
    ensures Inv(b, DoSuspend(b, s, token, key))
  {
    LifeOf(s, token.job);
    SuspendRowKeeps(b, s, token, key);
    var t := DoSuspend(b, s, token, key);
    forall k | k in t.db.groups && k.parent == token.job ensures DueOk(b, t, k) {
      SuspendKeepsDue(b, s, token, key, k);
    }
    ChangeRow(b, s, t, token.job);
  }

  lemma RetryKeeps(b: Backoff, s: Sys, token: Token, at: Time)
    requires Inv(b, s) && MaySettle(s, token)
    ensures Inv(b, DoRetry(b, s, token, at))
  {
    if Owns(s.db, token) {
      LifeOf(s, token.job);
      ChangeRow(b, s, DoRetry(b, s, token, at), token.job);
    }
  }

  lemma ProgressRow(s: Sys, token: Token, value: Json)
    requires token in s.runs && Owns(s.db, token) && JobOk(s, token.job) && LifeOk(s, token.job)
    ensures RowChange(s, s.(db := WriteProgress(s.db, token, value)), token.job)
  {
  }

  lemma ProgressKeeps(b: Backoff, s: Sys, token: Token, value: Json)
    requires Inv(b, s) && token in s.runs
    ensures Inv(b, s.(db := WriteProgress(s.db, token, value)))
  {
    if Owns(s.db, token) {
      LifeOf(s, token.job);
      ProgressRow(s, token, value);
      ChangeRow(b, s, s.(db := WriteProgress(s.db, token, value)), token.job);
    }
  }

  lemma ExhaustRow(s: Sys, token: Token)
    requires Owns(s.db, token) && JobOk(s, token.job) && LifeOk(s, token.job)
    ensures RowChange(s, s.(db := ActOnRow(s.db, token.job, Exhaust, token.lock.owner)), token.job)
  {
  }

  lemma ExhaustKeeps(b: Backoff, s: Sys, token: Token)
    requires Inv(b, s) && Owns(s.db, token)
    ensures Inv(b, s.(db := ActOnRow(s.db, token.job, Exhaust, token.lock.owner)))
  {
    LifeOf(s, token.job);
    ExhaustRow(s, token);
    ChangeRow(b, s, s.(db := ActOnRow(s.db, token.job, Exhaust, token.lock.owner)), token.job);
  }

  // Events on many rows ----------------------------------------------------------------

  lemma AddKeepsDue(b: Backoff, s: Sys, spec: JobSpec)
    requires Monotone(b) && WakeOk(b, s) && GroupsOk(s) && LivesOk(s) && JobsOk(s)
    ensures WakeOk(b, DoAdd(s, spec))
  {
    var t := DoAdd(s, spec);
    forall key | key in t.db.groups && key.parent in t.db.jobs ensures DueOk(b, t, key) {
      assert GroupOk(s, key);
      assert DueOk(b, s, key);
      assert JobOk(s, key.parent);
    }
  }

  lemma AddKeepsRest(s: Sys, spec: JobSpec)
    requires JobsOk(s) && LivesOk(s) && ChainsOk(s) && 1 <= spec.maxAttempts
    ensures JobsOk(DoAdd(s, spec)) && LivesOk(DoAdd(s, spec)) && ChainsOk(DoAdd(s, spec))
  {
    var t := DoAdd(s, spec);
    forall j | j in t.db.jobs ensures JobOk(t, j) {
      if j != s.db.nextId { assert JobOk(s, j); }
    }
  }

  lemma AddKeepsGroups(s: Sys, spec: JobSpec)
    requires LivesOk(s) && GroupsOk(s) && EnqueuedOk(s)
    ensures GroupsOk(DoAdd(s, spec)) && EnqueuedOk(DoAdd(s, spec))
  {
    var t := DoAdd(s, spec);
    forall key | key in t.db.groups ensures GroupOk(t, key) {
      assert GroupOk(s, key);
      forall i | 0 <= i < |t.db.groups[key].waits| ensures WaitOk(t, t.db.groups[key].waits[i]) {
        assert WaitOk(s, s.db.groups[key].waits[i]);
      }
    }
  }

  lemma AddKeeps(b: Backoff, s: Sys, spec: JobSpec)
    requires Monotone(b) && Inv(b, s) && 1 <= spec.maxAttempts
    ensures Inv(b, DoAdd(s, spec))
  {
    AddKeepsRest(s, spec);
    AddKeepsGroups(s, spec);
    AddKeepsDue(b, s, spec);
  }

  lemma RemoveKeepsJobs(s: Sys, j: JobId, pool: PoolId)
    requires JobsOk(s) && LivesOk(s) && ChainsOk(s) && EnqueuedOk(s) && j in s.db.jobs
    ensures var t := DoRemove(s, j, pool); JobsOk(t) && LivesOk(t) && ChainsOk(t) && EnqueuedOk(t)
  {
    var t := DoRemove(s, j, pool);
    forall i | i in t.db.jobs ensures JobOk(t, i) { assert JobOk(s, i); }
  }

  lemma RemoveKeepsGroups(b: Backoff, s: Sys, j: JobId, pool: PoolId)
    requires GroupsOk(s) && WakeOk(b, s) && j in s.db.jobs
    ensures var t := DoRemove(s, j, pool); GroupsOk(t) && WakeOk(b, t)
  {
    var t := DoRemove(s, j, pool);
    forall key | key in t.db.groups ensures GroupOk(t, key) { assert GroupOk(s, key); }
    forall key | key in t.db.groups && key.parent in t.db.jobs ensures DueOk(b, t, key) { assert DueOk(b, s, key); }
  }

  lemma RemoveKeeps(b: Backoff, s: Sys, j: JobId, pool: PoolId)
    requires Inv(b, s) && j in s.db.jobs
    ensures Inv(b, DoRemove(s, j, pool))
  {
    RemoveKeepsJobs(s, j, pool);
    RemoveKeepsGroups(b, s, j, pool);
  }

  /** What a release leaves of one row. */
  lemma RecoverRow(b: Backoff, s: Sys, staleAfter: nat, sweeper: PoolId, busy: set<PoolId>, j: JobId)
    requires j in s.db.jobs
    ensures var t, job := DoRecover(b, s, staleAfter, sweeper, busy), s.db.jobs[j];
            && j in t.db.jobs
            && var freed := LockedBy(job, DeadPools(s.db, staleAfter, sweeper, busy, s.clock));
            && t.db.jobs[j].lock == (if freed then None else job.lock)
            && t.db.jobs[j].runAt == (if freed then Max(s.clock, job.runAt) + b(job.attempts) else job.runAt)
            && t.db.jobs[j].attempts == job.attempts && t.db.jobs[j].maxAttempts == job.maxAttempts
            && t.db.jobs[j].envelope == job.envelope && t.db.jobs[j].key == job.key
            && (j in t.hist.failedAt <==> j in s.hist.failedAt || freed)
            && (j in t.hist.failedAt ==> t.hist.failedAt[j] == if freed then s.clock else s.hist.failedAt[j])
  {
  }

  lemma RecoverElsewhere(b: Backoff, s: Sys, staleAfter: nat, sweeper: PoolId, busy: set<PoolId>)
    ensures var t := DoRecover(b, s, staleAfter, sweeper, busy);
            && t.clock == s.clock && t.runs == s.runs && t.db.jobs.Keys == s.db.jobs.Keys && t.db.groups == s.db.groups
            && t.db.nextId == s.db.nextId && t.hist == s.hist.(failedAt := t.hist.failedAt)
            && (forall j :: j in t.hist.failedAt ==>
                  (t.hist.failedAt[j] == s.clock || (j in s.hist.failedAt && t.hist.failedAt[j] == s.hist.failedAt[j])))
  {
  }

  lemma RecoverKeepsJob(b: Backoff, s: Sys, staleAfter: nat, sweeper: PoolId, busy: set<PoolId>, j: JobId)
    requires j in s.db.jobs && JobOk(s, j)
    ensures var t := DoRecover(b, s, staleAfter, sweeper, busy); j in t.db.jobs && JobOk(t, j)
  {
    RecoverRow(b, s, staleAfter, sweeper, busy, j);
    RecoverElsewhere(b, s, staleAfter, sweeper, busy);
  }

  lemma RecoverKeepsLives(b: Backoff, s: Sys, staleAfter: nat, sweeper: PoolId, busy: set<PoolId>)
    requires LivesOk(s) && ChainsOk(s)
    ensures var t := DoRecover(b, s, staleAfter, sweeper, busy); LivesOk(t) && ChainsOk(t)
  {
    RecoverElsewhere(b, s, staleAfter, sweeper, busy);
  }

  lemma RecoverKeepsJobs(b: Backoff, s: Sys, staleAfter: nat, sweeper: PoolId, busy: set<PoolId>)
    requires JobsOk(s)
    ensures JobsOk(DoRecover(b, s, staleAfter, sweeper, busy))
  {
    var t := DoRecover(b, s, staleAfter, sweeper, busy);
    RecoverElsewhere(b, s, staleAfter, sweeper, busy);
    forall j | j in t.db.jobs ensures JobOk(t, j) { RecoverKeepsJob(b, s, staleAfter, sweeper, busy, j); }
  }

  lemma RecoverKeepsGroups(b: Backoff, s: Sys, staleAfter: nat, sweeper: PoolId, busy: set<PoolId>)
    requires GroupsOk(s) && EnqueuedOk(s)
    ensures var t := DoRecover(b, s, staleAfter, sweeper, busy); GroupsOk(t) && EnqueuedOk(t)
  {
    var t := DoRecover(b, s, staleAfter, sweeper, busy);
    forall key | key in t.db.groups ensures GroupOk(t, key) {
      assert GroupOk(s, key);
      forall i | 0 <= i < |t.db.groups[key].waits| ensures WaitOk(t, t.db.groups[key].waits[i]) {
        assert WaitOk(s, s.db.groups[key].waits[i]);
      }
    }
  }

  lemma RecoverKeepsDue(b: Backoff, s: Sys, staleAfter: nat, sweeper: PoolId, busy: set<PoolId>)
    requires WakeOk(b, s)
    ensures WakeOk(b, DoRecover(b, s, staleAfter, sweeper, busy))
  {
    var t := DoRecover(b, s, staleAfter, sweeper, busy);
    RecoverElsewhere(b, s, staleAfter, sweeper, busy);
    forall key | key in t.db.groups && key.parent in t.db.jobs ensures DueOk(b, t, key) {
      assert DueOk(b, s, key);
      RecoverRow(b, s, staleAfter, sweeper, busy, key.parent);
    }
  }

  lemma RecoverKeeps(b: Backoff, s: Sys, staleAfter: nat, sweeper: PoolId, busy: set<PoolId>)
    requires Inv(b, s)
    ensures Inv(b, DoRecover(b, s, staleAfter, sweeper, busy))
  {
    RecoverKeepsJobs(b, s, staleAfter, sweeper, busy);
    RecoverKeepsLives(b, s, staleAfter, sweeper, busy);
    RecoverKeepsGroups(b, s, staleAfter, sweeper, busy);
    RecoverKeepsDue(b, s, staleAfter, sweeper, busy);
  }

  // Reports and sweeps -------------------------------------------------------------------

  lemma ReportKeepsJobs(s: Sys, verdict: Verdict)
    requires JobsOk(s) && LivesOk(s) && ChainsOk(s) && EnqueuedOk(s)
    ensures var t := s.(db := ReportAll(s.db, verdict, s.clock));
            JobsOk(t) && LivesOk(t) && ChainsOk(t) && EnqueuedOk(t)
  {
    var t := s.(db := ReportAll(s.db, verdict, s.clock));
    forall j | j in t.db.jobs ensures JobOk(t, j) { assert JobOk(s, j); }
  }

  lemma ReportKeepsGroups(s: Sys, verdict: Verdict)
    requires GroupsOk(s)
    ensures GroupsOk(s.(db := ReportAll(s.db, verdict, s.clock)))
  {
    var t := s.(db := ReportAll(s.db, verdict, s.clock));
    forall key | key in t.db.groups ensures GroupOk(t, key) {
      assert GroupOk(s, key);
      ResolvingCounts(key, s.db.groups[key].waits, verdict, s.clock, |s.db.groups[key].waits|);
      forall i | 0 <= i < |t.db.groups[key].waits| ensures WaitOk(t, t.db.groups[key].waits[i]) {
        assert WaitOk(s, s.db.groups[key].waits[i]);
      }
    }
  }

  lemma ReportKeepsDue(b: Backoff, s: Sys, verdict: Verdict)
    requires GroupsOk(s) && WakeOk(b, s)
    ensures WakeOk(b, s.(db := ReportAll(s.db, verdict, s.clock)))
  {
    var t := s.(db := ReportAll(s.db, verdict, s.clock));
    forall key | key in t.db.groups && key.parent in t.db.jobs ensures DueOk(b, t, key) {
      assert GroupOk(s, key);
      assert DueOk(b, s, key);
      var group := s.db.groups[key];
      ResolvingStamps(key, group.waits, verdict, s.clock, |group.waits|);
      if t.db.groups[key].remaining == 0 && Hits(key, group, verdict) > 0 {
        assert Finishes(key, group, verdict);
        assert Wakes(s.db.groups, verdict, key.parent);
      }
    }
  }

  lemma ReportKeeps(b: Backoff, s: Sys, verdict: Verdict)
    requires Inv(b, s)
    ensures Inv(b, s.(db := ReportAll(s.db, verdict, s.clock)))
  {
    ReportKeepsJobs(s, verdict);
    ReportKeepsGroups(s, verdict);
    ReportKeepsDue(b, s, verdict);
  }

  lemma WakingKeepsJobs(s: Sys)
    requires JobsOk(s) && LivesOk(s) && ChainsOk(s)
    ensures var t := s.(db := WakeFinished(s.db, s.clock)); JobsOk(t) && LivesOk(t) && ChainsOk(t)
  {
    var t := s.(db := WakeFinished(s.db, s.clock));
    forall j | j in t.db.jobs ensures JobOk(t, j) { assert JobOk(s, j); }
  }

  lemma WakingKeepsGroups(s: Sys)
    requires GroupsOk(s) && EnqueuedOk(s)
    ensures var t := s.(db := WakeFinished(s.db, s.clock)); GroupsOk(t) && EnqueuedOk(t)
  {
    var t := s.(db := WakeFinished(s.db, s.clock));
    forall key | key in t.db.groups ensures GroupOk(t, key) {
      assert GroupOk(s, key);
      forall i | 0 <= i < |t.db.groups[key].waits| ensures WaitOk(t, t.db.groups[key].waits[i]) {
        assert WaitOk(s, s.db.groups[key].waits[i]);
      }
    }
  }

  lemma WakingKeepsDue(b: Backoff, s: Sys)
    requires WakeOk(b, s)
    ensures WakeOk(b, s.(db := WakeFinished(s.db, s.clock)))
  {
    var t := s.(db := WakeFinished(s.db, s.clock));
    forall key | key in t.db.groups && key.parent in t.db.jobs ensures DueOk(b, t, key) { assert DueOk(b, s, key); }
  }

  /** Some groups deleted, and nothing else changed. */
  ghost predicate FewerGroups(s: Sys, t: Sys) {
    && t == s.(db := s.db.(groups := t.db.groups))
    && forall key :: key in t.db.groups ==> key in s.db.groups && t.db.groups[key] == s.db.groups[key]
  }

  lemma FewerGroupsKeepsJobs(s: Sys, t: Sys)
    requires JobsOk(s) && LivesOk(s) && ChainsOk(s) && FewerGroups(s, t)
    ensures JobsOk(t) && LivesOk(t) && ChainsOk(t)
  {
    forall j | j in t.db.jobs ensures JobOk(t, j) { assert JobOk(s, j); }
  }

  lemma FewerGroupsKeepsGroups(b: Backoff, s: Sys, t: Sys)
    requires GroupsOk(s) && WakeOk(b, s) && FewerGroups(s, t)
    ensures GroupsOk(t) && WakeOk(b, t)
  {
    forall key | key in t.db.groups ensures GroupOk(t, key) { assert GroupOk(s, key); }
    forall key | key in t.db.groups && key.parent in t.db.jobs ensures DueOk(b, t, key) { assert DueOk(b, s, key); }
  }

  /** A group may go once its parent's row is gone or holds its checkpoint. */
  lemma FewerGroupsKeeps(b: Backoff, s: Sys, t: Sys)
    requires Inv(b, s) && FewerGroups(s, t)
    requires forall key :: key in s.db.groups && key !in t.db.groups ==>
      key.parent in s.db.jobs ==> key.waitId in s.db.jobs[key.parent].envelope.steps
    ensures Inv(b, t)
  {
    FewerGroupsKeepsJobs(s, t);
    FewerGroupsKeepsGroups(b, s, t);
  }

  lemma WakingKeeps(b: Backoff, s: Sys)
    requires Inv(b, s)
    ensures Inv(b, s.(db := WakeFinished(s.db, s.clock)))
  {
    WakingKeepsJobs(s);
    WakingKeepsGroups(s);
    WakingKeepsDue(b, s);
  }

  lemma SweepKeeps(b: Backoff, s: Sys, e: Event, t: Sys)
    requires Inv(b, s) && OfSweep(e) && t == Apply(b, s, e)
    ensures Inv(b, t)
  {
    SweptDb(b, s, e, t);
    if e.SweepLost? {
      ReportedKeeps(b, s, LostVerdict(s.db, e.skipped), t);
    } else if e.SweepFinished? {
      WokenKeeps(b, s, t);
    } else {
      FewerGroupsKeeps(b, s, t);
    }
  }

  lemma SweptDb(b: Backoff, s: Sys, e: Event, t: Sys)
    requires OfSweep(e) && t == Apply(b, s, e)
    ensures t == s.(db := t.db)
    ensures e.SweepLost? ==> t.db == ReportAll(s.db, LostVerdict(s.db, e.skipped), s.clock)
    ensures e.SweepFinished? ==> t.db == WakeFinished(s.db, s.clock)
    ensures e.SweepOrphans? ==> t.db == DropOrphans(s.db)
  {
  }

  lemma ReportedKeeps(b: Backoff, s: Sys, verdict: Verdict, t: Sys)
    requires Inv(b, s) && t == s.(db := ReportAll(s.db, verdict, s.clock))
    ensures Inv(b, t)
  {
    ReportKeeps(b, s, verdict);
  }

  lemma WokenKeeps(b: Backoff, s: Sys, t: Sys)
    requires Inv(b, s) && t == s.(db := WakeFinished(s.db, s.clock))
    ensures Inv(b, t)
  {
    WakingKeeps(b, s);
  }

  // Settlements ----------------------------------------------------------------------------

  /** History of completions, outcomes, lanes, heartbeats and the marks `decided` and
      `settled` are no part of the invariant. */
  ghost predicate Beside(s: Sys, t: Sys) {
    && t.clock == s.clock && t.db.nextId == s.db.nextId && t.db.jobs == s.db.jobs && t.db.groups == s.db.groups
    && t.hist == s.hist.(done := t.hist.done)
    && t.runs.Keys == s.runs.Keys
    && forall token :: token in s.runs ==>
         t.runs[token] == s.runs[token].(decided := t.runs[token].decided, settled := t.runs[token].settled)
  }

  lemma BesideKeepsJobs(s: Sys, t: Sys)
    requires JobsOk(s) && LivesOk(s) && ChainsOk(s) && EnqueuedOk(s) && Beside(s, t)
    ensures JobsOk(t) && LivesOk(t) && ChainsOk(t) && EnqueuedOk(t)
  {
    forall j | j in t.db.jobs ensures JobOk(t, j) { assert JobOk(s, j); }
  }

  lemma BesideKeepsGroups(b: Backoff, s: Sys, t: Sys)
    requires GroupsOk(s) && WakeOk(b, s) && Beside(s, t)
    ensures GroupsOk(t) && WakeOk(b, t)
  {
    forall key | key in t.db.groups ensures GroupOk(t, key) { assert GroupOk(s, key); }
    forall key | key in t.db.groups && key.parent in t.db.jobs ensures DueOk(b, t, key) { assert DueOk(b, s, key); }
  }

  lemma BesideKeeps(b: Backoff, s: Sys, t: Sys)
    requires Inv(b, s) && Beside(s, t)
    ensures Inv(b, t)
  {
    BesideKeepsJobs(s, t);
    BesideKeepsGroups(b, s, t);
  }

  lemma BeatKeeps(b: Backoff, s: Sys, pool: PoolId)
    requires Inv(b, s)
    ensures Inv(b, s.(db := Beat(s.db, pool, s.clock)))
  {
    BesideKeeps(b, s, s.(db := Beat(s.db, pool, s.clock)));
  }

  lemma PruneKeeps(b: Backoff, s: Sys, retention: nat, kept: set<JobId>)
    requires Inv(b, s)
    ensures Inv(b, s.(db := PruneOutcomes(s.db, retention, kept, s.clock)))
  {
    BesideKeeps(b, s, s.(db := PruneOutcomes(s.db, retention, kept, s.clock)));
  }

  lemma RowKeeps(b: Backoff, s: Sys, token: Token, row: RowAction)
    requires Inv(b, s) && Owns(s.db, token)
    ensures Inv(b, s.(db := ActOnRow(s.db, token.job, row, token.lock.owner)))
  {
    match row
    case Keep =>
    case Exhaust => ExhaustKeeps(b, s, token);
    case Delete => RemoveKeeps(b, s, token.job, token.lock.owner);
  }

  lemma SettlementKeeps(b: Backoff, s: Sys, token: Token, settlement: Settlement)
    requires Inv(b, s)
    ensures Inv(b, s.(db := Settle(s.db, token, settlement, s.clock)))
  {
    if Owns(s.db, token) {
      var recorded := s.(db := Record(s.db, token.job, settlement.outcome, s.clock));
      BesideKeeps(b, s, recorded);
      var reported := s.(db := ReportOne(recorded.db, token.job, settlement.report, s.clock));
      if settlement.report.Some? {
        ReportKeeps(b, recorded, Verdict(map[token.job := settlement.report.value], {}));
      }
      RowKeeps(b, reported, token, settlement.row);
    }
  }

  lemma SettleKeeps(b: Backoff, s: Sys, token: Token, report: Report, row: RowAction, record: bool)
    requires Inv(b, s) && MaySettle(s, token)
    ensures Inv(b, DoSettle(s, token, report, row, record))
  {
    var settlement := SettlementOf(report, row, record, s.runs[token].waited);
    SettlementKeeps(b, s, token, settlement);
    var t := DoSettle(s, token, report, row, record);
    if !record && !s.runs[token].waited && row != Exhaust {
      BesideKeeps(b, s, t);
    } else {
      BesideKeeps(b, s.(db := Settle(s.db, token, settlement, s.clock)), t);
    }
  }

  // Continuations ----------------------------------------------------------------------------

  /** `DoContinue` with the successor added but the current run not yet ended. */
  function Successor(s: Sys, j: JobId, runAt: Option<Time>, traceparent: Option<string>, latest: Option<Json>): Sys
    requires j in s.db.jobs
  {
    DoAdd(s, ContinuationSpec(s.db.jobs[j], runAt, traceparent, latest))
  }

  /** ... and then the current row spent, its waits handed over and the ending committed. */
  function HandOver(s: Sys, token: Token, next: JobId, waited: bool): Sys
    requires token in s.runs && token.job in s.db.jobs
  {
    var j := token.job;
    s.(db := s.db.(jobs := s.db.jobs[j := s.db.jobs[j].(maxAttempts := s.db.jobs[j].attempts)],
                   groups := if waited then Follow(s.db.groups, j, next) else s.db.groups),
       runs := s.runs[token := s.runs[token].(ended := Some(ContinuedTo(next)))],
       hist := s.hist.(next := s.hist.next[j := next]))
  }

  /** What holds between the two steps of a continuation. */
  ghost predicate Succeeding(s: Sys, token: Token, next: JobId) {
    && token in s.runs && Owns(s.db, token) && s.runs[token].ended.None?
    && next in s.db.jobs && next in s.hist.born && token.job < next && token.job in s.hist.born
    && s.db.jobs[next].lock.None? && next !in s.hist.next
    && s.hist.born[next].input == s.hist.born[token.job].input
    && s.db.jobs[next].envelope.waited == s.db.jobs[token.job].envelope.waited
    && (forall i :: i in s.hist.next ==> s.hist.next[i] != next)
    && (forall key, i :: key in s.db.groups && 0 <= i < |s.db.groups[key].waits| ==>
          (s.db.groups[key].waits[i].child != next || s.db.groups[key].waits[i].result.Some?))
  }

  lemma SuccessorKeeps(b: Backoff, s: Sys, token: Token, runAt: Option<Time>, traceparent: Option<string>,
                       latest: Option<Json>)
    requires Monotone(b) && Inv(b, s) && MayContinue(s, token) && Owns(s.db, token)
    ensures var t := Successor(s, token.job, runAt, traceparent, latest);
            Inv(b, t) && Succeeding(t, token, s.db.nextId)
  {
    LifeOf(s, token.job);
    var spec := ContinuationSpec(s.db.jobs[token.job], runAt, traceparent, latest);
    AddKeeps(b, s, spec);
    var t := DoAdd(s, spec);
    forall key, i | key in t.db.groups && 0 <= i < |t.db.groups[key].waits|
      ensures t.db.groups[key].waits[i].child != s.db.nextId || t.db.groups[key].waits[i].result.Some?
    {
      assert GroupOk(s, key) && WaitOk(s, s.db.groups[key].waits[i]);
    }
  }

  lemma HandOverKeepsJobs(s: Sys, token: Token, next: JobId, waited: bool)
    requires JobsOk(s) && Succeeding(s, token, next)
    ensures JobsOk(HandOver(s, token, next, waited))
  {
    var t := HandOver(s, token, next, waited);
    forall j | j in t.db.jobs ensures JobOk(t, j) { assert JobOk(s, j); }
  }

  lemma HandOverKeepsChains(s: Sys, token: Token, next: JobId, waited: bool)
    requires LivesOk(s) && ChainsOk(s) && EnqueuedOk(s) && Succeeding(s, token, next)
    ensures var t := HandOver(s, token, next, waited); LivesOk(t) && ChainsOk(t) && EnqueuedOk(t)
  {
  }

  lemma HandOverKeepsWait(s: Sys, token: Token, next: JobId, wait: Wait)
    requires Succeeding(s, token, next) && WaitOk(s, wait)
    ensures var t := HandOver(s, token, next, s.db.jobs[token.job].envelope.waited);
            && (wait.child == token.job && wait.result.None? ==>
                  s.db.jobs[token.job].envelope.waited && WaitOk(t, wait.(child := next)))
            && (wait.child != token.job || wait.result.Some? ==> WaitOk(t, wait))
  {
  }

  lemma HandOverKeepsGroups(s: Sys, token: Token, next: JobId)
    requires GroupsOk(s) && Succeeding(s, token, next)
    ensures GroupsOk(HandOver(s, token, next, s.db.jobs[token.job].envelope.waited))
  {
    var t := HandOver(s, token, next, s.db.jobs[token.job].envelope.waited);
    forall key | key in t.db.groups ensures GroupOk(t, key) {
      assert GroupOk(s, key);
      var waits := s.db.groups[key].waits;
      FollowingKeepsPending(waits, token.job, next, |waits|);
      forall i | 0 <= i < |t.db.groups[key].waits| ensures WaitOk(t, t.db.groups[key].waits[i]) {
        HandOverKeepsWait(s, token, next, waits[i]);
      }
    }
  }

  lemma HandOverKeepsDue(b: Backoff, s: Sys, token: Token, next: JobId, waited: bool)
    requires WakeOk(b, s) && Succeeding(s, token, next)
    ensures WakeOk(b, HandOver(s, token, next, waited))
  {
    var t := HandOver(s, token, next, waited);
    forall key | key in t.db.groups && key.parent in t.db.jobs ensures DueOk(b, t, key) {
      assert DueOk(b, s, key);
      FollowingKeepsStamps(s.db.groups[key].waits, token.job, next, |s.db.groups[key].waits|);
    }
  }

  /** The successor added and the current row handed over: what `Succeed` leaves. */
  function HandedOver(s: Sys, token: Token, runAt: Option<Time>, traceparent: Option<string>, latest: Option<Json>): Sys
    requires token in s.runs && token.job in s.db.jobs
  {
    HandOver(Successor(s, token.job, runAt, traceparent, latest), token, s.db.nextId, s.db.jobs[token.job].envelope.waited)
  }

  lemma HandedOverKeeps(b: Backoff, s: Sys, token: Token, runAt: Option<Time>, traceparent: Option<string>,
                        latest: Option<Json>)
    requires Monotone(b) && Inv(b, s) && MayContinue(s, token) && Owns(s.db, token)
    ensures Inv(b, HandedOver(s, token, runAt, traceparent, latest))
  {
    var next, waited := s.db.nextId, s.db.jobs[token.job].envelope.waited;
    SuccessorKeeps(b, s, token, runAt, traceparent, latest);
    var added := Successor(s, token.job, runAt, traceparent, latest);
    assert added.db.jobs[token.job].envelope == s.db.jobs[token.job].envelope;
    HandOverKeepsJobs(added, token, next, waited);
    HandOverKeepsChains(added, token, next, waited);
    HandOverKeepsGroups(added, token, next);
    HandOverKeepsDue(b, added, token, next, waited);
  }

  lemma HandedOverSucceeds(s: Sys, token: Token, runAt: Option<Time>, traceparent: Option<string>, latest: Option<Json>)
    requires MayContinue(s, token) && Owns(s.db, token) && token.job < s.db.nextId
    ensures var t := HandedOver(s, token, runAt, traceparent, latest);
            && t.db == Succeed(s.db, token.job, runAt, traceparent, latest, s.clock) && Owns(t.db, token)
            && t.clock == s.clock && t.runs == s.runs[token := s.runs[token].(ended := Some(ContinuedTo(s.db.nextId)))]
            && t.hist.(done := s.hist.done[token.job := s.clock])
               == DoContinue(s, token, runAt, traceparent, latest, true).hist
  {
  }

  lemma ContinueKeeps(b: Backoff, s: Sys, token: Token, runAt: Option<Time>, traceparent: Option<string>,
                      latest: Option<Json>, record: bool)
    requires Monotone(b) && Inv(b, s) && MayContinue(s, token)
    ensures Inv(b, DoContinue(s, token, runAt, traceparent, latest, record))
  {
    if Owns(s.db, token) {
      LifeOf(s, token.job);
      HandedOverKeeps(b, s, token, runAt, traceparent, latest);
      HandedOverSucceeds(s, token, runAt, traceparent, latest);
      var handed := HandedOver(s, token, runAt, traceparent, latest);
      var settlement := Settlement(Some(Continued(s.db.nextId)), None, Delete);
      if record { SettlementKeeps(b, handed, token, settlement); }
      var settled := if record then handed.(db := Settle(handed.db, token, settlement, s.clock)) else handed;
      BesideKeeps(b, settled, DoContinue(s, token, runAt, traceparent, latest, record));
    }
  }

  // Waits ----------------------------------------------------------------------------------

  lemma CheckpointRow(s: Sys, token: Token, step: StepId, checkpoint: Checkpoint)
    requires Owns(s.db, token) && token in s.runs && JobOk(s, token.job) && LifeOk(s, token.job)
    ensures RowChange(s, Checkpointed(s, token, step, checkpoint), token.job)
  {
  }

  function Checkpointed(s: Sys, token: Token, step: StepId, checkpoint: Checkpoint): Sys
    requires token in s.runs && token.job in s.db.jobs
  {
    s.(db := WriteStep(s.db, token.job, step, checkpoint),
       runs := s.runs[token := s.runs[token].(cache := s.runs[token].cache + {step})])
  }

  lemma CheckpointKeeps(b: Backoff, s: Sys, token: Token, step: StepId, checkpoint: Checkpoint)
    requires Inv(b, s) && Owns(s.db, token) && token in s.runs
    ensures Inv(b, Checkpointed(s, token, step, checkpoint))
  {
    LifeOf(s, token.job);
    CheckpointRow(s, token, step, checkpoint);
    ChangeRow(b, s, Checkpointed(s, token, step, checkpoint), token.job);
  }

  lemma FinishKeeps(b: Backoff, s: Sys, token: Token, key: GroupKey)
    requires Inv(b, s) && Owns(s.db, token) && token in s.runs && key in s.db.groups && key.parent == token.job
    ensures Inv(b, DoFinish(s, token, key))
  {
    var checkpoint := CheckpointOf(s.db.groups[key]);
    var written := Checkpointed(s, token, key.waitId, checkpoint);
    CheckpointKeeps(b, s, token, key.waitId, checkpoint);
    FewerGroupsKeeps(b, written, DoFinish(s, token, key));
  }

  /** What enqueuing a wait's children leaves alone. */
  ghost predicate Enqueued(s: Sys, t: Sys) {
    && t.clock == s.clock && t.runs == s.runs && t.db.groups == s.db.groups && s.db.nextId <= t.db.nextId
    && t.hist.next == s.hist.next && t.hist.enqueued == s.hist.enqueued && t.hist.excused == s.hist.excused
    && t.hist.stale == s.hist.stale
    && forall j :: j in s.db.jobs ==>
         j in t.db.jobs && t.db.jobs[j].lock == s.db.jobs[j].lock && t.db.jobs[j].envelope == s.db.jobs[j].envelope
  }

  ghost predicate Enqueueable(s: Sys, children: seq<Child>) {
    forall i :: 0 <= i < |children| ==>
      match children[i]
      case New(spec) => 1 <= spec.maxAttempts
      case Existing(id) => id < s.db.nextId
      case Missing => false
  }

  lemma AddTouchesNoEnvelope(s: Sys, spec: JobSpec)
    requires s.db.nextId !in s.db.jobs
    ensures Enqueued(s, DoAdd(s, spec))
  {
  }

  /** Enqueuing on the tables and on the system agree, and touch no existing envelope or lock. */
  lemma {:induction false} AddAllMatches(s: Sys, children: seq<Child>)
    requires forall i :: 0 <= i < |children| ==> !children[i].Missing?
    requires forall j :: j in s.db.jobs ==> j < s.db.nextId
    ensures var (t, ids) := AddAll(s, children);
            && Enqueued(s, t) && (forall j :: j in t.db.jobs ==> j < t.db.nextId)
            && (t.db, ids) == AddChildren(s.db, children, s.clock)
  {
    if children != [] {
      var n := |children| - 1;
      AddAllMatches(s, children[..n]);
      var before := AddAll(s, children[..n]).0;
      if children[n].New? { AddTouchesNoEnvelope(before, children[n].spec); }
    }
  }

  lemma {:induction false} AddAllKeeps(b: Backoff, s: Sys, children: seq<Child>)
    requires Monotone(b) && Inv(b, s) && Enqueueable(s, children)
    ensures Inv(b, AddAll(s, children).0)
  {
    if children != [] {
      var n := |children| - 1;
      AddAllKeeps(b, s, children[..n]);
      if children[n].New? { AddKeeps(b, AddAll(s, children[..n]).0, children[n].spec); }
    }
  }

  /** The i-th id belongs to the i-th child: the job its key recorded, or a row inserted now,
      after those of the children before it, that holds exactly what its spec asked for. */
  lemma {:induction false} ChildIds(s: Sys, children: seq<Child>)
    requires Enqueueable(s, children)
    ensures var (t, ids) := AddAll(s, children);
            && s.db.nextId <= t.db.nextId
            && (forall i :: 0 <= i < |ids| ==>
                 && ids[i] < t.db.nextId
                 && (children[i].Existing? ==> ids[i] == children[i].id)
                 && (children[i].New? ==> s.db.nextId <= ids[i]))
            && (forall i, k :: 0 <= i < k < |ids| && children[i].New? && children[k].New? ==> ids[i] < ids[k])
    ensures DistinctKeys(children) ==>
              var (t, ids) := AddAll(s, children);
              forall i :: 0 <= i < |ids| && children[i].New? ==>
                ids[i] in t.db.jobs && t.db.jobs[ids[i]] == NewRow(children[i].spec, s.clock)
  {
    if children != [] { ChildIds(s, children[..|children| - 1]); }
  }

  lemma OpenKeepsJobs(s: Sys, key: GroupKey, children: seq<Child>, timeout: Option<nat>, added: Sys, ids: seq<JobId>)
    requires forall i :: 0 <= i < |children| ==> !children[i].Missing?
    requires (added, ids) == AddAll(s, children) && (added.db, ids) == AddChildren(s.db, children, s.clock)
    requires JobsOk(added) && LivesOk(added) && ChainsOk(added)
    ensures var t := DoOpen(s, key, children, timeout); JobsOk(t) && LivesOk(t) && ChainsOk(t)
  {
    var t := DoOpen(s, key, children, timeout);
    forall j | j in t.db.jobs ensures JobOk(t, j) { assert JobOk(added, j); }
  }

  lemma OpenKeepsGroups(s: Sys, key: GroupKey, children: seq<Child>, timeout: Option<nat>, added: Sys, ids: seq<JobId>)
    requires forall i :: 0 <= i < |children| ==> !children[i].Missing?
    requires (added, ids) == AddAll(s, children) && (added.db, ids) == AddChildren(s.db, children, s.clock)
    requires GroupsOk(added) && EnqueuedOk(added) && LivesOk(added) && Enqueued(s, added)
    requires key !in added.hist.enqueued && key.parent in added.hist.born
    requires forall i :: 0 <= i < |ids| ==> ids[i] < added.db.nextId
    ensures var t := DoOpen(s, key, children, timeout); GroupsOk(t) && EnqueuedOk(t)
  {
    var t := DoOpen(s, key, children, timeout);
    FreshAllPending(ids, |ids|);
    forall k | k in t.db.groups ensures GroupOk(t, k) {
      if k != key { assert GroupOk(added, k); }
      forall i | 0 <= i < |t.db.groups[k].waits| ensures WaitOk(t, t.db.groups[k].waits[i]) {
        if k == key { assert t.db.groups[k].waits[i] == Wait(ids[i], None, 0); }
        else { assert WaitOk(added, added.db.groups[k].waits[i]); }
      }
    }
  }

  lemma OpenKeepsDue(b: Backoff, s: Sys, key: GroupKey, children: seq<Child>, timeout: Option<nat>, added: Sys,
                     ids: seq<JobId>)
    requires forall i :: 0 <= i < |children| ==> !children[i].Missing?
    requires (added, ids) == AddAll(s, children) && (added.db, ids) == AddChildren(s.db, children, s.clock)
    requires WakeOk(b, added) && children != []
    ensures WakeOk(b, DoOpen(s, key, children, timeout))
  {
    var t := DoOpen(s, key, children, timeout);
    forall k | k in t.db.groups && k.parent in t.db.jobs ensures DueOk(b, t, k) {
      if k != key { assert DueOk(b, added, k); }
    }
  }

  lemma OpenKeeps(b: Backoff, s: Sys, key: GroupKey, children: seq<Child>, timeout: Option<nat>)
    requires Monotone(b) && Inv(b, s) && Enqueueable(s, children) && children != []
    requires key !in s.hist.enqueued && key.parent in s.hist.born
    ensures Inv(b, DoOpen(s, key, children, timeout))
  {
    AddAllMatches(s, children);
    AddAllKeeps(b, s, children);
    ChildIds(s, children);
    var (added, ids) := AddAll(s, children);
    OpenKeepsJobs(s, key, children, timeout, added, ids);
    OpenKeepsGroups(s, key, children, timeout, added, ids);
    OpenKeepsDue(b, s, key, children, timeout, added, ids);
  }

  lemma NeverEntered(b: Backoff, s: Sys, token: Token, waitId: StepId)
    requires Inv(b, s) && MayEnter(s, token, waitId) && Owns(s.db, token) && GroupKey(token.job, waitId) !in s.db.groups
    ensures GroupKey(token.job, waitId) !in s.hist.enqueued && token.job in s.hist.born
  {
    LifeOf(s, token.job);
  }

  lemma EnterMatches(b: Backoff, s: Sys, token: Token, waitId: StepId, count: nat, prepared: Prepared,
                     timeout: Option<nat>)
    requires MayEnter(s, token, waitId)
    ensures DoEnter(b, s, token, waitId, count, prepared, timeout).db
         == EnterWait(s.db, token, waitId, count, prepared, timeout, s.runs[token].ended.Some?, b, s.clock).0
  {
  }

  lemma EnterKeeps(b: Backoff, s: Sys, token: Token, waitId: StepId, count: nat, prepared: Prepared,
                   timeout: Option<nat>)
    requires Monotone(b) && Inv(b, s) && MayEnter(s, token, waitId) && 0 < count && KnownChildren(s.db, prepared)
    ensures Inv(b, DoEnter(b, s, token, waitId, count, prepared, timeout))
  {
    var key := GroupKey(token.job, waitId);
    if Owns(s.db, token) && key in s.db.groups {
      EnterOpened(b, s, token, key, Expired(s.db.groups[key], s.clock));
    } else if Owns(s.db, token) && Enqueues(prepared, count) {
      FirstEntryKeeps(b, s, token, key, prepared.children, timeout);
    }
  }

  /** The opened group is unfinished, and the entering run still holds its row. */
  lemma OpensForItsRun(s: Sys, token: Token, key: GroupKey, children: seq<Child>, timeout: Option<nat>)
    requires MayEnter(s, token, key.waitId) && Owns(s.db, token) && Enqueueable(s, children) && children != []
    requires key.parent == token.job && forall j :: j in s.db.jobs ==> j < s.db.nextId
    ensures MaySuspend(DoOpen(s, key, children, timeout), token, key)
  {
    AddAllMatches(s, children);
  }

  lemma IdsAreHandedOut(b: Backoff, s: Sys)
    requires Inv(b, s)
    ensures forall j :: j in s.db.jobs ==> j < s.db.nextId
  {
    forall j | j in s.db.jobs ensures j < s.db.nextId { assert JobOk(s, j); }
  }

  lemma FirstEntryOpens(b: Backoff, s: Sys, token: Token, key: GroupKey, children: seq<Child>, timeout: Option<nat>)
    requires Monotone(b) && Inv(b, s) && MayEnter(s, token, key.waitId) && Owns(s.db, token)
    requires Enqueueable(s, children) && children != [] && key !in s.db.groups && key.parent == token.job
    ensures var t := DoOpen(s, key, children, timeout); Inv(b, t) && MaySuspend(t, token, key)
  {
    NeverEntered(b, s, token, key.waitId);
    OpenKeeps(b, s, key, children, timeout);
    IdsAreHandedOut(b, s);
    OpensForItsRun(s, token, key, children, timeout);
  }

  lemma FirstEntryKeeps(b: Backoff, s: Sys, token: Token, key: GroupKey, children: seq<Child>, timeout: Option<nat>)
    requires Monotone(b) && Inv(b, s) && MayEnter(s, token, key.waitId) && Owns(s.db, token)
    requires Enqueueable(s, children) && children != [] && key !in s.db.groups && key.parent == token.job
    ensures var t := DoOpen(s, key, children, timeout); MaySuspend(t, token, key) && Inv(b, DoSuspend(b, t, token, key))
  {
    FirstEntryOpens(b, s, token, key, children, timeout);
    SuspendKeeps(b, DoOpen(s, key, children, timeout), token, key);
  }

  /** The second half of a wait, on its group. */
  lemma EnterOpened(b: Backoff, s: Sys, token: Token, key: GroupKey, expired: bool)
    requires Inv(b, s) && MayEnter(s, token, key.waitId) && Owns(s.db, token)
    requires key in s.db.groups && key.parent == token.job
    ensures Inv(b, if s.db.groups[key].remaining == 0 || expired then DoFinish(s, token, key) else DoSuspend(b, s, token, key))
  {
    if s.db.groups[key].remaining == 0 || expired { FinishKeeps(b, s, token, key); } else { SuspendKeeps(b, s, token, key); }
  }

  // Whole runs -------------------------------------------------------------------------------

  predicate OfLibrary(e: Event) { WrittenByRun(e) || OfMaintenance(e) }

  /** Writes of an attempt, and its decision in memory. */
  predicate WrittenByRun(e: Event) {
    e.Enter? || e.Continuation? || e.Decide? || e.Settled? || e.Retry? || e.Step? || e.Progress?
  }

  predicate OfMaintenance(e: Event) { OfSweep(e) || e.Prune? }

  predicate OfSweep(e: Event) { e.SweepLost? || e.SweepFinished? || e.SweepOrphans? }

  lemma StepKeeps(b: Backoff, s: Sys, token: Token, step: StepId, output: Option<Json>)
    requires Inv(b, s) && token in s.runs
    ensures Inv(b, DoStep(s, token, step, output))
  {
    if Owns(s.db, token) { CheckpointKeeps(b, s, token, step, Output(output)); }
  }

  lemma EnterEventKeeps(b: Backoff, s: Sys, e: Event, t: Sys)
    requires Monotone(b) && Inv(b, s) && e.Enter? && t == Apply(b, s, e)
    ensures Inv(b, t)
  {
    if MayEnter(s, e.token, e.waitId) && 0 < e.count && KnownChildren(s.db, e.prepared) {
      EnterKeeps(b, s, e.token, e.waitId, e.count, e.prepared, e.timeout);
    }
  }

  lemma ContinuationEventKeeps(b: Backoff, s: Sys, e: Event, t: Sys)
    requires Monotone(b) && Inv(b, s) && e.Continuation? && t == Apply(b, s, e)
    ensures Inv(b, t)
  {
    if MayContinue(s, e.token) { ContinueKeeps(b, s, e.token, e.runAt, e.traceparent, e.latest, e.record); }
  }

  lemma SettledKeeps(b: Backoff, s: Sys, e: Event, t: Sys)
    requires Inv(b, s) && e.Settled? && t == Apply(b, s, e)
    ensures Inv(b, t)
  {
    if MaySettle(s, e.token) { SettleKeeps(b, s, e.token, e.report, e.row, e.record); }
  }

  lemma RetriedKeeps(b: Backoff, s: Sys, e: Event, t: Sys)
    requires Inv(b, s) && e.Retry? && t == Apply(b, s, e)
    ensures Inv(b, t)
  {
    if MaySettle(s, e.token) { RetryKeeps(b, s, e.token, e.at); }
  }

  lemma SettlementEventKeeps(b: Backoff, s: Sys, e: Event, t: Sys)
    requires Inv(b, s) && (e.Decide? || e.Settled? || e.Retry?) && t == Apply(b, s, e)
    ensures Inv(b, t)
  {
    if e.Settled? {
      SettledKeeps(b, s, e, t);
    } else if e.Retry? {
      RetriedKeeps(b, s, e, t);
    } else if MayContinue(s, e.token) {
      BesideKeeps(b, s, t);
    }
  }

  lemma EnvelopeEventKeeps(b: Backoff, s: Sys, e: Event, t: Sys)
    requires Inv(b, s) && (e.Step? || e.Progress?) && t == Apply(b, s, e)
    ensures Inv(b, t)
  {
    if e.token in s.runs {
      if e.Step? { StepKeeps(b, s, e.token, e.step, e.output); } else { ProgressKeeps(b, s, e.token, e.value); }
    }
  }

  lemma RunEventKeeps(b: Backoff, s: Sys, e: Event, t: Sys)
    requires Monotone(b) && Inv(b, s) && WrittenByRun(e) && t == Apply(b, s, e)
    ensures Inv(b, t)
  {
    if e.Enter? {
      EnterEventKeeps(b, s, e, t);
    } else if e.Continuation? {
      ContinuationEventKeeps(b, s, e, t);
    } else if e.Step? || e.Progress? {
      EnvelopeEventKeeps(b, s, e, t);
    } else {
      SettlementEventKeeps(b, s, e, t);
    }
  }

  lemma PruneEventKeeps(b: Backoff, s: Sys, e: Event, t: Sys)
    requires Inv(b, s) && e.Prune? && t == Apply(b, s, e)
    ensures Inv(b, t)
  {
    PruneKeeps(b, s, e.retention, e.kept);
  }

  /** One job that a producer or Graphile moves. */
  predicate OfOneJob(e: Event) { e.Add? || e.Claim? || e.Fail? || e.Remove? }

  lemma OneJobKeeps(b: Backoff, s: Sys, e: Event, t: Sys)
    requires Monotone(b) && Inv(b, s) && OfOneJob(e) && t == Apply(b, s, e)
    ensures Inv(b, t)
  {
    match e
    case Add(spec) => if Addable(s.db.jobs, spec) { AddKeeps(b, s, spec); }
    case Claim(j, pool) => if Claimable(s, j) { ClaimKeeps(b, s, j, pool); }
    case Fail(j) => if j in s.db.jobs && s.db.jobs[j].lock.Some? { FailKeeps(b, s, j); }
    case Remove(j, pool) => if j in s.db.jobs { RemoveKeeps(b, s, j, pool); }
  }

  lemma RecoveryKeeps(b: Backoff, s: Sys, e: Event, t: Sys)
    requires Inv(b, s) && e.Recover? && t == Apply(b, s, e)
    ensures Inv(b, t)
  {
    assert t == DoRecover(b, s, e.staleAfter, e.sweeper, e.busy);
    RecoverKeeps(b, s, e.staleAfter, e.sweeper, e.busy);
  }

  lemma OthersKeep(b: Backoff, s: Sys, e: Event, t: Sys)
    requires Monotone(b) && Inv(b, s) && !OfLibrary(e) && t == Apply(b, s, e)
    ensures Inv(b, t)
  {
    match e
    case Tick(_) => TickKeeps(b, s, t);
    case Heartbeat(pool) => BeatKeeps(b, s, pool);
    case Recover(_, _, _) => RecoveryKeeps(b, s, e, t);
    case _ => OneJobKeeps(b, s, e, t);
  }

  lemma EventKeeps(b: Backoff, s: Sys, e: Event, t: Sys)
    requires Monotone(b) && Inv(b, s) && t == Apply(b, s, e)
    ensures Inv(b, t)
  {
    if WrittenByRun(e) {
      RunEventKeeps(b, s, e, t);
    } else if OfSweep(e) {
      SweepKeeps(b, s, e, t);
    } else if e.Prune? {
      PruneEventKeeps(b, s, e, t);
    } else {
      OthersKeep(b, s, e, t);
    }
  }

  lemma ApplyKeeps(b: Backoff, s: Sys, e: Event)
    requires Monotone(b) && Inv(b, s)
    ensures Inv(b, Apply(b, s, e))
  {
    EventKeeps(b, s, e, Apply(b, s, e));
  }

  /** Time alone makes nothing late. */
  lemma TickKeeps(b: Backoff, s: Sys, t: Sys)
    requires Inv(b, s) && s.clock <= t.clock && t == s.(clock := t.clock)
    ensures Inv(b, t)
  {
    forall j | j in t.db.jobs ensures JobOk(t, j) { assert JobOk(s, j); }
    forall key | key in t.db.groups ensures GroupOk(t, key) { assert GroupOk(s, key); }
    forall key | key in t.db.groups && key.parent in t.db.jobs ensures DueOk(b, t, key) { assert DueOk(b, s, key); }
  }

  lemma {:induction false} RunsKeep(b: Backoff, s: Sys, events: seq<Event>)
    requires Monotone(b) && Inv(b, s)
    ensures Inv(b, After(b, s, events))
  {
    if events != [] {
      RunsKeep(b, s, events[..|events| - 1]);
      ApplyKeeps(b, After(b, s, events[..|events| - 1]), events[|events| - 1]);
    }
  }

  /** Every reachable state satisfies the invariant. */
  lemma {:induction false} Reachable(b: Backoff, events: seq<Event>)
    requires Monotone(b)
    ensures Inv(b, After(b, START, events))
  {
    StartOk(b);
    RunsKeep(b, START, events);
  }

  lemma StartOk(b: Backoff)
    ensures Inv(b, START)
  {
    assert START.hist.spent.Keys == {} == START.hist.born.Keys;
    assert JobsOk(START) && LivesOk(START) && ChainsOk(START);
    assert GroupsOk(START) && EnqueuedOk(START) && WakeOk(b, START);
  }
}
