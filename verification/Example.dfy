/** Concrete runs of the protocol from the empty tables, one event at a time. */
module Example {
  import opened Wrappers
  import opened Tables
  import opened Protocol
  import opened Wakeups

  const EMPTY := Envelope(None, map[], None, false, None, None)

  /** A row as the runs here insert it, with `budget` attempts. */
  function Row(budget: int, runAt: Time, attempts: int, lock: Option<Lock>): Job {
    Job("task", None, None, 0, {}, runAt, attempts, budget, lock, EMPTY, None, 0)
  }

  function Spec(budget: int): JobSpec { JobSpec("task", None, None, 0, {}, None, budget, EMPTY) }

  function Waited(job: Job): Job { job.(envelope := job.envelope.(waited := true)) }

  const LOCK := Lock("pool", 0)

  const FRESH := Run(None, false, false, {}, false)

  /** A wait on one new child. */
  function EnterNew(token: Token, waitId: StepId, spec: JobSpec, timeout: Option<nat>): Event {
    Enter(token, waitId, 1, Children([New(spec)]), timeout)
  }

  lemma OneMore(b: Backoff, run: seq<Event>, n: nat)
    requires n < |run|
    ensures After(b, START, run[..n + 1]) == Apply(b, After(b, START, run[..n]), run[n])
  {
    assert run[..n + 1][..n] == run[..n];
  }

  lemma TwoMore(b: Backoff, run: seq<Event>, n: nat)
    requires n + 1 < |run|
    ensures After(b, START, run[..n + 2]) == Apply(b, Apply(b, After(b, START, run[..n]), run[n]), run[n + 1])
  {
    OneMore(b, run, n);
    OneMore(b, run, n + 1);
  }

  lemma OneNewChild(s: Sys, spec: JobSpec)
    ensures AddAll(s, [New(spec)]) == (DoAdd(s, spec), [s.db.nextId])
    ensures AddChildren(s.db, [New(spec)], s.clock) == (AddJob(s.db, spec, s.clock), [s.db.nextId])
  {
    var children := [New(spec)];
    assert children[..|children| - 1] == [] && children[|children| - 1] == New(spec);
    assert AddAll(s, children[..|children| - 1]) == (s, []);
    assert AddChildren(s.db, children[..|children| - 1], s.clock) == (s.db, []);
    assert [] + [s.db.nextId] == [s.db.nextId];
  }

  /** The tables once the wait and its one child are inserted. */
  function Opened(db: Db, key: GroupKey, spec: JobSpec, timeout: Option<nat>, now: Time): Db {
    var added := AddJob(db, spec, now);
    added.(jobs := added.jobs[db.nextId := Waited(NewRow(spec, now))],
           groups := db.groups[key := Group(1, if timeout.Some? then Some(now + timeout.value) else None,
                                            [Wait(db.nextId, None, 0)])])
  }

  lemma OpensOne(s: Sys, key: GroupKey, spec: JobSpec, timeout: Option<nat>)
    ensures var t := DoOpen(s, key, [New(spec)], timeout);
            && t.db == Opened(s.db, key, spec, timeout, s.clock) && t.clock == s.clock && t.runs == s.runs
            && t.hist.next == s.hist.next && t.hist.lastLock == s.hist.lastLock
            && (s.db.nextId !in s.hist.next ==> t.hist.stale == s.hist.stale)
  {
    OneNewChild(s, spec);
    assert FreshWaits([s.db.nextId]) == [Wait(s.db.nextId, None, 0)];
  }

  lemma EntersAndSuspends(b: Backoff, s: Sys, token: Token, waitId: StepId, spec: JobSpec, timeout: Option<nat>)
    requires MayEnter(s, token, waitId) && Owns(s.db, token) && GroupKey(token.job, waitId) !in s.db.groups
    requires Addable(s.db.jobs, spec)
    requires var t := DoOpen(s, GroupKey(token.job, waitId), [New(spec)], timeout);
             && t.runs == s.runs && token.job in t.db.jobs && GroupKey(token.job, waitId) in t.db.groups
             && t.db.groups[GroupKey(token.job, waitId)].remaining == 1
    ensures Apply(b, s, EnterNew(token, waitId, spec, timeout))
         == DoSuspend(b, DoOpen(s, GroupKey(token.job, waitId), [New(spec)], timeout), token, GroupKey(token.job, waitId))
  {
    assert KnownChildren(s.db, Children([New(spec)]));
  }

  /** The states before and after an owner's first entry to a wait on one new child. */
  ghost predicate EnteredNew(b: Backoff, s: Sys, token: Token, waitId: StepId, spec: JobSpec, timeout: Option<nat>,
                             t: Sys)
    requires token in s.runs
  {
    var key := GroupKey(token.job, waitId);
    var entered := Opened(s.db, key, spec, timeout, s.clock);
    var run := s.runs[token];
    && token.job in entered.jobs
    && t.db == entered.(jobs := entered.jobs[token.job :=
                 SuspendRow(entered.jobs[token.job], Deadline(entered.groups[key]), run.ended.Some?, b)])
    && t.clock == s.clock
    && t.runs == s.runs[token := run.(ended := Some(run.ended.GetOr(Waiting(waitId))))]
    && t.hist.next == s.hist.next && t.hist.lastLock == s.hist.lastLock
    && (s.db.nextId !in s.hist.next ==> t.hist.stale == s.hist.stale)
  }

  lemma EntersNew(b: Backoff, s: Sys, token: Token, waitId: StepId, spec: JobSpec, timeout: Option<nat>)
    requires MayEnter(s, token, waitId) && Owns(s.db, token) && GroupKey(token.job, waitId) !in s.db.groups
    requires Addable(s.db.jobs, spec) && token.job < s.db.nextId
    ensures EnteredNew(b, s, token, waitId, spec, timeout, Apply(b, s, EnterNew(token, waitId, spec, timeout)))
  {
    OpensOne(s, GroupKey(token.job, waitId), spec, timeout);
    EntersAndSuspends(b, s, token, waitId, spec, timeout);
  }

  lemma OpensKeyless(db: Db, key: GroupKey, spec: JobSpec, timeout: Option<nat>, now: Time)
    requires spec.key.None?
    ensures Opened(db, key, spec, timeout, now)
         == db.(nextId := db.nextId + 1,
                jobs := db.jobs[db.nextId := Waited(NewRow(spec, now))],
                groups := db.groups[key := Group(1, if timeout.Some? then Some(now + timeout.value) else None,
                                                 [Wait(db.nextId, None, 0)])])
  {
    assert YieldKey(db.jobs, None) == db.jobs;
  }

  /** The same for a child without a key, with every table. */
  lemma EntersKeyless(b: Backoff, s: Sys, token: Token, waitId: StepId, spec: JobSpec, timeout: Option<nat>, t: Sys)
    requires token in s.runs && Owns(s.db, token) && EnteredNew(b, s, token, waitId, spec, timeout, t)
    requires spec.key.None? && token.job < s.db.nextId
    ensures var deadline := if timeout.Some? then Some(s.clock + timeout.value) else None;
            var row := SuspendRow(s.db.jobs[token.job], deadline.GetOr(NO_DEADLINE), s.runs[token].ended.Some?, b);
            t.db == s.db.(nextId := s.db.nextId + 1,
                          jobs := s.db.jobs[s.db.nextId := Waited(NewRow(spec, s.clock))][token.job := row],
                          groups := s.db.groups[GroupKey(token.job, waitId) := Group(1, deadline, [Wait(s.db.nextId, None, 0)])])
  {
    OpensKeyless(s.db, GroupKey(token.job, waitId), spec, timeout, s.clock);
  }

  /** A report of the only row of a group finishes it and wakes its parent. */
  lemma ReportFinishes(db: Db, key: GroupKey, verdict: Verdict, now: Time)
    requires key in db.groups && db.groups[key].remaining == 1 && |db.groups[key].waits| == 1
    requires Hit(key, 0, db.groups[key].waits[0], verdict)
    ensures var after, wait := ReportAll(db, verdict, now), db.groups[key].waits[0];
            && key in after.groups && after.groups[key].remaining == 0
               && after.groups[key].deadline == db.groups[key].deadline
            && |after.groups[key].waits| == 1
               && after.groups[key].waits[0] == Wait(wait.child, Some(verdict.reports[wait.child]), now)
            && (key.parent in db.jobs ==>
                  key.parent in after.jobs
                  && after.jobs[key.parent] == db.jobs[key.parent].(runAt := Min(db.jobs[key.parent].runAt, now)))
  {
    assert HitsIn(key, db.groups[key].waits, verdict, 0) == 0;
    assert Finishes(key, db.groups[key], verdict);
  }

  lemma ReportSpares(db: Db, key: GroupKey, verdict: Verdict, now: Time)
    requires key in db.groups && |db.groups[key].waits| == 1 && !Hit(key, 0, db.groups[key].waits[0], verdict)
    ensures key in ReportAll(db, verdict, now).groups && ReportAll(db, verdict, now).groups[key] == db.groups[key]
  {
    var waits := db.groups[key].waits;
    assert HitsIn(key, waits, verdict, 0) == 0;
    assert Resolve(key, waits, verdict, now) == waits;
  }

  /** The state of a run here, as far as its later events look at it. */
  predicate At(s: Sys, clock: Time, db: Db, runs: map<Token, Run>, next: map<JobId, JobId>, locked: map<JobId, Time>) {
    s.clock == clock && s.db == db && s.runs == runs && s.hist.next == next && s.hist.lastLock == locked
    && s.hist.stale == {}
  }

  /** The first job of a run, claimed. */
  function OneClaimed(spec: JobSpec): Db {
    Db(1, map[0 := ClaimRow(NewRow(spec, 0), LOCK)], map[], map[], map[], map[])
  }

  lemma FirstIsClaimed(b: Backoff, run: seq<Event>, spec: JobSpec)
    requires 1 <= spec.maxAttempts && spec.lane.None? && spec.runAt.None? && spec.envelope == EMPTY
    requires 2 <= |run| && run[0] == Add(spec) && run[1] == Claim(0, "pool")
    ensures At(After(b, START, run[..2]), 0, OneClaimed(spec), map[TOKEN := FRESH], map[], map[0 := 0])
  {
    OneMore(b, run, 0);
    OneMore(b, run, 1);
    assert EMPTY.steps.Keys == {};
  }

  // A lost child ------------------------------------------------------------------------------

  const TOKEN := Token(0, LOCK)

  const WAIT := GroupKey(0, "wait")

  const RUN := [Add(Spec(1)), Claim(0, "pool"), EnterNew(TOKEN, "wait", Spec(1), None), Remove(1, "pool")]

  /** The wait is open and its run suspended. */
  predicate Asleep(s: Sys) {
    s.clock == 0 && s.db.jobs.Keys == {0, 1} && s.db.groups == map[WAIT := Group(1, None, [Wait(1, None, 0)])]
    && s.hist.stale == {}
  }

  lemma ClaimedWaits(b: Backoff, s: Sys)
    requires At(s, 0, OneClaimed(Spec(1)), map[TOKEN := FRESH], map[], map[0 := 0])
    ensures Asleep(Apply(b, s, RUN[2]))
  {
    EntersNew(b, s, TOKEN, "wait", Spec(1), None);
  }

  /** The child is gone. */
  predicate Lonely(s: Sys) {
    s.db.jobs.Keys == {0} && s.db.groups == map[WAIT := Group(1, None, [Wait(1, None, 0)])] && s.hist.stale == {}
  }

  lemma WaitingLosesItsChild(b: Backoff, s: Sys)
    requires Asleep(s)
    ensures Lonely(Apply(b, s, RUN[3]))
  {
  }

  lemma RunIsLonely(b: Backoff)
    ensures Lonely(After(b, START, RUN))
  {
    FirstIsClaimed(b, RUN, Spec(1));
    OneMore(b, RUN, 2);
    ClaimedWaits(b, After(b, START, RUN[..2]));
    OneMore(b, RUN, 3);
    WaitingLosesItsChild(b, After(b, START, RUN[..3]));
    assert RUN[..4] == RUN;
  }

  /** After the run a sweep resolves the wait's only row. */
  lemma {:induction false} SweepResolvesTheWait(b: Backoff)
    ensures var s := After(b, START, RUN);
            && WAIT in s.db.groups && s.db.groups[WAIT].waits == [Wait(1, None, 0)] && 1 !in s.hist.stale
            && var swept := ReportLost(s.db, {}, s.clock);
            && WAIT in swept.groups && |swept.groups[WAIT].waits| == 1 && swept.groups[WAIT].waits[0].result.Some?
  {
    RunIsLonely(b);
    LonelyIsSwept(After(b, START, RUN));
  }

  lemma LonelyIsSwept(s: Sys)
    requires Lonely(s)
    ensures var swept := ReportLost(s.db, {}, s.clock);
            && WAIT in swept.groups && |swept.groups[WAIT].waits| == 1 && swept.groups[WAIT].waits[0].result.Some?
  {
    SweepsResolveTheLost(s.db, {}, s.clock, WAIT, 0);
  }
}
