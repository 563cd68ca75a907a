/** Where a promise ends: for each a run from the empty tables, next to the law that says exactly
    when. */
module Exceptions {
  import opened Wrappers
  import opened Tables
  import opened Protocol
  import opened Invariants
  import opened Chains
  import opened Wakeups
  import opened Waits
  import opened Example

  // A key taken between claim and suspension (see Suspensions.SuspensionsGiveTheAttemptBack) ----

  const KEYED := Spec(5).(key := Some("k"))

  const KEY_RUN := [Add(KEYED), Claim(0, "pool"), Add(KEYED), EnterNew(TOKEN, "wait", Spec(1), None), Fail(0)]

  /** Job 0 after its key went to job 1. */
  const ROBBED := Db(2, map[0 := Row(5, 0, 5, Some(LOCK)), 1 := NewRow(KEYED, 0)], map[], map[], map[], map[])

  lemma TheKeyIsTaken(b: Backoff, s: Sys)
    requires At(s, 0, OneClaimed(KEYED), map[TOKEN := FRESH], map[], map[0 := 0])
    ensures At(Apply(b, s, KEY_RUN[2]), 0, ROBBED, map[TOKEN := FRESH], map[], map[0 := 0])
  {
    assert s.db.jobs[0].lock.Some?;
    assert Addable(s.db.jobs, KEYED);
  }

  predicate Revived(s: Sys, lock: Option<Lock>) {
    && s.db.jobs.Keys == {0, 1, 2} && s.db.jobs[1] == NewRow(KEYED, 0)
    && s.db.jobs[0].attempts == 4 && s.db.jobs[0].maxAttempts == 5 && s.db.jobs[0].key.None?
       && s.db.jobs[0].lock == lock
  }

  lemma TheRobbedRunSuspends(b: Backoff, s: Sys)
    requires At(s, 0, ROBBED, map[TOKEN := FRESH], map[], map[0 := 0])
    ensures var t := Apply(b, s, KEY_RUN[3]);
            Revived(t, Some(LOCK)) && TOKEN in t.runs && t.runs[TOKEN].ended == Some(Waiting("wait"))
  {
    EntersNew(b, s, TOKEN, "wait", Spec(1), None);
  }

  lemma TheRevivedJobIsFreed(b: Backoff, s: Sys)
    requires Revived(s, Some(LOCK))
    ensures Revived(Apply(b, s, KEY_RUN[4]), None)
  {
  }

  lemma KeyRunRobs(b: Backoff)
    ensures At(After(b, START, KEY_RUN[..3]), 0, ROBBED, map[TOKEN := FRESH], map[], map[0 := 0])
    ensures OneClaimed(KEYED) == After(b, START, KEY_RUN[..2]).db
  {
    FirstIsClaimed(b, KEY_RUN, KEYED);
    OneMore(b, KEY_RUN, 2);
    TheKeyIsTaken(b, After(b, START, KEY_RUN[..2]));
  }

  lemma KeyRunRevives(b: Backoff)
    ensures Revived(After(b, START, KEY_RUN[..4]), Some(LOCK))
  {
    KeyRunRobs(b);
    OneMore(b, KEY_RUN, 3);
    TheRobbedRunSuspends(b, After(b, START, KEY_RUN[..3]));
  }

  /** Claimed with no attempt spent, the job loses its key and all attempts to job 1; suspending
      then returns one, so after the failure update both can run. */
  lemma SuspensionRevivesARobbedJob(b: Backoff)
    ensures Revived(After(b, START, KEY_RUN), None)
    ensures Runnable(After(b, START, KEY_RUN).db, 0) && Runnable(After(b, START, KEY_RUN).db, 1)
    ensures OneClaimed(KEYED) == After(b, START, KEY_RUN[..2]).db && OneClaimed(KEYED).jobs[0].attempts == 1
  {
    KeyRunRobs(b);
    KeyRunRevives(b);
    OneMore(b, KEY_RUN, 4);
    TheRevivedJobIsFreed(b, After(b, START, KEY_RUN[..4]));
    assert KEY_RUN[..5] == KEY_RUN;
  }

  // An exhausted job that suspends late (see Results.SpentUnlessSuspended) --------------------------

  const SETTLED := FRESH.(decided := true, settled := true)

  const EXHAUSTED := Db(1, map[0 := Row(1, 0, 1, Some(LOCK))], map[], map[], map[], map[])

  lemma TheRunIsExhausted(b: Backoff, s: Sys, decide: Event, settle: Event, t: Sys)
    requires At(s, 0, OneClaimed(Spec(2)), map[TOKEN := FRESH], map[], map[0 := 0])
    requires decide == Decide(TOKEN) && settle == Settled(TOKEN, Errored("Error", "boom"), Exhaust, false)
    requires t == Apply(b, Apply(b, s, decide), settle)
    ensures At(t, 0, EXHAUSTED, map[TOKEN := SETTLED], map[], map[0 := 0])
  {
    var decided := Apply(b, s, decide);
    assert At(decided, 0, OneClaimed(Spec(2)), map[TOKEN := FRESH.(decided := true)], map[], map[0 := 0]);
    assert t.db.jobs == EXHAUSTED.jobs;
  }

  lemma TheLateWaitGivesBack(b: Backoff, s: Sys, e: Event, t: Sys)
    requires At(s, 0, EXHAUSTED, map[TOKEN := SETTLED], map[], map[0 := 0])
    requires e == EnterNew(TOKEN, "late", Spec(1), None) && t == Apply(b, s, e)
    ensures 0 in t.db.jobs && t.db.jobs[0] == Row(1, NO_DEADLINE - b(0), 0, Some(LOCK))
  {
    EntersNew(b, s, TOKEN, "late", Spec(1), None);
    EntersKeyless(b, s, TOKEN, "late", Spec(1), None, t);
  }

  lemma TheLateRunIsFreed(b: Backoff, s: Sys, e: Event, t: Sys)
    requires 0 in s.db.jobs && s.db.jobs[0] == Row(1, NO_DEADLINE - b(0), 0, Some(LOCK))
    requires e == Fail(0) && t == Apply(b, s, e)
    ensures Runnable(t.db, 0) && t.db.jobs[0].lock.None?
  {
  }

  const LATE_RUN := [Add(Spec(2)), Claim(0, "pool"), Decide(TOKEN),
                     Settled(TOKEN, Errored("Error", "boom"), Exhaust, false),
                     EnterNew(TOKEN, "late", Spec(1), None), Fail(0)]

  lemma LateRunIsExhausted(b: Backoff, run: seq<Event>)
    requires 4 <= |run| && run[0] == Add(Spec(2)) && run[1] == Claim(0, "pool") && run[2] == Decide(TOKEN)
    requires run[3] == Settled(TOKEN, Errored("Error", "boom"), Exhaust, false)
    ensures At(After(b, START, run[..4]), 0, EXHAUSTED, map[TOKEN := SETTLED], map[], map[0 := 0])
  {
    FirstIsClaimed(b, run, Spec(2));
    TwoMore(b, run, 2);
    TheRunIsExhausted(b, After(b, START, run[..2]), run[2], run[3], After(b, START, run[..4]));
  }

  lemma LateRunRevives(b: Backoff, run: seq<Event>)
    requires 6 <= |run| && run[4] == EnterNew(TOKEN, "late", Spec(1), None) && run[5] == Fail(0)
    requires At(After(b, START, run[..4]), 0, EXHAUSTED, map[TOKEN := SETTLED], map[], map[0 := 0])
    ensures Runnable(After(b, START, run[..6]).db, 0) && After(b, START, run[..6]).db.jobs[0].lock.None?
  {
    OneMore(b, run, 4);
    TheLateWaitGivesBack(b, After(b, START, run[..4]), run[4], After(b, START, run[..5]));
    OneMore(b, run, 5);
    TheLateRunIsFreed(b, After(b, START, run[..5]), run[5], After(b, START, run[..6]));
  }

  /** A handler threw a permanent error beside an unawaited wait: its settlement exhausts the row, the
      wait commits afterwards and returns an attempt, and the job can run again. */
  lemma LateWaitsReviveExhaustedJobs(b: Backoff)
    ensures var s := After(b, START, LATE_RUN[..4]); 0 in s.db.jobs && Exhausted(s.db.jobs[0])
    ensures var s := After(b, START, LATE_RUN); Runnable(s.db, 0) && s.db.jobs[0].lock.None?
  {
    LateRunIsExhausted(b, LATE_RUN);
    LateRunRevives(b, LATE_RUN);
    assert LATE_RUN[..6] == LATE_RUN;
  }

  // A step under the id of an open wait (see Waits.GroupOrCheckpoint) ------------------------------

  const OVERWRITING_RUN := [Add(Spec(1)), Claim(0, "pool"), EnterNew(TOKEN, "wait", Spec(1), None)]

  const OVERWRITE := Step(TOKEN, "wait", None)

  lemma AsleepRunStillHoldsItsRow(b: Backoff, s: Sys)
    requires At(s, 0, OneClaimed(Spec(1)), map[TOKEN := FRESH], map[], map[0 := 0])
    ensures var t := Apply(b, s, OVERWRITING_RUN[2]); TOKEN in t.runs && Owns(t.db, TOKEN) && WAIT in t.db.groups
  {
    EntersNew(b, s, TOKEN, "wait", Spec(1), None);
  }

  lemma OverwritingIsReachable(b: Backoff)
    requires Monotone(b)
    ensures var s := After(b, START, OVERWRITING_RUN);
            OverwritesOpenWait(s, OVERWRITE)
            && !RememberedOnce(Apply(b, s, OVERWRITE))
  {
    FirstIsClaimed(b, OVERWRITING_RUN, Spec(1));
    OneMore(b, OVERWRITING_RUN, 2);
    AsleepRunStillHoldsItsRow(b, After(b, START, OVERWRITING_RUN[..2]));
    assert OVERWRITING_RUN[..3] == OVERWRITING_RUN;
    Reachable(b, OVERWRITING_RUN);
    BothRemember(b, After(b, START, OVERWRITING_RUN));
  }

  lemma TheStepOverwrites(b: Backoff, s: Sys)
    requires TOKEN in s.runs && Owns(s.db, TOKEN) && WAIT in s.db.groups
    ensures var t := Apply(b, s, OVERWRITE);
            && WAIT in t.db.groups && 0 in t.db.jobs && "wait" in t.db.jobs[0].envelope.steps
            && t.hist.enqueued == s.hist.enqueued
  {
  }

  lemma BothRemember(b: Backoff, s: Sys)
    requires Inv(b, s) && TOKEN in s.runs && Owns(s.db, TOKEN) && WAIT in s.db.groups
    ensures OverwritesOpenWait(s, OVERWRITE) && !RememberedOnce(Apply(b, s, OVERWRITE))
  {
    TheStepOverwrites(b, s);
    assert WAIT in s.hist.enqueued by { assert GroupOk(s, WAIT); }
  }

  // A deduplicated child that has continued (see Chains.OpensOnNewest) ------------------------

  const SECOND := Token(2, LOCK)

  const STALE_RUN := [Add(Spec(4)), Claim(0, "pool"), Continuation(TOKEN, None, None, None, true), Add(Spec(4)),
                      Claim(2, "pool"), Enter(SECOND, "wait", 1, Children([Existing(0)]), None), SweepLost({})]

  const CONTINUED := Outcome(OutcomeState.Continued(1), "task", 1, 1, 0, 0)

  lemma JobContinues(b: Backoff, s: Sys)
    requires At(s, 0, OneClaimed(Spec(4)), map[TOKEN := FRESH], map[], map[0 := 0])
    ensures At(Apply(b, s, STALE_RUN[2]), 0, Db(2, map[1 := Row(4, 0, 0, None)], map[], map[0 := CONTINUED], map[], map[]),
               map[TOKEN := FRESH.(ended := Some(ContinuedTo(1)))], map[0 := 1], map[0 := 0])
  {
    var succeeded := Succeed(s.db, 0, None, None, None, 0);
    assert succeeded.jobs == map[0 := Row(1, 0, 1, Some(LOCK)), 1 := Row(4, 0, 0, None)];
  }

  /** Job 1 continues job 0, and job 2 is claimed. */
  const AFTER_CONTINUATION :=
    Db(3, map[1 := Row(4, 0, 0, None), 2 := Row(4, 0, 1, Some(LOCK))], map[], map[0 := CONTINUED], map[], map[])

  predicate Stale(s: Sys) {
    && s.clock == 0 && s.db == AFTER_CONTINUATION && SECOND in s.runs && s.runs[SECOND] == FRESH
       && s.hist.next == map[0 := 1]
  }

  lemma AnotherJobIsAdded(b: Backoff, s: Sys, e: Event)
    requires At(s, 0, Db(2, map[1 := Row(4, 0, 0, None)], map[], map[0 := CONTINUED], map[], map[]),
                map[TOKEN := FRESH.(ended := Some(ContinuedTo(1)))], map[0 := 1], map[0 := 0])
    requires e == Add(Spec(4))
    ensures At(Apply(b, s, e), 0,
               Db(3, map[1 := Row(4, 0, 0, None), 2 := Row(4, 0, 0, None)], map[], map[0 := CONTINUED], map[], map[]),
               map[TOKEN := FRESH.(ended := Some(ContinuedTo(1)))], map[0 := 1], map[0 := 0])
  {
  }

  lemma AnotherJobIsClaimed(b: Backoff, s: Sys, e: Event)
    requires At(s, 0, Db(3, map[1 := Row(4, 0, 0, None), 2 := Row(4, 0, 0, None)], map[], map[0 := CONTINUED], map[], map[]),
                map[TOKEN := FRESH.(ended := Some(ContinuedTo(1)))], map[0 := 1], map[0 := 0])
    requires e == Claim(2, "pool")
    ensures Stale(Apply(b, s, e))
  {
    assert EMPTY.steps.Keys == {};
  }

  const STALE_WAIT := GroupKey(2, "wait")

  /** Job 2 waits on job 0, which is gone. */
  predicate Entered(s: Sys) {
    && s.clock == 0 && s.db.nextId == 3 && s.db.jobs.Keys == {1, 2} && s.db.jobs[1] == Row(4, 0, 0, None)
    && s.db.groups == map[STALE_WAIT := Group(1, None, [Wait(0, None, 0)])] && s.hist.next == map[0 := 1]
  }

  lemma OneExisting(s: Sys, id: JobId)
    ensures AddAll(s, [Existing(id)]) == (s, [id])
    ensures AddChildren(s.db, [Existing(id)], s.clock) == (s.db, [id])
  {
    var children := [Existing(id)];
    assert children[..|children| - 1] == [] && children[|children| - 1] == Existing(id);
    assert AddAll(s, children[..|children| - 1]) == (s, []);
    assert AddChildren(s.db, children[..|children| - 1], s.clock) == (s.db, []);
    assert [] + [id] == [id];
  }

  lemma TheStaleWaitOpens(s: Sys)
    requires Stale(s)
    ensures var t := DoOpen(s, STALE_WAIT, [Existing(0)], None);
            && t.clock == 0 && t.runs == s.runs && t.hist.next == s.hist.next
            && t.db == s.db.(groups := map[STALE_WAIT := Group(1, None, [Wait(0, None, 0)])])
  {
    OneExisting(s, 0);
    assert FreshWaits([0]) == [Wait(0, None, 0)];
    assert MarkWaited(s.db.jobs, [0]) == s.db.jobs;
  }

  lemma TheStaleRunSleeps(b: Backoff, s: Sys, e: Event)
    requires Stale(s) && e == Enter(SECOND, "wait", 1, Children([Existing(0)]), None)
    ensures Apply(b, s, e) == DoSuspend(b, DoOpen(s, STALE_WAIT, [Existing(0)], None), SECOND, STALE_WAIT)
  {
    TheStaleWaitOpens(s);
    assert KnownChildren(s.db, Children([Existing(0)]));
  }

  lemma TheWaitIsStale(b: Backoff, s: Sys, e: Event)
    requires Stale(s) && e == Enter(SECOND, "wait", 1, Children([Existing(0)]), None)
    ensures Entered(Apply(b, s, e))
  {
    TheStaleWaitOpens(s);
    TheStaleRunSleeps(b, s, e);
  }

  lemma TheSweepFailsIt(db: Db, now: Time)
    requires db.groups == map[STALE_WAIT := Group(1, None, [Wait(0, None, 0)])] && 0 !in db.jobs && 1 in db.jobs
    requires db.jobs[1] == Row(4, 0, 0, None)
    ensures var after := ReportLost(db, {}, now);
            && STALE_WAIT in after.groups && |after.groups[STALE_WAIT].waits| == 1
            && after.groups[STALE_WAIT].waits[0].child == 0 && after.groups[STALE_WAIT].waits[0].result.Some?
            && Runnable(after, 1) && after.nextId == db.nextId
  {
    assert db.groups[STALE_WAIT].waits[0].child in WaitedOn(db.groups);
    ReportFinishes(db, STALE_WAIT, LostVerdict(db, {}), now);
    SweepsWakeExactly(db, {}, now, 1);
  }

  /** The wait on job 0 has failed, and job 1 ends the chain of job 0. */
  predicate FailedWhileRunning(s: Sys) {
    && STALE_WAIT in s.db.groups && |s.db.groups[STALE_WAIT].waits| == 1
    && s.db.groups[STALE_WAIT].waits[0].child == 0 && s.db.groups[STALE_WAIT].waits[0].result.Some?
    && s.hist.next == map[0 := 1] && s.db.nextId == 3 && Runnable(s.db, 1)
  }

  lemma EnteredFails(b: Backoff, s: Sys, e: Event)
    requires Entered(s) && e == SweepLost({})
    ensures FailedWhileRunning(Apply(b, s, e))
  {
    TheSweepFailsIt(s.db, s.clock);
  }

  lemma StaleRunContinues(b: Backoff)
    ensures At(After(b, START, STALE_RUN[..3]), 0, Db(2, map[1 := Row(4, 0, 0, None)], map[], map[0 := CONTINUED], map[], map[]),
               map[TOKEN := FRESH.(ended := Some(ContinuedTo(1)))], map[0 := 1], map[0 := 0])
  {
    FirstIsClaimed(b, STALE_RUN, Spec(4));
    OneMore(b, STALE_RUN, 2);
    JobContinues(b, After(b, START, STALE_RUN[..2]));
  }

  lemma StaleRunClaims(b: Backoff)
    ensures Stale(After(b, START, STALE_RUN[..5]))
  {
    StaleRunContinues(b);
    TwoMore(b, STALE_RUN, 3);
    var s := After(b, START, STALE_RUN[..3]);
    AnotherJobIsAdded(b, s, STALE_RUN[3]);
    AnotherJobIsClaimed(b, Apply(b, s, STALE_RUN[3]), STALE_RUN[4]);
  }

  lemma StaleRunEnters(b: Backoff)
    ensures Entered(After(b, START, STALE_RUN[..6]))
  {
    StaleRunClaims(b);
    OneMore(b, STALE_RUN, 5);
    TheWaitIsStale(b, After(b, START, STALE_RUN[..5]), STALE_RUN[5]);
  }

  lemma StaleRunFails(b: Backoff)
    ensures FailedWhileRunning(After(b, START, STALE_RUN[..7]))
  {
    StaleRunEnters(b);
    OneMore(b, STALE_RUN, 6);
    EnteredFails(b, After(b, START, STALE_RUN[..6]), STALE_RUN[6]);
  }

  /** The child's key recorded job 0, which continued as job 1: the sweep fails the wait although
      the end of its child's chain can still run and report. */
  lemma SweepFailsARunningChain(b: Backoff)
    ensures FailedWhileRunning(After(b, START, STALE_RUN))
    ensures Newest(map[0 := 1], 0, 3) == 1
  {
    StaleRunFails(b);
    assert STALE_RUN[..7] == STALE_RUN;
  }

  // A wakeup that a later suspension forgets (see Wakeups.ForgottenWakeup) ----------------------

  /** The same pool's lock one millisecond later. */
  const LATER := Lock("pool", 1)

  const RECLAIMED := Token(0, LATER)

  const WAITED := Waited(Row(4, 0, 0, None))

  const FIRST := GroupKey(0, "first")

  const LAST := GroupKey(0, "last")

  const WOKEN_RUN := [Add(Spec(4)), Claim(0, "pool"), EnterNew(TOKEN, "first", Spec(4), None),
                      EnterNew(TOKEN, "last", Spec(4), None), Fail(0), Remove(1, "pool"), SweepLost({}), Tick(1),
                      Claim(0, "pool"), Enter(RECLAIMED, "last", 1, Children([Missing]), None), Fail(0), SweepFinished]

  const SUSPENDED := FRESH.(ended := Some(Waiting("first")))

  /** Job 0 holds its row in a run that waits for the children `waits`. */
  predicate WaitsFor(s: Sys, clock: Time, zero: Job, groups: map<GroupKey, Group>, children: JobId) {
    && s.clock == clock && s.db.nextId == children + 1 && s.db.lanes == map[] && s.hist.next == map[]
       && s.hist.lastLock == map[0 := 0]
    && s.db.groups == groups && 0 in s.db.jobs && s.db.jobs[0] == zero
    && (forall j :: j in s.db.jobs ==> j <= children) && forall j :: 1 <= j <= children ==> j in s.db.jobs && s.db.jobs[j] == WAITED
  }

  const UNREPORTED := Group(1, None, [Wait(1, None, 0)])

  const OPEN := Group(1, None, [Wait(2, None, 0)])

  /** Job 0 aiming at the year 9999: one backoff before it in the run that suspended, and at least
      then once the failure update at `now` freed it. */
  function Sleeper(b: Backoff, now: Time, lock: Option<Lock>): Job {
    Row(4, if lock.Some? then NO_DEADLINE - b(0) else Max(now, NO_DEADLINE - b(0)) + b(0), 0, lock)
  }

  /** Job 0's run is suspended by its first wait. */
  predicate WaitsForOne(b: Backoff, s: Sys) {
    WaitsFor(s, 0, Sleeper(b, 0, Some(LOCK)), map[FIRST := UNREPORTED], 1) && s.runs == map[TOKEN := SUSPENDED]
  }

  /** Both waits are open. */
  predicate WaitsForBoth(b: Backoff, s: Sys, lock: Option<Lock>) {
    WaitsFor(s, 0, Sleeper(b, 0, lock), map[FIRST := UNREPORTED, LAST := OPEN], 2)
  }

  lemma FirstWaitOpens(b: Backoff, s: Sys, t: Sys)
    requires At(s, 0, OneClaimed(Spec(4)), map[TOKEN := FRESH], map[], map[0 := 0])
    requires EnteredNew(b, s, TOKEN, "first", Spec(4), None, t)
    ensures WaitsForOne(b, t)
  {
    EntersKeyless(b, s, TOKEN, "first", Spec(4), None, t);
  }

  lemma SecondWaitOpens(b: Backoff, s: Sys, t: Sys)
    requires WaitsForOne(b, s) && EnteredNew(b, s, TOKEN, "last", Spec(4), None, t)
    ensures WaitsForBoth(b, t, Some(LOCK))
  {
    EntersKeyless(b, s, TOKEN, "last", Spec(4), None, t);
  }

  /** Job 0 and its last child, beside the first wait: its only row reported, or its child gone. */
  predicate Woken(s: Sys, clock: Time, zero: Job, remaining: int) {
    && s.clock == clock && s.db.nextId == 3 && s.db.lanes == map[] && s.hist.lastLock == map[0 := 0]
    && s.db.jobs.Keys == {0, 2} && s.db.jobs[0] == zero && s.db.jobs[2] == WAITED
    && s.db.groups.Keys == {FIRST, LAST} && s.db.groups[LAST] == OPEN
    && s.db.groups[FIRST].remaining == remaining && |s.db.groups[FIRST].waits| == 1
    && s.db.groups[FIRST].waits[0].child == 1 && (remaining == 0 <==> s.db.groups[FIRST].waits[0].result.Some?)
  }

  lemma TheSuspendedRunEnds(b: Backoff, s: Sys, e: Event, t: Sys)
    requires WaitsForBoth(b, s, Some(LOCK)) && e == Fail(0) && t == Apply(b, s, e)
    ensures WaitsForBoth(b, t, None)
  {
  }

  lemma TheChildIsDeleted(b: Backoff, s: Sys, e: Event, t: Sys)
    requires WaitsForBoth(b, s, None) && e == Remove(1, "pool") && t == Apply(b, s, e)
    ensures Woken(t, 0, Sleeper(b, 0, None), 1)
  {
  }

  lemma LostIsReported(b: Backoff, db: Db)
    requires db.jobs.Keys == {0, 2} && db.jobs[0] == Sleeper(b, 0, None) && db.jobs[2] == WAITED
    requires db.groups.Keys == {FIRST, LAST} && db.groups[LAST] == OPEN
    requires db.groups[FIRST].remaining == 1 && |db.groups[FIRST].waits| == 1
    requires db.groups[FIRST].waits[0].child == 1 && db.groups[FIRST].waits[0].result.None?
    ensures var after := ReportLost(db, {}, 0);
            && after.groups.Keys == {FIRST, LAST} && after.groups[LAST] == OPEN && after.groups[FIRST].remaining == 0
            && |after.groups[FIRST].waits| == 1
            && after.groups[FIRST].waits[0].child == 1 && after.groups[FIRST].waits[0].result.Some?
            && after.jobs.Keys == {0, 2} && after.jobs[0] == Row(4, 0, 0, None)
  {
    assert db.groups[FIRST].waits[0].child in WaitedOn(db.groups);
    ReportFinishes(db, FIRST, LostVerdict(db, {}), 0);
    ReportSpares(db, LAST, LostVerdict(db, {}), 0);
  }

  lemma ChildSleepsOn(db: Db)
    requires 2 in db.jobs && db.jobs[2] == WAITED && db.groups.Keys == {FIRST, LAST}
    ensures 2 in ReportLost(db, {}, 0).jobs && ReportLost(db, {}, 0).jobs[2] == WAITED
  {
    SweepsWakeExactly(db, {}, 0, 2);
  }

  lemma TheSweepReports(b: Backoff, s: Sys, t: Sys)
    requires Woken(s, 0, Sleeper(b, 0, None), 1) && t == s.(db := ReportLost(s.db, {}, s.clock))
    ensures Woken(t, 0, Row(4, 0, 0, None), 0)
  {
    LostIsReported(b, s.db);
    ChildSleepsOn(s.db);
  }

  lemma TheSweepEventReports(b: Backoff, s: Sys, e: Event, t: Sys)
    requires Woken(s, 0, Sleeper(b, 0, None), 1) && e == SweepLost({}) && t == Apply(b, s, e)
    ensures Woken(t, 0, Row(4, 0, 0, None), 0)
  {
    TheSweepReports(b, s, t);
  }

  lemma TimePasses(b: Backoff, s: Sys)
    requires Woken(s, 0, Row(4, 0, 0, None), 0)
    ensures Woken(Apply(b, s, Tick(1)), 1, Row(4, 0, 0, None), 0)
  {
  }

  lemma TheParentIsClaimed(b: Backoff, s: Sys)
    requires Woken(s, 1, Row(4, 0, 0, None), 0)
    ensures var t := Apply(b, s, Claim(0, "pool"));
            && Woken(t.(hist := t.hist.(lastLock := map[0 := 0])), 1, Row(4, 0, 1, Some(LATER)), 0)
            && RECLAIMED in t.runs && t.runs[RECLAIMED] == FRESH
  {
    assert EMPTY.steps.Keys == {};
  }

  /** Job 0 aims at the year 9999 beside a finished group. */
  predicate Forgotten(b: Backoff, s: Sys, lock: Option<Lock>) {
    && s.clock == 1 && 0 in s.db.jobs && s.db.jobs[0] == Sleeper(b, 1, lock)
    && FIRST in s.db.groups && s.db.groups[FIRST].remaining == 0
  }

  lemma TheLastWaitIsEntered(b: Backoff, s: Sys)
    requires Woken(s.(hist := s.hist.(lastLock := map[0 := 0])), 1, Row(4, 0, 1, Some(LATER)), 0)
    requires RECLAIMED in s.runs && s.runs[RECLAIMED] == FRESH
    ensures Forgotten(b, Apply(b, s, Enter(RECLAIMED, "last", 1, Children([Missing]), None)), Some(LATER))
  {
  }

  lemma TheSleeperIsFreed(b: Backoff, s: Sys)
    requires Forgotten(b, s, Some(LATER))
    ensures Forgotten(b, Apply(b, s, Fail(0)), None)
  {
  }

  lemma TheSweepRemembers(b: Backoff, s: Sys)
    requires Forgotten(b, s, None)
    ensures var t := Apply(b, s, SweepFinished); 0 in t.db.jobs && t.db.jobs[0] == Row(4, 1, 0, None)
  {
    assert HasFinishedGroup(s.db.groups, 0);
  }

  lemma TheFirstWaitOpens(b: Backoff, s: Sys, e: Event)
    requires At(s, 0, OneClaimed(Spec(4)), map[TOKEN := FRESH], map[], map[0 := 0])
    requires e == EnterNew(TOKEN, "first", Spec(4), None)
    ensures WaitsForOne(b, Apply(b, s, e))
  {
    EntersNew(b, s, TOKEN, "first", Spec(4), None);
    FirstWaitOpens(b, s, Apply(b, s, e));
  }

  lemma TheLastWaitOpens(b: Backoff, s: Sys, e: Event)
    requires WaitsForOne(b, s) && e == EnterNew(TOKEN, "last", Spec(4), None)
    ensures WaitsForBoth(b, Apply(b, s, e), Some(LOCK))
  {
    EntersNew(b, s, TOKEN, "last", Spec(4), None);
    SecondWaitOpens(b, s, Apply(b, s, e));
  }

  lemma FirstWaitIsOpen(b: Backoff, run: seq<Event>)
    requires 3 <= |run| && run[0] == Add(Spec(4)) && run[1] == Claim(0, "pool")
    requires run[2] == EnterNew(TOKEN, "first", Spec(4), None)
    ensures WaitsForOne(b, After(b, START, run[..3]))
  {
    FirstIsClaimed(b, run, Spec(4));
    OneMore(b, run, 2);
    TheFirstWaitOpens(b, After(b, START, run[..2]), run[2]);
  }

  lemma LastWaitIsOpen(b: Backoff, run: seq<Event>)
    requires 4 <= |run| && WaitsForOne(b, After(b, START, run[..3]))
    requires run[3] == EnterNew(TOKEN, "last", Spec(4), None)
    ensures WaitsForBoth(b, After(b, START, run[..4]), Some(LOCK))
  {
    OneMore(b, run, 3);
    TheLastWaitOpens(b, After(b, START, run[..3]), run[3]);
  }

  lemma WokenRunOpens(b: Backoff)
    ensures WaitsForBoth(b, After(b, START, WOKEN_RUN[..4]), Some(LOCK))
  {
    FirstWaitIsOpen(b, WOKEN_RUN);
    LastWaitIsOpen(b, WOKEN_RUN);
  }

  lemma FirstWaitLosesItsChild(b: Backoff, run: seq<Event>)
    requires 6 <= |run| && run[4] == Fail(0) && run[5] == Remove(1, "pool")
    requires WaitsForBoth(b, After(b, START, run[..4]), Some(LOCK))
    ensures Woken(After(b, START, run[..6]), 0, Sleeper(b, 0, None), 1)
  {
    OneMore(b, run, 4);
    TheSuspendedRunEnds(b, After(b, START, run[..4]), run[4], After(b, START, run[..5]));
    OneMore(b, run, 5);
    TheChildIsDeleted(b, After(b, START, run[..5]), run[5], After(b, START, run[..6]));
  }

  lemma WokenRunLosesAChild(b: Backoff)
    ensures Woken(After(b, START, WOKEN_RUN[..6]), 0, Sleeper(b, 0, None), 1)
  {
    WokenRunOpens(b);
    FirstWaitLosesItsChild(b, WOKEN_RUN);
  }

  lemma FirstWaitIsReported(b: Backoff, run: seq<Event>)
    requires 7 <= |run| && run[6] == SweepLost({})
    requires Woken(After(b, START, run[..6]), 0, Sleeper(b, 0, None), 1)
    ensures Woken(After(b, START, run[..7]), 0, Row(4, 0, 0, None), 0)
  {
    OneMore(b, run, 6);
    TheSweepEventReports(b, After(b, START, run[..6]), run[6], After(b, START, run[..7]));
  }

  lemma WokenRunIsReported(b: Backoff)
    ensures Woken(After(b, START, WOKEN_RUN[..7]), 0, Row(4, 0, 0, None), 0)
  {
    WokenRunLosesAChild(b);
    FirstWaitIsReported(b, WOKEN_RUN);
  }

  lemma WokenRunIsSwept(b: Backoff)
    ensures Woken(After(b, START, WOKEN_RUN[..8]), 1, Row(4, 0, 0, None), 0)
  {
    WokenRunIsReported(b);
    OneMore(b, WOKEN_RUN, 7);
    TimePasses(b, After(b, START, WOKEN_RUN[..7]));
  }

  lemma LastWaitIsEntered(b: Backoff, run: seq<Event>)
    requires 10 <= |run| && run[8] == Claim(0, "pool")
    requires run[9] == Enter(RECLAIMED, "last", 1, Children([Missing]), None)
    requires Woken(After(b, START, run[..8]), 1, Row(4, 0, 0, None), 0)
    ensures Forgotten(b, After(b, START, run[..10]), Some(LATER))
  {
    TwoMore(b, run, 8);
    var s := After(b, START, run[..8]);
    TheParentIsClaimed(b, s);
    TheLastWaitIsEntered(b, Apply(b, s, run[8]));
  }

  lemma WokenRunForgets(b: Backoff)
    ensures Forgotten(b, After(b, START, WOKEN_RUN[..10]), Some(LATER))
  {
    WokenRunIsSwept(b);
    LastWaitIsEntered(b, WOKEN_RUN);
  }

  lemma WokenRunSleeps(b: Backoff)
    ensures Forgotten(b, After(b, START, WOKEN_RUN[..11]), None)
  {
    WokenRunForgets(b);
    OneMore(b, WOKEN_RUN, 10);
    TheSleeperIsFreed(b, After(b, START, WOKEN_RUN[..10]));
  }

  lemma WokenRunIsRemembered(b: Backoff)
    ensures var s := After(b, START, WOKEN_RUN[..12]); 0 in s.db.jobs && s.db.jobs[0] == Row(4, 1, 0, None)
  {
    WokenRunSleeps(b);
    OneMore(b, WOKEN_RUN, 11);
    TheSweepRemembers(b, After(b, START, WOKEN_RUN[..11]));
  }

  /** Woken by the first wait, the job enters the last one first: its row then sleeps until that
      wait's deadline, the year 9999 or later, beside the first wait's results; the sweep after the
      failure update makes it due again. */
  lemma SecondWaitForgetsTheFirst(b: Backoff)
    ensures var s := After(b, START, WOKEN_RUN[..11]); Forgotten(b, s, None) && NO_DEADLINE <= s.db.jobs[0].runAt
    ensures var s := After(b, START, WOKEN_RUN[..12]); 0 in s.db.jobs && s.db.jobs[0].runAt == 1
  {
    WokenRunSleeps(b);
    WokenRunIsRemembered(b);
  }

  // A retry that a child's report cuts short (see Suspensions.RetriesAreNeverEarly) -----------------

  /** Past the deadline of the wait and the backoff of the failure update. */
  function Due(b: Backoff): Time { 1 + b(0) }

  /** The retry that the reclaimed job asks for, beyond the default backoff. */
  function AskedAt(b: Backoff): Time { Due(b) + b(1) + 1 }

  function Reclaimed(b: Backoff): Token { Token(0, Lock("pool", Due(b))) }

  function Child(b: Backoff): Token { Token(1, Lock("pool", Due(b))) }

  function RetryingRun(b: Backoff): seq<Event> {
    [Add(Spec(4)), Claim(0, "pool"), EnterNew(TOKEN, "wait", Spec(4), Some(1)), Fail(0), Tick(1 + b(0)),
     Claim(0, "pool"), Decide(Reclaimed(b)), Retry(Reclaimed(b), AskedAt(b)), Fail(0), Claim(1, "pool"),
     Decide(Child(b)), Settled(Child(b), Done(None), Delete, false)]
  }

  predicate Retrying(b: Backoff, run: seq<Event>) {
    && |run| == 12 && run[0] == Add(Spec(4)) && run[1] == Claim(0, "pool")
    && run[2] == EnterNew(TOKEN, "wait", Spec(4), Some(1)) && run[3] == Fail(0) && run[4] == Tick(1 + b(0))
    && run[5] == Claim(0, "pool") && run[6] == Decide(Reclaimed(b)) && run[7] == Retry(Reclaimed(b), AskedAt(b))
    && run[8] == Fail(0) && run[9] == Claim(1, "pool") && run[10] == Decide(Child(b))
    && run[11] == Settled(Child(b), Done(None), Delete, false)
  }

  /** Job 0 after the failure update, claimed again, and after its retry. */
  function Overdue(b: Backoff): Job { Row(4, Max(1, b(0)), 0, None) }

  function Retaken(b: Backoff): Job { Row(4, Max(1, b(0)), 1, Some(Reclaimed(b).lock)) }

  function Postponed(b: Backoff): Job { Row(4, AskedAt(b), 1, None) }

  const TIMED := Group(1, Some(1), [Wait(1, None, 0)])

  /** Job 0 and its child. */
  predicate Pair(s: Sys, clock: Time, zero: Job, child: Job) {
    && s.clock == clock && s.db.nextId == 2 && s.db.lanes == map[] && s.db.groups == map[WAIT := TIMED]
    && s.db.jobs == map[0 := zero, 1 := child] && s.hist.lastLock.Keys <= {0}
       && (0 in s.hist.lastLock ==> s.hist.lastLock[0] <= clock)
  }

  /** Job 0 is suspended until the wait's deadline. */
  predicate TimedWaits(b: Backoff, s: Sys) {
    Pair(s, 0, Row(4, 1 - b(0), 0, Some(LOCK)), WAITED) && s.hist.lastLock == map[0 := 0]
  }

  lemma TimedWaitOpens(b: Backoff, s: Sys, t: Sys)
    requires At(s, 0, OneClaimed(Spec(4)), map[TOKEN := FRESH], map[], map[0 := 0])
    requires EnteredNew(b, s, TOKEN, "wait", Spec(4), Some(1), t)
    ensures TimedWaits(b, t)
  {
    EntersKeyless(b, s, TOKEN, "wait", Spec(4), Some(1), t);
  }

  lemma TheTimedWaitOpens(b: Backoff, s: Sys, e: Event, t: Sys)
    requires At(s, 0, OneClaimed(Spec(4)), map[TOKEN := FRESH], map[], map[0 := 0])
    requires e == EnterNew(TOKEN, "wait", Spec(4), Some(1)) && t == Apply(b, s, e)
    ensures TimedWaits(b, t)
  {
    EntersNew(b, s, TOKEN, "wait", Spec(4), Some(1));
    TimedWaitOpens(b, s, t);
  }

  lemma TimedWaitIsOpen(b: Backoff, run: seq<Event>)
    requires 3 <= |run| && run[0] == Add(Spec(4)) && run[1] == Claim(0, "pool")
    requires run[2] == EnterNew(TOKEN, "wait", Spec(4), Some(1))
    ensures TimedWaits(b, After(b, START, run[..3]))
  {
    FirstIsClaimed(b, run, Spec(4));
    ClaimedRunWaits(b, run);
  }

  lemma ClaimedRunWaits(b: Backoff, run: seq<Event>)
    requires 3 <= |run| && run[2] == EnterNew(TOKEN, "wait", Spec(4), Some(1))
    requires At(After(b, START, run[..2]), 0, OneClaimed(Spec(4)), map[TOKEN := FRESH], map[], map[0 := 0])
    ensures TimedWaits(b, After(b, START, run[..3]))
  {
    OneMore(b, run, 2);
    TheTimedWaitOpens(b, After(b, START, run[..2]), run[2], After(b, START, run[..3]));
  }

  /** Its failure update and backoff are over. */
  predicate TimedIsDue(b: Backoff, s: Sys) { Pair(s, Due(b), Overdue(b), WAITED) && s.hist.lastLock == map[0 := 0] }

  lemma TheDeadlinePasses(b: Backoff, s: Sys)
    requires TimedWaits(b, s)
    ensures TimedIsDue(b, Apply(b, Apply(b, s, Fail(0)), Tick(1 + b(0))))
  {
  }

  lemma TheJobIsReclaimed(b: Backoff, s: Sys)
    requires TimedIsDue(b, s)
    ensures var t := Apply(b, s, Claim(0, "pool"));
            Pair(t, Due(b), Retaken(b), WAITED) && Reclaimed(b) in t.runs && t.runs[Reclaimed(b)] == FRESH
  {
    assert EMPTY.steps.Keys == {};
  }

  /** Job 0's second run has its result. */
  predicate RunDecided(b: Backoff, s: Sys) {
    && Pair(s, Due(b), Retaken(b), WAITED)
    && Reclaimed(b) in s.runs && s.runs[Reclaimed(b)].decided && !s.runs[Reclaimed(b)].settled
  }

  lemma TheRunDecides(b: Backoff, s: Sys)
    requires Pair(s, Due(b), Retaken(b), WAITED)
    requires Reclaimed(b) in s.runs && s.runs[Reclaimed(b)] == FRESH
    ensures RunDecided(b, Apply(b, s, Decide(Reclaimed(b))))
  {
  }

  lemma TheRetryIsAsked(b: Backoff, s: Sys)
    requires RunDecided(b, s)
    ensures var row := Row(4, Due(b) + 1, 1, Some(Reclaimed(b).lock));
            Pair(Apply(b, s, Retry(Reclaimed(b), AskedAt(b))), Due(b), row, WAITED)
  {
  }

  lemma TheRetryIsFreed(b: Backoff, s: Sys)
    requires Pair(s, Due(b), Row(4, Due(b) + 1, 1, Some(Reclaimed(b).lock)), WAITED)
    ensures Pair(Apply(b, s, Fail(0)), Due(b), Postponed(b), WAITED)
  {
  }

  /** The child is decided in the run that holds its row. */
  predicate ChildDecided(b: Backoff, s: Sys) {
    && s.clock == Due(b) && s.db.groups == map[WAIT := TIMED] && Child(b) in s.runs && s.runs[Child(b)].decided
       && !s.runs[Child(b)].settled
    && s.runs[Child(b)].waited && Owns(s.db, Child(b)) && 0 in s.db.jobs && s.db.jobs[0] == Postponed(b)
  }

  lemma TheChildIsDecided(b: Backoff, s: Sys)
    requires Pair(s, Due(b), Postponed(b), WAITED)
    ensures ChildDecided(b, Apply(b, Apply(b, s, Claim(1, "pool")), Decide(Child(b))))
  {
  }

  lemma TheReportCutsItShort(b: Backoff, s: Sys, e: Event)
    requires ChildDecided(b, s) && e == Settled(Child(b), Done(None), Delete, false)
    ensures var t := Apply(b, s, e); 0 in t.db.jobs && t.db.jobs[0].runAt == Due(b)
  {
    var verdict := Verdict(map[1 := Done(None)], {});
    ReportFinishes(s.db, WAIT, verdict, Due(b));
    ReportsWakeExactly(s.db, Child(b), SettlementOf(Done(None), Delete, false, true), Due(b), 0);
    assert Wakes(s.db.groups, verdict, 0) by {
      assert HitsIn(WAIT, TIMED.waits, verdict, 0) == 0;
      assert Finishes(WAIT, TIMED, verdict);
    }
  }

  lemma TimedWaitIsDue(b: Backoff, run: seq<Event>)
    requires 5 <= |run| && run[3] == Fail(0) && run[4] == Tick(1 + b(0))
    requires TimedWaits(b, After(b, START, run[..3]))
    ensures TimedIsDue(b, After(b, START, run[..5]))
  {
    TwoMore(b, run, 3);
    TheDeadlinePasses(b, After(b, START, run[..3]));
  }

  lemma RetryingRunIsDue(b: Backoff, run: seq<Event>)
    requires Retrying(b, run)
    ensures TimedIsDue(b, After(b, START, run[..5]))
  {
    TimedWaitIsOpen(b, run);
    TimedWaitIsDue(b, run);
  }

  lemma ReclaimedRunDecides(b: Backoff, run: seq<Event>)
    requires 7 <= |run| && run[5] == Claim(0, "pool") && run[6] == Decide(Reclaimed(b))
    requires TimedIsDue(b, After(b, START, run[..5]))
    ensures RunDecided(b, After(b, START, run[..7]))
  {
    TwoMore(b, run, 5);
    var s := After(b, START, run[..5]);
    TheJobIsReclaimed(b, s);
    TheRunDecides(b, Apply(b, s, run[5]));
  }

  lemma RetryingRunDecides(b: Backoff, run: seq<Event>)
    requires Retrying(b, run)
    ensures RunDecided(b, After(b, START, run[..7]))
  {
    RetryingRunIsDue(b, run);
    ReclaimedRunDecides(b, run);
  }

  lemma DecidedRunAsks(b: Backoff, run: seq<Event>)
    requires 9 <= |run| && run[7] == Retry(Reclaimed(b), AskedAt(b)) && run[8] == Fail(0)
    requires RunDecided(b, After(b, START, run[..7]))
    ensures Pair(After(b, START, run[..9]), Due(b), Postponed(b), WAITED)
  {
    TwoMore(b, run, 7);
    var s := After(b, START, run[..7]);
    TheRetryIsAsked(b, s);
    TheRetryIsFreed(b, Apply(b, s, run[7]));
  }

  lemma RetryingRunAsks(b: Backoff, run: seq<Event>)
    requires Retrying(b, run)
    ensures Pair(After(b, START, run[..9]), Due(b), Postponed(b), WAITED)
  {
    RetryingRunDecides(b, run);
    DecidedRunAsks(b, run);
  }

  lemma RetryingRunReports(b: Backoff, run: seq<Event>)
    requires Retrying(b, run)
    ensures ChildDecided(b, After(b, START, run[..11]))
  {
    RetryingRunAsks(b, run);
    TwoMore(b, run, 9);
    TheChildIsDecided(b, After(b, START, run[..9]));
  }

  lemma RetryingRunIsCutShort(b: Backoff, run: seq<Event>)
    requires Retrying(b, run)
    ensures Pair(After(b, START, run[..9]), Due(b), Postponed(b), WAITED)
    ensures var s := After(b, START, run[..12]); 0 in s.db.jobs && s.db.jobs[0].runAt == Due(b)
  {
    RetryingRunAsks(b, run);
    RetryingRunReports(b, run);
    OneMore(b, run, 11);
    TheReportCutsItShort(b, After(b, START, run[..11]), run[11]);
  }

  /** The job asked for a later retry in a run that never reached its open wait; its child's report
      makes it due before that. */
  lemma ReportCutsARetryShort(b: Backoff)
    ensures Pair(After(b, START, RetryingRun(b)[..9]), Due(b), Postponed(b), WAITED)
    ensures var s := After(b, START, RetryingRun(b)[..12]); 0 in s.db.jobs && s.db.jobs[0].runAt == Due(b) < AskedAt(b)
  {
    RetryingRunIsCutShort(b, RetryingRun(b));
  }
}
