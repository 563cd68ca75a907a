/** Attempts: how many a job gets, when it gets the next one, and what a lost one may still do. */
module Attempts {
  import opened Wrappers
  import opened Tables
  import opened Protocol
  import opened Invariants
  import opened Rows

  // Bounded executions ------------------------------------------------------------------

  predicate Claims(s: Sys, e: Event, j: JobId) { e.Claim? && e.job == j && Claimable(s, j) }

  function ClaimsOf(b: Backoff, s: Sys, events: seq<Event>, j: JobId): nat {
    if events == [] then 0 else
    var n := |events| - 1;
    ClaimsOf(b, s, events[..n], j) + if Claims(After(b, s, events[..n]), events[n], j) then 1 else 0
  }

  predicate SuspendsFirst(b: Backoff, s: Sys, e: Event, j: JobId) {
    e.Enter? && e.token.job == j && FirstSuspension(b, s, e)
  }

  function SuspensionsOf(b: Backoff, s: Sys, events: seq<Event>, j: JobId): nat {
    if events == [] then 0 else
    var n := |events| - 1;
    SuspensionsOf(b, s, events[..n], j) + if SuspendsFirst(b, After(b, s, events[..n]), events[n], j) then 1 else 0
  }

  lemma {:induction false} AddAllSpendsNothing(s: Sys, children: seq<Child>, j: JobId)
    requires forall i :: 0 <= i < |children| ==> !children[i].Missing?
    requires s.hist.spent.Keys <= s.hist.born.Keys && forall i: JobId :: i in s.hist.born <==> i < s.db.nextId
    ensures var t := AddAll(s, children).0;
            && Spent(t.hist, j) == Spent(s.hist, j)
            && t.hist.spent.Keys <= t.hist.born.Keys && forall i: JobId :: i in t.hist.born <==> i < t.db.nextId
  {
    if children != [] { AddAllSpendsNothing(s, children[..|children| - 1], j); }
  }

  lemma OpenSpendsNothing(s: Sys, key: GroupKey, children: seq<Child>, timeout: Option<nat>, j: JobId)
    requires forall i :: 0 <= i < |children| ==> !children[i].Missing?
    requires s.hist.spent.Keys <= s.hist.born.Keys && forall i: JobId :: i in s.hist.born <==> i < s.db.nextId
    ensures var t := DoOpen(s, key, children, timeout);
            && Spent(t.hist, j) == Spent(s.hist, j) && t.runs == s.runs && key in t.db.groups
            && forall i :: i in s.db.jobs ==> i in t.db.jobs
  {
    AddAllSpendsNothing(s, children, j);
  }

  lemma EndSpends(b: Backoff, s: Sys, token: Token, key: GroupKey, j: JobId)
    requires token in s.runs && key in s.db.groups && key.parent == token.job && token.job in s.db.jobs
    ensures var t := DoSuspend(b, s, token, key);
            && t.runs[token].ended.Some?
            && Spent(t.hist, j) == Spent(s.hist, j) - if j == token.job && s.runs[token].ended.None? then 1 else 0
    ensures var t := DoFinish(s, token, key);
            t.runs[token].ended == s.runs[token].ended && Spent(t.hist, j) == Spent(s.hist, j)
  {
  }

  lemma {:induction false} EnterSpends(b: Backoff, s: Sys, token: Token, waitId: StepId, count: nat, prepared: Prepared,
                    timeout: Option<nat>, j: JobId)
    requires LivesOk(s) && MayEnter(s, token, waitId)
    ensures var t := DoEnter(b, s, token, waitId, count, prepared, timeout);
            && token in t.runs
            && Spent(t.hist, j) == Spent(s.hist, j)
                 - if j == token.job && s.runs[token].ended.None? && t.runs[token].ended.Some? then 1 else 0
  {
    var key := GroupKey(token.job, waitId);
    if Owns(s.db, token) && (key in s.db.groups || Enqueues(prepared, count)) {
      var entered := s;
      if key !in s.db.groups {
        OpenSpendsNothing(s, key, prepared.children, timeout, j);
        entered := DoOpen(s, key, prepared.children, timeout);
      }
      EndSpends(b, entered, token, key, j);
    }
  }

  lemma OthersSpend(b: Backoff, s: Sys, e: Event, j: JobId)
    requires !e.Enter? && s.db.nextId !in s.hist.spent
    ensures Spent(Apply(b, s, e).hist, j) == Spent(s.hist, j) + if Claims(s, e, j) then 1 else 0
  {
    if OfLibrary(e) { LibrarySpendsNothing(b, s, e, j); }
  }

  lemma LibrarySpendsNothing(b: Backoff, s: Sys, e: Event, j: JobId)
    requires OfLibrary(e) && !e.Enter? && s.db.nextId !in s.hist.spent
    ensures Spent(Apply(b, s, e).hist, j) == Spent(s.hist, j)
  {
  }

  lemma EventSpends(b: Backoff, s: Sys, e: Event, j: JobId)
    requires Inv(b, s)
    ensures Spent(Apply(b, s, e).hist, j)
         == Spent(s.hist, j) + (if Claims(s, e, j) then 1 else 0) - (if SuspendsFirst(b, s, e, j) then 1 else 0)
  {
    if e.Enter? {
      if MayEnter(s, e.token, e.waitId) { EnterSpends(b, s, e.token, e.waitId, e.count, e.prepared, e.timeout, j); }
    } else {
      OthersSpend(b, s, e, j);
    }
  }

  lemma {:induction false} SpentIsCounted(b: Backoff, events: seq<Event>, j: JobId)
    requires Monotone(b)
    ensures Spent(After(b, START, events).hist, j) == ClaimsOf(b, START, events, j) - SuspensionsOf(b, START, events, j)
  {
    if events != [] {
      var n := |events| - 1;
      SpentIsCounted(b, events[..n], j);
      Reachable(b, events[..n]);
      EventSpends(b, After(b, START, events[..n]), events[n], j);
    }
  }

  /** In every run, the claims of a job that did not end suspended are at most the attempts
      it was inserted with, whatever crashes, sweeps and reclaims happened; and a row never
      has more attempts than its budget. */
  lemma {:induction false} ExecutionsAreBounded(b: Backoff, events: seq<Event>, j: JobId)
    requires Monotone(b)
    ensures var s := After(b, START, events);
            && (j in s.hist.born ==>
                  ClaimsOf(b, START, events, j) - SuspensionsOf(b, START, events, j) <= s.hist.born[j].maxAttempts)
            && (j in s.db.jobs ==>
                  (j in s.hist.born
                   && 0 <= s.db.jobs[j].attempts <= s.db.jobs[j].maxAttempts <= s.hist.born[j].maxAttempts))
  {
    Reachable(b, events);
    SpentIsCounted(b, events, j);
    var s := After(b, START, events);
    if j in s.db.jobs { LifeOf(s, j); }
  }

  // Fencing -------------------------------------------------------------------------------

  /** An attempt that was claimed and no longer holds its row's lock. */
  predicate LostLock(s: Sys, token: Token) { token in s.runs && !Owns(s.db, token) }

  lemma OthersNeverReturnALock(b: Backoff, s: Sys, e: Event, token: Token)
    requires !OfLibrary(e) && LostLock(s, token) && token.job < s.db.nextId
    requires token.job in s.hist.lastLock && token.lock.at <= s.hist.lastLock[token.job]
    ensures LostLock(Apply(b, s, e), token)
  {
  }

  lemma {:induction false} AttemptsStayInMemory(b: Backoff, s: Sys, e: Event, token: Token)
    requires token in s.runs
    ensures token in Apply(b, s, e).runs
  {
  }

  lemma {:induction false} LostLockStays(b: Backoff, s: Sys, e: Event, token: Token)
    requires Inv(b, s) && LostLock(s, token)
    ensures LostLock(Apply(b, s, e), token)
  {
    if OfLibrary(e) {
      assert InBudget(s.db, token.job) by { assert token.job in s.db.jobs ==> JobOk(s, token.job); }
      LibraryIsTame(b, s, e, token.job);
      AttemptsStayInMemory(b, s, e, token);
    } else {
      OthersNeverReturnALock(b, s, e, token);
    }
  }

  lemma {:induction false} LostLockForever(b: Backoff, s: Sys, events: seq<Event>, token: Token)
    requires Monotone(b) && Inv(b, s) && LostLock(s, token)
    ensures LostLock(After(b, s, events), token)
  {
    if events != [] {
      LostLockForever(b, s, events[..|events| - 1], token);
      RunsKeep(b, s, events[..|events| - 1]);
      LostLockStays(b, After(b, s, events[..|events| - 1]), events[|events| - 1], token);
    }
  }

  /** Writes that name an attempt. */
  predicate WrittenBy(e: Event, token: Token) {
    match e
    case Enter(who, _, _, _, _) => who == token
    case Continuation(who, _, _, _, _) => who == token
    case Settled(who, _, _, _) => who == token
    case Retry(who, _) => who == token
    case Step(who, _, _) => who == token
    case Progress(who, _) => who == token
    case _ => false
  }

  lemma LostWritesNothing(b: Backoff, s: Sys, e: Event, token: Token)
    requires LostLock(s, token) && WrittenBy(e, token)
    ensures Apply(b, s, e).db == s.db
  {
  }

  /** Once an attempt lost its lock, by failure update, release, reclaim or removal, none of
      its writes ever changes a table again, also when its own pool locks the job anew. */
  lemma {:induction false} Fencing(b: Backoff, before: seq<Event>, after: seq<Event>, token: Token, e: Event)
    requires Monotone(b) && LostLock(After(b, START, before), token) && WrittenBy(e, token)
    ensures var s := After(b, After(b, START, before), after);
            !Owns(s.db, token) && Apply(b, s, e).db == s.db
  {
    Reachable(b, before);
    LostLockForever(b, After(b, START, before), after, token);
    LostWritesNothing(b, After(b, After(b, START, before), after), e, token);
  }

  // When the next attempt is due --------------------------------------------------------------

  /** A scheduled retry obeys the same law: never before the requested time, never before the
      default backoff, and at the time `scheduleRetry` announced when the update is not late. */
  lemma RetryIsDueAsRequested(db: Db, token: Token, at: Time, b: Backoff, now: Time, t: Time)
    requires Owns(db, token) && now <= t
    ensures var row := ScheduleRetry(db, token, at, b).jobs[token.job];
            var failed := FailRow(row, b, t);
            && failed.runAt == Max(t + b(row.attempts), at)
            && failed.attempts == db.jobs[token.job].attempts
            && Max(now, row.runAt) + b(row.attempts) <= failed.runAt
            && (t == now || t + b(row.attempts) <= at ==> failed.runAt == Max(now, row.runAt) + b(row.attempts))
  {
  }
}
