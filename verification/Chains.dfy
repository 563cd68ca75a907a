/** Continuations: one runnable incarnation per job, and a sweep that spares the living. */
module Chains {
  import opened Wrappers
  import opened Tables
  import opened Protocol
  import opened Invariants
  import opened Rows

  /** The newest job of the chain that `j` belongs to. */
  function Newest(next: map<JobId, JobId>, j: JobId, limit: JobId): JobId
    decreases limit - j
  {
    if j in next && j < next[j] < limit then Newest(next, next[j], limit) else j
  }

  predicate SameChain(s: Sys, i: JobId, j: JobId) {
    Newest(s.hist.next, i, s.db.nextId) == Newest(s.hist.next, j, s.db.nextId)
  }

  predicate Runnable(db: Db, j: JobId) { j in db.jobs && !Exhausted(db.jobs[j]) }

  /** Every continuation carries the input its chain began with. */
  lemma {:induction false} ChainKeepsInput(s: Sys, j: JobId)
    requires LivesOk(s) && ChainsOk(s) && j in s.hist.born
    ensures var newest := Newest(s.hist.next, j, s.db.nextId);
            newest in s.hist.born && newest !in s.hist.next && s.hist.born[newest].input == s.hist.born[j].input
    decreases s.db.nextId - j
  {
    if j in s.hist.next { ChainKeepsInput(s, s.hist.next[j]); }
  }

  /** At most one job of a chain can run, it is the newest, and it has the chain's input. */
  lemma {:induction false} OneRunnableIncarnation(b: Backoff, events: seq<Event>, i: JobId, j: JobId)
    requires Monotone(b)
    ensures var s := After(b, START, events);
            Runnable(s.db, j) && i in s.hist.born && SameChain(s, i, j) ==>
              && (Runnable(s.db, i) ==> i == j)
              && j == Newest(s.hist.next, i, s.db.nextId)
              && s.db.jobs[j].envelope.input == s.hist.born[i].input
  {
    Reachable(b, events);
    var s := After(b, START, events);
    if Runnable(s.db, j) && i in s.hist.born && SameChain(s, i, j) {
      assert JobOk(s, j);
      ChainKeepsInput(s, i);
      if Runnable(s.db, i) { assert JobOk(s, i); }
    }
  }

  /** The heir of a continued row. */
  predicate Inherits(was: Job, heir: Job, runAt: Time, traceparent: Option<string>, latest: Option<Json>) {
    && heir.attempts == 0 && heir.lock.None? && heir.runAt == runAt
    && heir.task == was.task && heir.lane == was.lane && heir.key == was.key && heir.priority == was.priority
    && heir.flags == was.flags && heir.maxAttempts == was.maxAttempts
    && heir.envelope.input == was.envelope.input && heir.envelope.steps == was.envelope.steps
    && heir.envelope.waited == was.envelope.waited && heir.envelope.cron.None?
    && heir.envelope.traceparent == traceparent
    && heir.envelope.progress == (if latest.Some? then latest else was.envelope.progress)
  }

  lemma SuccessorInherits(db: Db, id: JobId, runAt: Option<Time>, traceparent: Option<string>, latest: Option<Json>,
                          now: Time)
    requires id in db.jobs && id < db.nextId
    ensures var after := Succeed(db, id, runAt, traceparent, latest, now);
            && db.nextId in after.jobs && after.nextId == db.nextId + 1
            && Inherits(db.jobs[id], after.jobs[db.nextId], runAt.GetOr(now), traceparent, latest)
            && id in after.jobs && Exhausted(after.jobs[id]) && after.jobs[id].lock == db.jobs[id].lock
  {
  }

  lemma DeletedAndRecorded(db: Db, token: Token, state: OutcomeState, now: Time)
    requires Owns(db, token)
    ensures var after := Settle(db, token, Settlement(Some(state), None, Delete), now);
            && after.jobs == db.jobs - {token.job} && after.nextId == db.nextId
            && token.job in after.outcomes && after.outcomes[token.job].state == state
            && after.outcomes[token.job].finishedAt == now
            && after.outcomes == db.outcomes[token.job := after.outcomes[token.job]]
  {
  }

  /** A continuation starts afresh with the job's task, lane, key, priority, flags, budget,
      input, steps, mark and latest progress; the continued row has no attempt left, or is
      gone with its outcome recorded. */
  lemma ContinuationKeepsTheJob(db: Db, token: Token, runAt: Option<Time>, traceparent: Option<string>,
                                latest: Option<Json>, record: bool, now: Time)
    requires Owns(db, token) && token.job < db.nextId
    ensures var after := Continue(db, token, runAt, traceparent, latest, record, now);
            && db.nextId in after.jobs && after.nextId == db.nextId + 1
            && Inherits(db.jobs[token.job], after.jobs[db.nextId], runAt.GetOr(now), traceparent, latest)
            && !Runnable(after, token.job)
            && (!record ==> token.job in after.jobs && after.jobs[token.job].lock == db.jobs[token.job].lock)
            && (record ==> token.job !in after.jobs && token.job in after.outcomes
                           && after.outcomes[token.job].state == Continued(db.nextId))
  {
    SuccessorInherits(db, token.job, runAt, traceparent, latest, now);
    if record {
      DeletedAndRecorded(Succeed(db, token.job, runAt, traceparent, latest, now), token, Continued(db.nextId), now);
    }
  }

  /** An owner's continuation commits exactly that: its run has ended, its job is gone or spent, and
      the successor is the job's. */
  lemma ContinuationsCommit(b: Backoff, s: Sys, e: Event, t: Sys)
    requires Inv(b, s) && e.Continuation? && MayContinue(s, e.token) && Owns(s.db, e.token) && t == Apply(b, s, e)
    ensures var next := s.db.nextId;
            && e.token in t.runs && t.runs[e.token].ended == Some(ContinuedTo(next))
            && next in t.db.jobs && t.db.nextId == next + 1 && t.hist.next == s.hist.next[e.token.job := next]
            && Inherits(s.db.jobs[e.token.job], t.db.jobs[next], if e.runAt.Some? then e.runAt.value else s.clock,
                        e.traceparent, e.latest)
            && !Runnable(t.db, e.token.job) && (e.record ==> e.token.job !in t.db.jobs)
  {
    LifeOf(s, e.token.job);
    ContinuationKeepsTheJob(s.db, e.token, e.runAt, e.traceparent, e.latest, e.record, s.clock);
  }

  /** Every wait on the continued job now waits on its continuation, and no other row moved. */
  lemma WaitsFollow(db: Db, token: Token, runAt: Option<Time>, traceparent: Option<string>,
                    latest: Option<Json>, record: bool, now: Time, key: GroupKey, i: nat)
    requires Owns(db, token) && key in db.groups && i < |db.groups[key].waits|
    ensures var groups := Continue(db, token, runAt, traceparent, latest, record, now).groups;
            var wait := db.groups[key].waits[i];
            && key in groups && |groups[key].waits| == |db.groups[key].waits|
            && groups[key].remaining == db.groups[key].remaining
            && groups[key].waits[i] ==
                 if wait.child == token.job && wait.result.None? && db.jobs[token.job].envelope.waited
                 then wait.(child := db.nextId) else wait
  {
  }

  /** In every reachable state an unresolved row whose child was not stale when its wait opened
      names the newest job of the child's chain, and that job carries the mark that will move
      the row along. */
  lemma {:induction false} OpenWaitsNameTheNewest(b: Backoff, events: seq<Event>, key: GroupKey, i: nat)
    requires Monotone(b)
    requires var s := After(b, START, events);
             && key in s.db.groups && i < |s.db.groups[key].waits|
             && s.db.groups[key].waits[i].result.None? && s.db.groups[key].waits[i].child !in s.hist.stale
    ensures var s := After(b, START, events);
            var child := s.db.groups[key].waits[i].child;
            && Newest(s.hist.next, child, s.db.nextId) == child
            && (child in s.db.jobs ==> s.db.jobs[child].envelope.waited)
  {
    Reachable(b, events);
    var s := After(b, START, events);
    assert GroupOk(s, key) && WaitOk(s, s.db.groups[key].waits[i]);
  }

  // Sweeps ----------------------------------------------------------------------------

  /** A job no worker can ever claim: the end of its chain, and lost. */
  predicate Hopeless(s: Sys, c: JobId) { c < s.db.nextId && c !in s.hist.next && Lost(s.db.jobs, c) }

  lemma OthersKeepHopeless(b: Backoff, s: Sys, e: Event, c: JobId)
    requires !OfLibrary(e) && Hopeless(s, c)
    ensures Hopeless(Apply(b, s, e), c)
  {
  }

  lemma EnterExtendsNoChain(b: Backoff, s: Sys, token: Token, waitId: StepId, count: nat, prepared: Prepared,
                            timeout: Option<nat>)
    requires MayEnter(s, token, waitId)
    ensures var t := DoEnter(b, s, token, waitId, count, prepared, timeout);
            s.db.nextId <= t.db.nextId && t.hist.next == s.hist.next
  {
    var key := GroupKey(token.job, waitId);
    if Owns(s.db, token) && key !in s.db.groups && Enqueues(prepared, count) {
      OpenExtendsNoChain(s, key, prepared.children, timeout);
    }
  }

  lemma OpenExtendsNoChain(s: Sys, key: GroupKey, children: seq<Child>, timeout: Option<nat>)
    requires forall i :: 0 <= i < |children| ==> !children[i].Missing?
    ensures var t := DoOpen(s, key, children, timeout);
            && s.db.nextId <= t.db.nextId && t.hist.next == s.hist.next && t.runs == s.runs
            && key in t.db.groups && forall j :: j in s.db.jobs ==> j in t.db.jobs
  {
  }

  lemma SettleKeepsIds(s: Sys, token: Token, report: Report, row: RowAction, record: bool)
    requires MaySettle(s, token)
    ensures var t := DoSettle(s, token, report, row, record); t.db.nextId == s.db.nextId && t.hist.next == s.hist.next
  {
  }

  lemma ContinuationExtendsItsChain(b: Backoff, s: Sys, e: Event, c: JobId)
    requires e.Continuation?
    ensures var t := Apply(b, s, e);
            && s.db.nextId <= t.db.nextId
            && (c !in s.hist.next && c in t.hist.next ==> c in s.db.jobs && s.db.jobs[c].lock.Some?)
  {
  }

  lemma EntriesExtendNoChain(b: Backoff, s: Sys, e: Event)
    requires e.Enter?
    ensures s.db.nextId <= Apply(b, s, e).db.nextId && Apply(b, s, e).hist.next == s.hist.next
  {
    if MayEnter(s, e.token, e.waitId) { EnterExtendsNoChain(b, s, e.token, e.waitId, e.count, e.prepared, e.timeout); }
  }

  lemma SettlementsExtendNoChain(b: Backoff, s: Sys, e: Event)
    requires e.Settled?
    ensures s.db.nextId <= Apply(b, s, e).db.nextId && Apply(b, s, e).hist.next == s.hist.next
  {
    if MaySettle(s, e.token) { SettleKeepsIds(s, e.token, e.report, e.row, e.record); }
  }

  lemma WritesExtendNoChain(b: Backoff, s: Sys, e: Event)
    requires OfLibrary(e) && !e.Continuation?
    ensures s.db.nextId <= Apply(b, s, e).db.nextId && Apply(b, s, e).hist.next == s.hist.next
  {
    if e.Enter? {
      EntriesExtendNoChain(b, s, e);
    } else if e.Settled? {
      SettlementsExtendNoChain(b, s, e);
    }
  }

  /** Only a run that holds its row continues it, and ids are never handed out twice. */
  lemma {:induction false} LibraryExtendsChains(b: Backoff, s: Sys, e: Event, c: JobId)
    requires OfLibrary(e)
    ensures s.db.nextId <= Apply(b, s, e).db.nextId
    ensures c !in s.hist.next && c in Apply(b, s, e).hist.next ==> c in s.db.jobs && s.db.jobs[c].lock.Some?
  {
    if e.Continuation? { ContinuationExtendsItsChain(b, s, e, c); } else { WritesExtendNoChain(b, s, e); }
  }

  lemma {:induction false} HopelessStays(b: Backoff, s: Sys, e: Event, c: JobId)
    requires Inv(b, s) && Hopeless(s, c)
    ensures Hopeless(Apply(b, s, e), c)
  {
    if OfLibrary(e) {
      assert InBudget(s.db, c) by { assert c in s.db.jobs ==> JobOk(s, c); }
      LibraryIsTame(b, s, e, c);
      LibraryExtendsChains(b, s, e, c);
    } else {
      OthersKeepHopeless(b, s, e, c);
    }
  }

  lemma {:induction false} HopelessForever(b: Backoff, s: Sys, events: seq<Event>, c: JobId)
    requires Monotone(b) && Inv(b, s) && Hopeless(s, c)
    ensures Hopeless(After(b, s, events), c)
  {
    if events != [] {
      var n := |events| - 1;
      HopelessForever(b, s, events[..n], c);
      RunsKeep(b, s, events[..n]);
      HopelessStays(b, After(b, s, events[..n]), events[n], c);
    }
  }

  /** The sweep's first statement resolves this row, whose child was not stale. */
  predicate Sweeps(s: Sys, skipped: set<WaitKey>, key: GroupKey, i: nat) {
    && key in s.db.groups && i < |s.db.groups[key].waits|
    && s.db.groups[key].waits[i].result.None? && s.db.groups[key].waits[i].child !in s.hist.stale
    && Hit(key, i, s.db.groups[key].waits[i], LostVerdict(s.db, skipped))
  }

  lemma SweptIsHopeless(b: Backoff, s: Sys, skipped: set<WaitKey>, key: GroupKey, i: nat)
    requires Inv(b, s) && Sweeps(s, skipped, key, i)
    ensures Hopeless(s, s.db.groups[key].waits[i].child)
    ensures var after := ReportLost(s.db, skipped, s.clock).groups;
            key in after && |after[key].waits| == |s.db.groups[key].waits| && after[key].waits[i].result.Some?
  {
    assert GroupOk(s, key) && WaitOk(s, s.db.groups[key].waits[i]);
  }

  lemma HopelessChainsNeverRun(b: Backoff, s: Sys, c: JobId, j: JobId)
    requires Inv(b, s) && Hopeless(s, c)
    ensures j in s.hist.born && SameChain(s, j, c) ==> !Runnable(s.db, j) && !Claimable(s, j)
  {
    if j in s.hist.born && SameChain(s, j, c) && j in s.db.jobs {
      ChainKeepsInput(s, j);
      assert JobOk(s, j);
    }
  }

  /** A row that a sweep resolves: its child's chain never runs again, in no later state,
      unless the child was waited on through an idempotency key after it had continued. */
  lemma {:induction false} SweepSparesTheLiving(b: Backoff, before: seq<Event>, skipped: set<WaitKey>,
                                                after: seq<Event>, key: GroupKey, i: nat, j: JobId)
    requires Monotone(b) && Sweeps(After(b, START, before), skipped, key, i)
    ensures var c := After(b, START, before).db.groups[key].waits[i].child;
            var t := After(b, After(b, START, before), [SweepLost(skipped)] + after);
            j in t.hist.born && SameChain(t, j, c) ==> !Runnable(t.db, j) && !Claimable(t, j)
  {
    var s := After(b, START, before);
    Reachable(b, before);
    SweptIsHopeless(b, s, skipped, key, i);
    var c, events := s.db.groups[key].waits[i].child, [SweepLost(skipped)] + after;
    HopelessForever(b, s, events, c);
    RunsKeep(b, s, events);
    HopelessChainsNeverRun(b, After(b, s, events), c, j);
  }

  /** The exception: a wait opens on the newest jobs only if no child it was given through an
      idempotency key had continued before. */
  lemma {:induction false} OpensOnNewest(s: Sys, key: GroupKey, children: seq<Child>, timeout: Option<nat>)
    requires ChainsOk(s) && LivesOk(s) && Enqueueable(s, children) && forall j :: j in s.db.jobs ==> j < s.db.nextId
    ensures var waits := DoOpen(s, key, children, timeout).db.groups[key].waits;
            (forall i :: 0 <= i < |waits| ==> waits[i].child !in s.hist.next)
            <==> (forall i :: 0 <= i < |children| && children[i].Existing? ==> children[i].id !in s.hist.next)
  {
    ChildIds(s, children);
    AddAllMatches(s, children);
    var ids := AddAll(s, children).1;
    var waits := DoOpen(s, key, children, timeout).db.groups[key].waits;
    assert forall i :: 0 <= i < |children| ==> waits[i].child == ids[i];
    if i :| 0 <= i < |children| && children[i].Existing? && children[i].id in s.hist.next {
      assert waits[i].child in s.hist.next;
    }
  }
}
