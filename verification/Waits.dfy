/** Waits over whole runs: counts, results and enqueues. */
module Waits {
  import opened Wrappers
  import opened Tables
  import opened Protocol
  import opened Invariants
  import opened Chains
  import opened Rows

  // Conservation ------------------------------------------------------------------------

  /** In every reachable state a group counts exactly its unresolved rows, however many of
      them one child fills, and is finished exactly when every row holds a result. */
  lemma {:induction false} RemainingIsConserved(b: Backoff, events: seq<Event>, key: GroupKey)
    requires Monotone(b)
    ensures var groups := After(b, START, events).db.groups;
            key in groups ==>
              && groups[key].remaining == Pending(groups[key].waits) >= 0
              && (groups[key].remaining == 0 <==>
                    forall i :: 0 <= i < |groups[key].waits| ==> groups[key].waits[i].result.Some?)
  {
    Reachable(b, events);
    var s := After(b, START, events);
    if key in s.db.groups {
      assert GroupOk(s, key);
      NonePending(s.db.groups[key].waits, |s.db.groups[key].waits|);
    }
  }

  /** A wait that finishes at zero checkpoints one present result per child, in row order. */
  lemma {:induction false} FinishedWaitsAreComplete(b: Backoff, events: seq<Event>, key: GroupKey, i: nat)
    requires Monotone(b)
    requires var groups := After(b, START, events).db.groups;
             key in groups && groups[key].remaining == 0 && i < |groups[key].waits|
    ensures var group := After(b, START, events).db.groups[key];
            && CheckpointOf(group).Results? && |CheckpointOf(group).results| == |group.waits|
            && group.waits[i].result.Some?
            && CheckpointOf(group).results[i] == ChildResult(group.waits[i].child, group.waits[i].result)
  {
    RemainingIsConserved(b, events, key);
  }

  /** After a timeout the checkpoint names exactly the children without a result. */
  lemma {:induction false} TimeoutNamesTheUnfinished(waits: seq<Wait>, c: JobId)
    ensures c in Unfinished(waits) <==> exists i :: 0 <= i < |waits| && waits[i].child == c && waits[i].result.None?
  {
    if waits != [] {
      var n := |waits| - 1;
      TimeoutNamesTheUnfinished(waits[..n], c);
      if i :| 0 <= i < |waits| && waits[i].child == c && waits[i].result.None? {
        assert i < n ==> waits[..n][i] == waits[i];
      }
    }
  }

  /** A row as an enqueue asks for it, apart from its envelope. */
  predicate BornFrom(job: Job, spec: JobSpec, now: Time) {
    && job.task == spec.task && job.lane == spec.lane && job.key == spec.key && job.priority == spec.priority
    && job.flags == spec.flags && job.maxAttempts == spec.maxAttempts && job.attempts == 0 && job.lock.None?
    && job.runAt == (if spec.runAt.Some? then spec.runAt.value else now) && job.createdAt == now && job.lastError.None?
  }

  /** A wait opens with one unresolved row per input, in input order, and counts its timeout from
      now: row i names the job that input i's key had recorded, or the row that holds input i's
      spec and the mark. */
  lemma {:induction false} ChildrenOpenInOrder(s: Sys, key: GroupKey, children: seq<Child>, timeout: Option<nat>)
    requires Enqueueable(s, children) && DistinctKeys(children) && forall j :: j in s.db.jobs ==> j < s.db.nextId
    ensures var t := DoOpen(s, key, children, timeout);
            && key in t.db.groups && |t.db.groups[key].waits| == |children| == t.db.groups[key].remaining
            && t.db.groups[key].deadline == (if timeout.Some? then Some(s.clock + timeout.value) else None)
            && var waits := t.db.groups[key].waits;
            && (forall i :: 0 <= i < |waits| ==>
                  && waits[i].result.None?
                  && match children[i]
                     case Existing(id) => waits[i].child == id
                     case New(spec) =>
                       && s.db.nextId <= waits[i].child && waits[i].child in t.db.jobs
                       && BornFrom(t.db.jobs[waits[i].child], spec, s.clock)
                       && t.db.jobs[waits[i].child].envelope == spec.envelope.(waited := true)
                     case Missing => false)
            && forall i, k :: 0 <= i < k < |waits| && children[i].New? && children[k].New? ==> waits[i].child < waits[k].child
  {
    ChildIds(s, children);
    AddAllMatches(s, children);
    var (added, ids) := AddAll(s, children);
    var waits := DoOpen(s, key, children, timeout).db.groups[key].waits;
    forall i | 0 <= i < |waits| ensures waits[i] == Wait(ids[i], None, 0) && ids[i] in ids {}
  }

  // Results are written once, in place ----------------------------------------------------

  /** A resolved row never changes; an unresolved one at most follows a continuation. */
  predicate WaitStep(next: map<JobId, JobId>, before: Wait, after: Wait) {
    && (before.result.Some? ==> after == before)
    && (after.child == before.child || (before.child in next && after.child == next[before.child]))
  }

  predicate GroupStep(next: map<JobId, JobId>, before: Group, after: Group) {
    && |after.waits| == |before.waits| && after.deadline == before.deadline
    && forall i :: 0 <= i < |before.waits| ==> WaitStep(next, before.waits[i], after.waits[i])
  }

  lemma EntersStep(b: Backoff, s: Sys, token: Token, waitId: StepId, count: nat, prepared: Prepared,
                   timeout: Option<nat>, key: GroupKey)
    requires MayEnter(s, token, waitId)
    ensures var t := DoEnter(b, s, token, waitId, count, prepared, timeout);
            && (key in s.db.groups && key in t.db.groups ==> t.db.groups[key] == s.db.groups[key])
            && (key !in s.db.groups && key in t.db.groups ==> Owns(s.db, token) && key == GroupKey(token.job, waitId))
  {
    var own := GroupKey(token.job, waitId);
    if Owns(s.db, token) && own !in s.db.groups && Enqueues(prepared, count) {
      OpenExtendsNoChain(s, own, prepared.children, timeout);
      OpensOneGroup(s, own, prepared.children, timeout);
    }
  }

  lemma OpensOneGroup(s: Sys, key: GroupKey, children: seq<Child>, timeout: Option<nat>)
    requires forall i :: 0 <= i < |children| ==> !children[i].Missing?
    ensures var groups := DoOpen(s, key, children, timeout).db.groups;
            key in groups && groups == s.db.groups[key := groups[key]]
  {
  }

  lemma ReportsStep(db: Db, verdict: Verdict, now: Time, next: map<JobId, JobId>, key: GroupKey)
    requires key in db.groups
    ensures GroupStep(next, db.groups[key], ReportAll(db, verdict, now).groups[key])
  {
  }

  lemma SettledGroups(db: Db, token: Token, settlement: Settlement, now: Time)
    requires Owns(db, token)
    ensures var recorded := Record(db, token.job, settlement.outcome, now);
            && recorded.groups == db.groups
            && Settle(db, token, settlement, now).groups == ReportOne(recorded, token.job, settlement.report, now).groups
  {
  }

  lemma OneReportsStep(db: Db, id: JobId, report: Option<Report>, now: Time, next: map<JobId, JobId>, key: GroupKey)
    ensures var after := ReportOne(db, id, report, now);
            && after.groups.Keys == db.groups.Keys
            && (key in db.groups ==> GroupStep(next, db.groups[key], after.groups[key]))
  {
    if report.Some? && key in db.groups { ReportsStep(db, Verdict(map[id := report.value], {}), now, next, key); }
  }

  lemma SettlesStep(db: Db, token: Token, settlement: Settlement, now: Time, next: map<JobId, JobId>, key: GroupKey)
    ensures var after := Settle(db, token, settlement, now);
            && after.groups.Keys == db.groups.Keys
            && (key in db.groups ==> GroupStep(next, db.groups[key], after.groups[key]))
  {
    if Owns(db, token) {
      SettledGroups(db, token, settlement, now);
      OneReportsStep(Record(db, token.job, settlement.outcome, now), token.job, settlement.report, now, next, key);
    }
  }

  lemma SucceedsStep(db: Db, id: JobId, runAt: Option<Time>, traceparent: Option<string>, latest: Option<Json>,
                     now: Time,
                     next: map<JobId, JobId>, key: GroupKey)
    requires id in db.jobs && id in next && next[id] == db.nextId
    ensures var after := Succeed(db, id, runAt, traceparent, latest, now);
            && after.groups.Keys == db.groups.Keys
            && (key in db.groups ==> GroupStep(next, db.groups[key], after.groups[key]))
  {
  }

  lemma ContinuesStep(s: Sys, token: Token, runAt: Option<Time>, traceparent: Option<string>, latest: Option<Json>,
                      record: bool, key: GroupKey)
    requires MayContinue(s, token)
    ensures var t := DoContinue(s, token, runAt, traceparent, latest, record);
            && t.db.groups.Keys == s.db.groups.Keys
            && (key in s.db.groups ==> GroupStep(t.hist.next, s.db.groups[key], t.db.groups[key]))
  {
    if Owns(s.db, token) {
      SucceedsStep(s.db, token.job, runAt, traceparent, latest, s.clock, s.hist.next[token.job := s.db.nextId], key);
      var succeeded := Succeed(s.db, token.job, runAt, traceparent, latest, s.clock);
      if record && Owns(succeeded, token) {
        SettledGroups(succeeded, token, Settlement(Some(Continued(s.db.nextId)), None, Delete), s.clock);
      }
    }
  }

  lemma LostReportsStep(db: Db, skipped: set<WaitKey>, now: Time, next: map<JobId, JobId>, key: GroupKey)
    ensures var groups := ReportLost(db, skipped, now).groups;
            && groups.Keys == db.groups.Keys && (key in groups ==> GroupStep(next, db.groups[key], groups[key]))
  {
    if key in db.groups { ReportsStep(db, LostVerdict(db, skipped), now, next, key); }
  }

  lemma SweepsStep(b: Backoff, s: Sys, e: Event, key: GroupKey)
    requires OfSweep(e)
    ensures var groups := Apply(b, s, e).db.groups;
            && groups.Keys <= s.db.groups.Keys
            && (key in groups ==> GroupStep(s.hist.next, s.db.groups[key], groups[key]))
  {
    if e.SweepLost? { LostReportsStep(s.db, e.skipped, s.clock, s.hist.next, key); }
  }

  lemma WritesStep(b: Backoff, s: Sys, e: Event, key: GroupKey)
    requires e.Continuation? || e.Settled?
    ensures var t := Apply(b, s, e);
            && t.db.groups.Keys == s.db.groups.Keys
            && (key in s.db.groups ==> GroupStep(t.hist.next, s.db.groups[key], t.db.groups[key]))
  {
    match e
    case Continuation(token, runAt, traceparent, latest, record) =>
      if MayContinue(s, token) { ContinuesStep(s, token, runAt, traceparent, latest, record, key); }
    case Settled(token, report, row, record) =>
      if MaySettle(s, token) {
        SettlesStep(s.db, token, SettlementOf(report, row, record, s.runs[token].waited), s.clock, s.hist.next, key);
      }
  }

  lemma EntryStep(b: Backoff, s: Sys, e: Event, key: GroupKey)
    requires e.Enter?
    ensures var t := Apply(b, s, e);
            && (key in s.db.groups && key in t.db.groups ==> t.db.groups[key] == s.db.groups[key])
            && (key !in s.db.groups && key in t.db.groups ==> Opens(s, e, key))
  {
    if MayEnter(s, e.token, e.waitId) { EntersStep(b, s, e.token, e.waitId, e.count, e.prepared, e.timeout, key); }
  }

  /** One event and one group: its rows step, and only an owner's first entry opens one. */
  lemma {:induction false} GroupsStep(b: Backoff, s: Sys, e: Event, key: GroupKey)
    ensures var t := Apply(b, s, e);
            && (key in s.db.groups && key in t.db.groups ==> GroupStep(t.hist.next, s.db.groups[key], t.db.groups[key]))
            && (key !in s.db.groups && key in t.db.groups ==> Opens(s, e, key))
  {
    if e.Enter? {
      EntryStep(b, s, e, key);
    } else if e.Continuation? || e.Settled? {
      WritesStep(b, s, e, key);
    } else if OfSweep(e) {
      SweepsStep(b, s, e, key);
    } else {
      OthersStep(b, s, e, key);
    }
  }

  predicate Opens(s: Sys, e: Event, key: GroupKey) {
    e.Enter? && MayEnter(s, e.token, e.waitId) && Owns(s.db, e.token) && key == GroupKey(e.token.job, e.waitId)
  }

  lemma OthersStep(b: Backoff, s: Sys, e: Event, key: GroupKey)
    requires !e.Enter? && !e.Continuation? && !e.Settled? && !OfSweep(e)
    ensures Apply(b, s, e).db.groups == s.db.groups
  {
  }

  lemma {:induction false} EnqueuedGrows(b: Backoff, s: Sys, events: seq<Event>, key: GroupKey)
    requires key in s.hist.enqueued
    ensures key in After(b, s, events).hist.enqueued
  {
    if events != [] {
      EnqueuedGrows(b, s, events[..|events| - 1], key);
      EnqueuedStep(b, After(b, s, events[..|events| - 1]), events[|events| - 1], key);
    }
  }

  lemma EntersCounted(b: Backoff, s: Sys, token: Token, waitId: StepId, count: nat, prepared: Prepared,
                      timeout: Option<nat>)
    requires MayEnter(s, token, waitId)
    ensures var key := GroupKey(token.job, waitId);
            var t := DoEnter(b, s, token, waitId, count, prepared, timeout);
            t.hist.enqueued == s.hist.enqueued
              + if Owns(s.db, token) && key !in s.db.groups && Enqueues(prepared, count) then multiset{key} else multiset{}
  {
  }

  lemma OthersEnqueueNothing(b: Backoff, s: Sys, e: Event)
    requires !e.Enter?
    ensures Apply(b, s, e).hist.enqueued == s.hist.enqueued
  {
  }

  lemma EnqueuedStep(b: Backoff, s: Sys, e: Event, key: GroupKey)
    ensures s.hist.enqueued[key] <= Apply(b, s, e).hist.enqueued[key]
  {
    match e
    case Enter(token, waitId, count, prepared, timeout) =>
      if MayEnter(s, token, waitId) { EntersCounted(b, s, token, waitId, count, prepared, timeout); }
    case _ => OthersEnqueueNothing(b, s, e);
  }

  /** A group that was deleted never comes back: its children are not enqueued again. */
  lemma {:induction false} GoneStaysGone(b: Backoff, s: Sys, e: Event, key: GroupKey)
    requires Inv(b, s) && key in s.hist.enqueued && key !in s.db.groups
    ensures key !in Apply(b, s, e).db.groups
  {
    GroupsStep(b, s, e, key);
    if key in Apply(b, s, e).db.groups { NeverEntered(b, s, e.token, e.waitId); }
  }

  // Chains only grow ------------------------------------------------------------------------

  /** One more continuation moves the end of one chain and no other. */
  lemma {:induction false} NewestMoves(s: Sys, t: Sys, j: JobId, last: JobId)
    requires ChainsOk(s) && LivesOk(s) && j in s.hist.born && s.db.nextId < t.db.nextId
    requires last !in s.hist.next && last in s.hist.born && t.hist.next == s.hist.next[last := s.db.nextId]
    ensures var newest := Newest(s.hist.next, j, s.db.nextId);
            Newest(t.hist.next, j, t.db.nextId) == if newest == last then s.db.nextId else newest
    decreases s.db.nextId - j
  {
    assert s.db.nextId !in s.hist.born;
    if j in s.hist.next { NewestMoves(s, t, s.hist.next[j], last); }
    else if j == last { assert s.db.nextId !in t.hist.next; }
  }

  lemma {:induction false} NewestStays(s: Sys, t: Sys, j: JobId)
    requires ChainsOk(s) && LivesOk(s) && j in s.hist.born && s.db.nextId <= t.db.nextId && t.hist.next == s.hist.next
    ensures Newest(t.hist.next, j, t.db.nextId) == Newest(s.hist.next, j, s.db.nextId)
    decreases s.db.nextId - j
  {
    if j in s.hist.next { NewestStays(s, t, s.hist.next[j]); }
  }

  /** What an event does to the continuation history. */
  lemma HistoryStep(b: Backoff, s: Sys, e: Event)
    requires Inv(b, s)
    ensures var t := Apply(b, s, e);
            && s.db.nextId <= t.db.nextId
            && (t.hist.next == s.hist.next
                || (e.Continuation? && e.token.job !in s.hist.next && e.token.job in s.hist.born
                    && s.db.nextId < t.db.nextId && t.hist.next == s.hist.next[e.token.job := s.db.nextId]))
  {
    match e
    case Enter(token, waitId, count, prepared, timeout) =>
      if MayEnter(s, token, waitId) { EnterExtendsNoChain(b, s, token, waitId, count, prepared, timeout); }
    case Continuation(token, runAt, traceparent, latest, record) =>
      if MayContinue(s, token) && Owns(s.db, token) {
        LifeOf(s, token.job);
        ContinuesOnce(s, token, runAt, traceparent, latest, record);
      }
    case _ => OthersExtendNoChain(b, s, e);
  }

  lemma ContinuesOnce(s: Sys, token: Token, runAt: Option<Time>, traceparent: Option<string>, latest: Option<Json>,
                      record: bool)
    requires MayContinue(s, token) && Owns(s.db, token) && token.job < s.db.nextId
    ensures var t := DoContinue(s, token, runAt, traceparent, latest, record);
            s.db.nextId < t.db.nextId && t.hist.next == s.hist.next[token.job := s.db.nextId]
  {
    ContinuationKeepsTheJob(s.db, token, runAt, traceparent, latest, record, s.clock);
  }

  lemma OthersExtendNoChain(b: Backoff, s: Sys, e: Event)
    requires !e.Enter? && !e.Continuation?
    ensures s.db.nextId <= Apply(b, s, e).db.nextId && Apply(b, s, e).hist.next == s.hist.next
  {
    if e.Settled? && MaySettle(s, e.token) { SettleKeepsIds(s, e.token, e.report, e.row, e.record); }
  }

  lemma ChainStep(b: Backoff, s: Sys, e: Event, i: JobId, j: JobId)
    requires Inv(b, s) && i in s.hist.born && j in s.hist.born && SameChain(s, i, j)
    ensures SameChain(Apply(b, s, e), i, j)
  {
    var t := Apply(b, s, e);
    HistoryStep(b, s, e);
    if t.hist.next == s.hist.next {
      NewestStays(s, t, i);
      NewestStays(s, t, j);
    } else {
      NewestMoves(s, t, i, e.token.job);
      NewestMoves(s, t, j, e.token.job);
    }
  }

  /** Row `i` of a group as it was, against a later state: it kept its place, its result
      once written is final, and its child stays in the chain the wait began with. */
  predicate Kept(group: Group, i: nat, s: Sys, key: GroupKey)
    requires i < |group.waits|
  {
    key in s.db.groups ==>
      && |s.db.groups[key].waits| == |group.waits| && s.db.groups[key].deadline == group.deadline
      && var was, now := group.waits[i], s.db.groups[key].waits[i];
      && (was.result.Some? ==> now == was)
      && was.child in s.hist.born && now.child in s.hist.born && SameChain(s, was.child, now.child)
  }

  lemma KeptStep(b: Backoff, s: Sys, e: Event, group: Group, key: GroupKey, i: nat)
    requires Monotone(b) && Inv(b, s) && i < |group.waits| && key in s.hist.enqueued && Kept(group, i, s, key)
    ensures Kept(group, i, Apply(b, s, e), key)
  {
    var t := Apply(b, s, e);
    if key in t.db.groups {
      if key !in s.db.groups { GoneStaysGone(b, s, e, key); }
      GroupsStep(b, s, e, key);
      assert WaitStep(t.hist.next, s.db.groups[key].waits[i], t.db.groups[key].waits[i]);
      SameChainStep(b, s, e, group.waits[i].child, s.db.groups[key].waits[i].child, t.db.groups[key].waits[i].child);
    }
  }

  lemma SameChainStep(b: Backoff, s: Sys, e: Event, c: JobId, child: JobId, moved: JobId)
    requires Monotone(b) && Inv(b, s) && c in s.hist.born && child in s.hist.born && SameChain(s, c, child)
    requires var t := Apply(b, s, e); moved == child || (child in t.hist.next && moved == t.hist.next[child])
    ensures var t := Apply(b, s, e); c in t.hist.born && moved in t.hist.born && SameChain(t, c, moved)
  {
    ApplyKeeps(b, s, e);
    HistoryStep(b, s, e);
    ChainStep(b, s, e, c, child);
  }

  lemma {:induction false} ResultsKeepTheirPlace(b: Backoff, s: Sys, events: seq<Event>, key: GroupKey, i: nat)
    requires Monotone(b) && Inv(b, s) && key in s.db.groups && i < |s.db.groups[key].waits|
    ensures Kept(s.db.groups[key], i, After(b, s, events), key)
  {
    assert GroupOk(s, key) && WaitOk(s, s.db.groups[key].waits[i]);
    if events != [] {
      var n := |events| - 1;
      ResultsKeepTheirPlace(b, s, events[..n], key, i);
      RunsKeep(b, s, events[..n]);
      EnqueuedGrows(b, s, events[..n], key);
      KeptStep(b, After(b, s, events[..n]), events[n], s.db.groups[key], key, i);
    }
  }

  // Children are enqueued once ----------------------------------------------------------------

  /** Over all replays and crashes, a wait of a job enqueues its children at most once, and as
      long as the job's row lives its group or its checkpoint remembers that it did. */
  lemma {:induction false} ChildrenAreEnqueuedOnce(b: Backoff, events: seq<Event>, key: GroupKey)
    requires Monotone(b)
    ensures var s := After(b, START, events);
            && s.hist.enqueued[key] <= 1
            && (key in s.db.groups ==> s.hist.enqueued[key] == 1)
            && (key in s.hist.enqueued && key.parent in s.db.jobs ==>
                  key in s.db.groups || key.waitId in s.db.jobs[key.parent].envelope.steps)
  {
    Reachable(b, events);
    var s := After(b, START, events);
    if key in s.db.groups { assert GroupOk(s, key); }
  }

  /** The commits that enqueue a wait's children are counted one by one: exactly the entries
      that find no group and get an id for every child. */
  lemma {:induction false} EnqueuesAreCounted(b: Backoff, s: Sys, e: Event, key: GroupKey)
    ensures Apply(b, s, e).hist.enqueued[key] == s.hist.enqueued[key]
              + if Opens(s, e, key) && 0 < e.count && KnownChildren(s.db, e.prepared) && key !in s.db.groups
                   && Enqueues(e.prepared, e.count) then 1 else 0
  {
    match e
    case Enter(token, waitId, count, prepared, timeout) =>
      if MayEnter(s, token, waitId) { EntersCounted(b, s, token, waitId, count, prepared, timeout); }
    case _ => OthersEnqueueNothing(b, s, e);
  }

  /** A checkpointed wait never reaches the tables again: the run's step store holds it. */
  lemma {:induction false} CheckpointedWaitsStayOut(b: Backoff, events: seq<Event>, token: Token, waitId: StepId)
    requires Monotone(b)
    ensures var s := After(b, START, events);
            Owns(s.db, token) && waitId in s.db.jobs[token.job].envelope.steps ==> !MayEnter(s, token, waitId)
  {
    Reachable(b, events);
    var s := After(b, START, events);
    if Owns(s.db, token) { LifeOf(s, token.job); }
  }

  /** Steps and waits share one id space: a group and a checkpoint under one id exist together
      only if `ctx.step.run` wrote over an open wait, and that is the one event to do so. */
  ghost predicate Exclusive(s: Sys) {
    forall key :: key in s.db.groups && key.parent in s.db.jobs ==>
      key.waitId !in s.db.jobs[key.parent].envelope.steps
  }

  predicate OverwritesOpenWait(s: Sys, e: Event) {
    e.Step? && e.token in s.runs && Owns(s.db, e.token) && GroupKey(e.token.job, e.step) in s.db.groups
  }

  predicate ExclusiveAt(db: Db, key: GroupKey) {
    key in db.groups && key.parent in db.jobs ==> key.waitId !in db.jobs[key.parent].envelope.steps
  }

  lemma OpensExclusively(db: Db, open: GroupKey, children: seq<Child>, timeout: Option<nat>, now: Time, key: GroupKey)
    requires forall i :: 0 <= i < |children| ==> !children[i].Missing?
    requires key.parent < db.nextId && ExclusiveAt(db, key) && open.parent in db.jobs
    requires open.waitId !in db.jobs[open.parent].envelope.steps
    requires key in db.groups || key == open
    ensures ExclusiveAt(Open(db, open, children, timeout, now), key)
  {
    AddChildrenIsTame(db, children, now, key.parent);
  }

  lemma EndsExclusively(db: Db, token: Token, open: GroupKey, again: bool, b: Backoff, key: GroupKey)
    requires Owns(db, token) && open in db.groups && open.parent == token.job && ExclusiveAt(db, key)
    ensures ExclusiveAt(FinishWait(db, open), key)
    ensures var row := SuspendRow(db.jobs[token.job], Deadline(db.groups[open]), again, b);
            ExclusiveAt(db.(jobs := db.jobs[token.job := row]), key)
  {
  }

  lemma EntersExclusively(b: Backoff, s: Sys, token: Token, waitId: StepId, count: nat, prepared: Prepared,
                          timeout: Option<nat>, key: GroupKey)
    requires MayEnter(s, token, waitId) && key.parent < s.db.nextId && ExclusiveAt(s.db, key)
    requires Owns(s.db, token) ==> token.job < s.db.nextId && waitId !in s.db.jobs[token.job].envelope.steps
    requires key in s.db.groups || key == GroupKey(token.job, waitId)
    ensures ExclusiveAt(DoEnter(b, s, token, waitId, count, prepared, timeout).db, key)
  {
    var open := GroupKey(token.job, waitId);
    if Owns(s.db, token) && (open in s.db.groups || Enqueues(prepared, count)) {
      var entered := s.db;
      if open !in s.db.groups {
        OpensExclusively(s.db, open, prepared.children, timeout, s.clock, key);
        AddChildrenIsTame(s.db, prepared.children, s.clock, token.job);
        entered := Open(s.db, open, prepared.children, timeout, s.clock);
      }
      EndsExclusively(entered, token, open, s.runs[token].ended.Some?, b, key);
    }
  }

  lemma OthersExclusively(b: Backoff, s: Sys, e: Event, key: GroupKey)
    requires key.parent < s.db.nextId && key in s.db.groups && ExclusiveAt(s.db, key)
    requires !OfLibrary(e) || (e.Step? && !OverwritesOpenWait(s, e))
    ensures ExclusiveAt(Apply(b, s, e).db, key)
  {
  }

  lemma EnterExclusiveStep(b: Backoff, s: Sys, e: Event, key: GroupKey)
    requires Inv(b, s) && ExclusiveAt(s.db, key) && e.Enter? && key in Apply(b, s, e).db.groups
    ensures ExclusiveAt(Apply(b, s, e).db, key)
  {
    EntryStep(b, s, e, key);
    if MayEnter(s, e.token, e.waitId) {
      if Owns(s.db, e.token) { LifeOf(s, e.token.job); }
      if key in s.db.groups { assert GroupOk(s, key); }
      EntersExclusively(b, s, e.token, e.waitId, e.count, e.prepared, e.timeout, key);
    }
  }

  lemma TameStepIsExclusive(db: Db, after: Db, key: GroupKey)
    requires SteadyRow(db, after, key.parent) && key.parent < db.nextId && ExclusiveAt(db, key) && key in db.groups
    ensures ExclusiveAt(after, key)
  {
  }

  lemma ExclusiveStep(b: Backoff, s: Sys, e: Event, key: GroupKey)
    requires Inv(b, s) && ExclusiveAt(s.db, key) && !OverwritesOpenWait(s, e) && key in Apply(b, s, e).db.groups
    ensures ExclusiveAt(Apply(b, s, e).db, key)
  {
    if e.Enter? { EnterExclusiveStep(b, s, e, key); return; }
    GroupsStep(b, s, e, key);
    assert GroupOk(s, key);
    if OfLibrary(e) && !e.Step? {
      assert InBudget(s.db, key.parent) by { assert key.parent in s.db.jobs ==> JobOk(s, key.parent); }
      LibraryIsTame(b, s, e, key.parent);
      TameStepIsExclusive(s.db, Apply(b, s, e).db, key);
    } else {
      OthersExclusively(b, s, e, key);
    }
  }

  lemma NeverBoth(b: Backoff, s: Sys, e: Event)
    requires Inv(b, s) && Exclusive(s)
    ensures Exclusive(Apply(b, s, e)) <==> !OverwritesOpenWait(s, e)
  {
    if OverwritesOpenWait(s, e) {
      LifeOf(s, e.token.job);
      var key := GroupKey(e.token.job, e.step);
      assert key in Apply(b, s, e).db.groups;
    } else {
      forall key | key in Apply(b, s, e).db.groups ensures ExclusiveAt(Apply(b, s, e).db, key) {
        ExclusiveStep(b, s, e, key);
      }
    }
  }

  /** While the job's row lives, exactly one of group and checkpoint remembers a wait whose
      children were enqueued. */
  ghost predicate RememberedOnce(s: Sys) {
    forall key :: key in s.hist.enqueued && key.parent in s.db.jobs ==>
      (key in s.db.groups <==> key.waitId !in s.db.jobs[key.parent].envelope.steps)
  }

  lemma OnceIsNeverBoth(b: Backoff, s: Sys)
    requires Inv(b, s)
    ensures RememberedOnce(s) <==> Exclusive(s)
  {
    forall key | key in s.db.groups ensures key in s.hist.enqueued { assert GroupOk(s, key); }
  }

  /** Unless `ctx.step.run` is given the id of an open wait, exactly one of group and
      checkpoint remembers an entered wait; that one event breaks it. */
  lemma {:induction false} GroupOrCheckpoint(b: Backoff, s: Sys, e: Event)
    requires Monotone(b) && Inv(b, s) && RememberedOnce(s)
    ensures RememberedOnce(Apply(b, s, e)) <==> !OverwritesOpenWait(s, e)
  {
    OnceIsNeverBoth(b, s);
    NeverBoth(b, s, e);
    ApplyKeeps(b, s, e);
    OnceIsNeverBoth(b, Apply(b, s, e));
  }

  /** In every run whose steps never take the id of an open wait, every reachable state
      remembers each entered wait exactly once. */
  lemma {:induction false} WaitsAreRememberedOnce(b: Backoff, events: seq<Event>)
    requires Monotone(b)
    requires forall n :: 0 <= n < |events| ==> !OverwritesOpenWait(After(b, START, events[..n]), events[n])
    ensures RememberedOnce(After(b, START, events))
  {
    if events != [] {
      var n := |events| - 1;
      forall m | 0 <= m < n ensures !OverwritesOpenWait(After(b, START, events[..n][..m]), events[..n][m]) {
        assert events[..n][..m] == events[..m];
      }
      WaitsAreRememberedOnce(b, events[..n]);
      Reachable(b, events[..n]);
      GroupOrCheckpoint(b, After(b, START, events[..n]), events[n]);
    }
  }
}
