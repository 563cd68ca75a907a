/** What a run reports, records and stores: from the value its transaction was given to the row
    that a later reader finds. */
module Results {
  import opened Wrappers
  import opened Tables
  import opened Protocol
  import opened Invariants
  import opened Rows
  import opened Chains
  import opened Waits
  import opened Wakeups

  // What a settlement leaves ------------------------------------------------------------------

  /** An open row that names the child. */
  predicate Awaits(wait: Wait, child: JobId) { wait.result.None? && wait.child == child }

  /** The child fills every open row of the group, and at least one. */
  predicate LastChild(group: Group, child: JobId) {
    && (exists i :: 0 <= i < |group.waits| && Awaits(group.waits[i], child))
    && forall i :: 0 <= i < |group.waits| && group.waits[i].result.None? ==> group.waits[i].child == child
  }

  predicate LastChildOf(groups: map<GroupKey, Group>, child: JobId, parent: JobId) {
    exists key :: key in groups && key.parent == parent && LastChild(groups[key], child)
  }

  /** A run without an ending settles once, after its executor decided. */
  lemma DecidedRunsSettle(b: Backoff, s: Sys, token: Token, e: Event, t: Sys)
    requires MayContinue(s, token) && !s.runs[token].settled && t == Apply(b, s, Decide(token))
    requires e.Settled? && e.token == token
    ensures t.db == s.db && MaySettle(t, token) && !MaySettle(Apply(b, t, e), token)
  {
  }

  lemma SettledDb(b: Backoff, s: Sys, e: Event, t: Sys)
    requires e.Settled? && MaySettle(s, e.token) && t == Apply(b, s, e)
    ensures t.db == if e.record || s.runs[e.token].waited || e.row == Exhaust
                    then Settle(s.db, e.token, SettlementOf(e.report, e.row, e.record, s.runs[e.token].waited), s.clock)
                    else s.db
  {
  }

  /** A settlement hands its own report to every open row of its job, and to no other row; only a
      run that was claimed with the mark reports. */
  lemma SettlementsReport(b: Backoff, s: Sys, e: Event, t: Sys, key: GroupKey, i: nat)
    requires e.Settled? && MaySettle(s, e.token) && Owns(s.db, e.token) && t == Apply(b, s, e)
    requires key in s.db.groups && i < |s.db.groups[key].waits|
    ensures && key in t.db.groups && |t.db.groups[key].waits| == |s.db.groups[key].waits|
            && t.db.groups[key].deadline == s.db.groups[key].deadline
            && t.db.groups[key].waits[i] ==
                 if s.runs[e.token].waited && Awaits(s.db.groups[key].waits[i], e.token.job)
                 then Wait(e.token.job, Some(e.report), s.clock) else s.db.groups[key].waits[i]
  {
    SettledDb(b, s, e, t);
    SettledGroups(s.db, e.token, SettlementOf(e.report, e.row, e.record, s.runs[e.token].waited), s.clock);
  }

  /** Its outcome is the one it was asked to record, and no other outcome changes. */
  lemma SettlementsRecord(b: Backoff, s: Sys, e: Event, t: Sys)
    requires e.Settled? && MaySettle(s, e.token) && Owns(s.db, e.token) && t == Apply(b, s, e)
    ensures if !e.record then t.db.outcomes == s.db.outcomes
            else && e.token.job in t.db.outcomes
                 && t.db.outcomes == s.db.outcomes[e.token.job := t.db.outcomes[e.token.job]]
                 && Records(t.db.outcomes[e.token.job], e.report, s.db.jobs[e.token.job], s.clock)
  {
    SettledDb(b, s, e, t);
    SettleRecords(s.db, e.token, SettlementOf(e.report, e.row, e.record, s.runs[e.token].waited), s.clock);
  }

  predicate Records(outcome: Outcome, report: Report, job: Job, now: Time) {
    && (outcome.state.Completed? <==> report.Done?)
    && (report.Errored? ==> outcome.state == OutcomeState.Failed(report.message))
    && outcome.task == job.task && outcome.createdAt == job.createdAt && outcome.finishedAt == now
    && outcome.attempts == job.attempts && outcome.maxAttempts == job.maxAttempts
  }

  lemma SettleRecords(db: Db, token: Token, settlement: Settlement, now: Time)
    requires Owns(db, token)
    ensures Settle(db, token, settlement, now).outcomes == Record(db, token.job, settlement.outcome, now).outcomes
  {
  }

  /** It deletes, exhausts or keeps its row as asked; a run without outcome and mark leaves a
      completion to Graphile. */
  lemma SettlementsAct(b: Backoff, s: Sys, e: Event, t: Sys)
    requires e.Settled? && MaySettle(s, e.token) && Owns(s.db, e.token) && t == Apply(b, s, e)
    ensures match e.row
            case Delete => if e.record || s.runs[e.token].waited then e.token.job !in t.db.jobs else t.db == s.db
            case Exhaust => e.token.job in t.db.jobs && SameBut(s.db.jobs[e.token.job], t.db.jobs[e.token.job])
                            && t.db.jobs[e.token.job].maxAttempts == s.db.jobs[e.token.job].attempts
            case Keep => e.token.job in t.db.jobs && SameBut(s.db.jobs[e.token.job], t.db.jobs[e.token.job])
                         && t.db.jobs[e.token.job].maxAttempts == s.db.jobs[e.token.job].maxAttempts
  {
    SettledDb(b, s, e, t);
    SettleActs(s.db, e.token, SettlementOf(e.report, e.row, e.record, s.runs[e.token].waited), s.clock);
  }

  /** The rows differ at most in their time and budget. */
  predicate SameBut(before: Job, after: Job) {
    after == before.(runAt := after.runAt, maxAttempts := after.maxAttempts)
  }

  lemma SettleActs(db: Db, token: Token, settlement: Settlement, now: Time)
    requires Owns(db, token)
    ensures var jobs, j := Settle(db, token, settlement, now).jobs, token.job;
            match settlement.row
            case Delete => j !in jobs
            case Exhaust => j in jobs && SameBut(db.jobs[j], jobs[j]) && jobs[j].maxAttempts == db.jobs[j].attempts
            case Keep => j in jobs && SameBut(db.jobs[j], jobs[j]) && jobs[j].maxAttempts == db.jobs[j].maxAttempts
  {
    var recorded := Record(db, token.job, settlement.outcome, now);
    ReportIsTame(recorded, token.job, settlement.report, now, token.job);
  }

  lemma WakesTheLastOf(s: Sys, child: JobId, report: Report, parent: JobId)
    requires GroupsOk(s)
    ensures Wakes(s.db.groups, Verdict(map[child := report], {}), parent) <==> LastChildOf(s.db.groups, child, parent)
  {
    forall key | key in s.db.groups
      ensures Finishes(key, s.db.groups[key], Verdict(map[child := report], {})) <==> LastChild(s.db.groups[key], child)
    {
      FinishesTheLast(s, child, report, key);
    }
  }

  lemma FinishesTheLast(s: Sys, child: JobId, report: Report, key: GroupKey)
    requires GroupsOk(s) && key in s.db.groups
    ensures Finishes(key, s.db.groups[key], Verdict(map[child := report], {})) <==> LastChild(s.db.groups[key], child)
  {
    var waits, verdict := s.db.groups[key].waits, Verdict(map[child := report], {});
    assert GroupOk(s, key);
    HitsAreAwaited(key, waits, child, report, |waits|);
  }

  lemma {:induction false} HitsAreAwaited(key: GroupKey, waits: seq<Wait>, child: JobId, report: Report, n: nat)
    requires n <= |waits|
    ensures var hits := HitsIn(key, waits, Verdict(map[child := report], {}), n);
            && hits <= PendingIn(waits, n)
            && (hits > 0 <==> exists i :: 0 <= i < n && Awaits(waits[i], child))
            && (hits == PendingIn(waits, n) <==> forall i :: 0 <= i < n && waits[i].result.None? ==> waits[i].child == child)
  {
    if n > 0 {
      HitsAreAwaited(key, waits, child, report, n - 1);
      assert Awaits(waits[n - 1], child) <==> Hit(key, n - 1, waits[n - 1], Verdict(map[child := report], {}));
    }
  }

  /** It brings exactly the parents forward whose group waited for nobody else. */
  lemma SettlementsWake(b: Backoff, s: Sys, e: Event, t: Sys, j: JobId)
    requires Inv(b, s) && e.Settled? && MaySettle(s, e.token) && Owns(s.db, e.token) && t == Apply(b, s, e)
    requires j in s.db.jobs && j != e.token.job
    ensures j in t.db.jobs
            && t.db.jobs[j] == s.db.jobs[j].(runAt :=
                 if s.runs[e.token].waited && LastChildOf(s.db.groups, e.token.job, j)
                 then Min(s.db.jobs[j].runAt, s.clock) else s.db.jobs[j].runAt)
  {
    SettledDb(b, s, e, t);
    WakesTheLastOf(s, e.token.job, e.report, j);
    ReportsWakeExactly(s.db, e.token, SettlementOf(e.report, e.row, e.record, s.runs[e.token].waited), s.clock, j);
  }

  // Where results come from -----------------------------------------------------------------------

  /** The event reports the child: its owner's settlement, or a sweep that finds it lost. */
  predicate Reports(s: Sys, e: Event, child: JobId, report: Report) {
    || (e.Settled? && MaySettle(s, e.token) && Owns(s.db, e.token) && s.runs[e.token].waited
        && e.token.job == child && e.report == report)
    || (e.SweepLost? && LostAs(s.db.jobs, child, report))
  }

  predicate Holds(db: Db, key: GroupKey, i: nat, wait: Wait) {
    key in db.groups && i < |db.groups[key].waits| && db.groups[key].waits[i] == wait
  }

  lemma OpenRowsAreOpen(db: Db, key: GroupKey, children: seq<Child>, timeout: Option<nat>, now: Time)
    requires forall i :: 0 <= i < |children| ==> !children[i].Missing?
    ensures var after := Open(db, key, children, timeout, now);
            && key in after.groups && after.groups.Keys == db.groups.Keys + {key}
            && forall i :: 0 <= i < |after.groups[key].waits| ==> after.groups[key].waits[i].result.None?
  {
  }

  lemma EnteredRowsAreOpen(db: Db, token: Token, waitId: StepId, count: nat, prepared: Prepared, timeout: Option<nat>,
                           again: bool, b: Backoff, now: Time, key: GroupKey, i: nat)
    requires key !in db.groups
    ensures var groups := EnterWait(db, token, waitId, count, prepared, timeout, again, b, now).0.groups;
            key in groups && i < |groups[key].waits| ==> groups[key].waits[i].result.None?
  {
    var own := GroupKey(token.job, waitId);
    if own !in db.groups && Enqueues(prepared, count) { OpenRowsAreOpen(db, own, prepared.children, timeout, now); }
  }

  lemma OpenedRowsAreOpen(b: Backoff, s: Sys, e: Event, t: Sys, key: GroupKey, i: nat)
    requires e.Enter? && t == Apply(b, s, e) && key !in s.db.groups && key in t.db.groups
    requires i < |t.db.groups[key].waits|
    ensures t.db.groups[key].waits[i].result.None?
  {
    assert MayEnter(s, e.token, e.waitId);
    EnterMatches(b, s, e.token, e.waitId, e.count, e.prepared, e.timeout);
    EnteredRowsAreOpen(s.db, e.token, e.waitId, e.count, e.prepared, e.timeout, s.runs[e.token].ended.Some?, b, s.clock,
                       key, i);
  }

  lemma SettledRowsAreReported(b: Backoff, s: Sys, e: Event, t: Sys, key: GroupKey, i: nat)
    requires e.Settled? && t == Apply(b, s, e) && key in s.db.groups && key in t.db.groups
    requires i < |s.db.groups[key].waits| == |t.db.groups[key].waits|
    requires s.db.groups[key].waits[i].result.None? && t.db.groups[key].waits[i].result.Some?
    ensures Reports(s, e, t.db.groups[key].waits[i].child, t.db.groups[key].waits[i].result.value)
  {
    assert MaySettle(s, e.token);
    SettledDb(b, s, e, t);
    assert Owns(s.db, e.token);
    SettlementsReport(b, s, e, t, key, i);
  }

  lemma SweptGroups(b: Backoff, s: Sys, e: Event, t: Sys)
    requires OfSweep(e) && t == Apply(b, s, e)
    ensures e.SweepLost? ==> t.db.groups == ReportLost(s.db, e.skipped, s.clock).groups
    ensures !e.SweepLost? ==> forall key :: key in t.db.groups && key in s.db.groups ==> t.db.groups[key] == s.db.groups[key]
  {
  }

  lemma LostRowsAreReported(db: Db, skipped: set<WaitKey>, now: Time, after: map<GroupKey, Group>, key: GroupKey,
                            i: nat)
    requires after == ReportLost(db, skipped, now).groups && key in db.groups && key in after
    requires i < |db.groups[key].waits| == |after[key].waits|
    requires db.groups[key].waits[i].result.None? && after[key].waits[i].result.Some?
    ensures LostAs(db.jobs, after[key].waits[i].child, after[key].waits[i].result.value)
  {
    SweepsResolveTheLost(db, skipped, now, key, i);
  }

  lemma SweptRowsAreReported(b: Backoff, s: Sys, e: Event, t: Sys, key: GroupKey, i: nat)
    requires OfSweep(e) && t == Apply(b, s, e) && key in s.db.groups && key in t.db.groups
    requires i < |s.db.groups[key].waits| == |t.db.groups[key].waits|
    requires s.db.groups[key].waits[i].result.None? && t.db.groups[key].waits[i].result.Some?
    ensures Reports(s, e, t.db.groups[key].waits[i].child, t.db.groups[key].waits[i].result.value)
  {
    SweptGroups(b, s, e, t);
    LostRowsAreReported(s.db, e.skipped, s.clock, t.db.groups, key, i);
  }

  lemma ContinuedRowsStayOpen(b: Backoff, s: Sys, e: Event, t: Sys, key: GroupKey, i: nat)
    requires e.Continuation? && t == Apply(b, s, e) && key in s.db.groups && i < |s.db.groups[key].waits|
    requires s.db.groups[key].waits[i].result.None?
    ensures key in t.db.groups && i < |t.db.groups[key].waits| && t.db.groups[key].waits[i].result.None?
  {
    if MayContinue(s, e.token) && Owns(s.db, e.token) {
      ContinuesRows(s.db, e.token, e.runAt, e.traceparent, e.latest, e.record, s.clock);
    }
  }

  lemma ContinuesRows(db: Db, token: Token, runAt: Option<Time>, traceparent: Option<string>, latest: Option<Json>,
                      record: bool, now: Time)
    requires Owns(db, token)
    ensures var after := Continue(db, token, runAt, traceparent, latest, record, now);
            after.groups == db.groups || after.groups == Follow(db.groups, token.job, db.nextId)
  {
    var succeeded := Succeed(db, token.job, runAt, traceparent, latest, now);
    SucceedsGroups(db, token.job, runAt, traceparent, latest, now);
    if record && Owns(succeeded, token) {
      SettledGroups(succeeded, token, Settlement(Some(Continued(db.nextId)), None, Delete), now);
    }
  }

  lemma SucceedsGroups(db: Db, id: JobId, runAt: Option<Time>, traceparent: Option<string>, latest: Option<Json>,
                       now: Time)
    requires id in db.jobs
    ensures var groups := Succeed(db, id, runAt, traceparent, latest, now).groups;
            groups == db.groups || groups == Follow(db.groups, id, db.nextId)
  {
  }

  /** One event: a result is as it was or reported by this event, to the row that names the child. */
  lemma NewResultsAreReported(b: Backoff, s: Sys, e: Event, t: Sys, key: GroupKey, i: nat)
    requires t == Apply(b, s, e) && key in t.db.groups && i < |t.db.groups[key].waits|
    requires t.db.groups[key].waits[i].result.Some?
    ensures var wait := t.db.groups[key].waits[i];
            Holds(s.db, key, i, wait) || Reports(s, e, wait.child, wait.result.value)
  {
    GroupsStep(b, s, e, key);
    if key !in s.db.groups {
      OpenedRowsAreOpen(b, s, e, t, key, i);
    } else {
      var before := s.db.groups[key].waits[i];
      assert WaitStep(t.hist.next, before, t.db.groups[key].waits[i]);
      if before.result.Some? {
        assert Holds(s.db, key, i, before);
      } else if e.Settled? {
        SettledRowsAreReported(b, s, e, t, key, i);
      } else if OfSweep(e) {
        SweptRowsAreReported(b, s, e, t, key, i);
      } else if e.Continuation? {
        ContinuedRowsStayOpen(b, s, e, t, key, i);
      } else if e.Enter? {
        EntryStep(b, s, e, key);
      } else {
        OthersStep(b, s, e, key);
      }
    }
  }

  /** Over every run, each result a wait holds is one that the row's child reported in its own
      settlement, or that a sweep wrote when the child was lost. */
  lemma {:induction false} ResultsWereReported(b: Backoff, events: seq<Event>, key: GroupKey, i: nat) returns (n: nat)
    requires var s := After(b, START, events);
             key in s.db.groups && i < |s.db.groups[key].waits| && s.db.groups[key].waits[i].result.Some?
    ensures var wait := After(b, START, events).db.groups[key].waits[i];
            n < |events| && Reports(After(b, START, events[..n]), events[n], wait.child, wait.result.value)
  {
    var last := |events| - 1;
    var s := After(b, START, events[..last]);
    NewResultsAreReported(b, s, events[last], After(b, START, events), key, i);
    var wait := After(b, START, events).db.groups[key].waits[i];
    if Holds(s.db, key, i, wait) {
      n := ResultsWereReported(b, events[..last], key, i);
      assert events[..last][..n] == events[..n];
    } else {
      n := last;
    }
  }

  // How a wait ends -----------------------------------------------------------------------------

  predicate AllReported(group: Group) { forall i :: 0 <= i < |group.waits| ==> group.waits[i].result.Some? }

  predicate PastDeadline(group: Group, now: Time) { group.deadline.Some? && group.deadline.value <= now }

  /** Every child of the enqueue got a row or was recorded by its key. */
  predicate AllPrepared(prepared: Prepared, count: nat) {
    && prepared.Children? && |prepared.children| == count
    && forall i :: 0 <= i < count ==> prepared.children[i].New? || prepared.children[i].Existing?
  }

  function Ended(b: Backoff, s: Sys, e: Event): Entered
    requires e.Enter? && e.token in s.runs
  {
    EnterWait(s.db, e.token, e.waitId, e.count, e.prepared, e.timeout, s.runs[e.token].ended.Some?, b, s.clock).1
  }

  /** An entry by a run that may make it. */
  predicate Enters(s: Sys, e: Event) {
    e.Enter? && MayEnter(s, e.token, e.waitId) && 0 < e.count && KnownChildren(s.db, e.prepared)
  }

  /** When an entry ends in which way. */
  lemma EntriesEnd(b: Backoff, s: Sys, e: Event)
    requires Inv(b, s) && Enters(s, e)
    ensures var key, end := GroupKey(e.token.job, e.waitId), Ended(b, s, e);
            && (end.Rejected? <==> !Owns(s.db, e.token) || (key !in s.db.groups && !AllPrepared(e.prepared, e.count)))
            && (end.Finished? <==>
                  && Owns(s.db, e.token) && key in s.db.groups
                  && (AllReported(s.db.groups[key]) || PastDeadline(s.db.groups[key], s.clock)))
  {
    var key := GroupKey(e.token.job, e.waitId);
    if key in s.db.groups {
      assert GroupOk(s, key);
      NonePending(s.db.groups[key].waits, |s.db.groups[key].waits|);
    }
  }

  lemma RejectedChangesNothing(b: Backoff, s: Sys, e: Event)
    requires Enters(s, e) && Ended(b, s, e).Rejected?
    ensures Apply(b, s, e) == s
  {
    EnterMatches(b, s, e.token, e.waitId, e.count, e.prepared, e.timeout);
  }

  /** `ids` are the children of the open rows, in row order. */
  ghost predicate ListsTheOpen(ids: seq<JobId>, waits: seq<Wait>) {
    exists rows: seq<nat> :: Lists(rows, ids, waits)
  }

  ghost predicate Lists(rows: seq<nat>, ids: seq<JobId>, waits: seq<Wait>) {
    && |rows| == |ids|
    && (forall k :: 0 <= k < |rows| ==> rows[k] < |waits| && Awaits(waits[rows[k]], ids[k]))
    && (forall k, m :: 0 <= k < m < |rows| ==> rows[k] < rows[m])
    && forall i: nat :: i < |waits| && waits[i].result.None? ==> Listed(rows, i)
  }

  ghost predicate Listed(rows: seq<nat>, i: nat) { exists k :: 0 <= k < |rows| && rows[k] == i }

  lemma ListsOneMore(rows: seq<nat>, ids: seq<JobId>, waits: seq<Wait>)
    requires waits != [] && Lists(rows, ids, waits[..|waits| - 1])
    ensures var n := |waits| - 1;
            if waits[n].result.None? then Lists(rows + [n], ids + [waits[n].child], waits) else Lists(rows, ids, waits)
  {
    var n := |waits| - 1;
    var more := if waits[n].result.None? then rows + [n] else rows;
    assert forall i :: 0 <= i < n ==> waits[..n][i] == waits[i];
    forall i: nat | i < |waits| && waits[i].result.None? ensures Listed(more, i) {
      if i == n {
        assert more[|rows|] == i;
      } else {
        assert Listed(rows, i);
        var k :| 0 <= k < |rows| && rows[k] == i;
        assert more[k] == i;
      }
    }
  }

  lemma {:induction false} UnfinishedAreListed(waits: seq<Wait>) returns (rows: seq<nat>)
    ensures Lists(rows, Unfinished(waits), waits)
  {
    if waits == [] {
      rows := [];
    } else {
      var n := |waits| - 1;
      rows := UnfinishedAreListed(waits[..n]);
      ListsOneMore(rows, Unfinished(waits[..n]), waits);
      if waits[n].result.None? { rows := rows + [n]; } else { assert Unfinished(waits) == Unfinished(waits[..n]); }
    }
  }

  /** What the wait returns: one result per child in input order, or after its deadline the
      children without one. */
  ghost predicate Answers(checkpoint: Checkpoint, group: Group) {
    if AllReported(group) then
      && checkpoint.Results? && |checkpoint.results| == |group.waits|
      && forall i :: 0 <= i < |group.waits| ==>
           checkpoint.results[i] == ChildResult(group.waits[i].child, group.waits[i].result)
    else checkpoint.TimedOut? && ListsTheOpen(checkpoint.unfinished, group.waits)
  }

  lemma CheckpointsAnswer(group: Group)
    requires group.remaining == Pending(group.waits)
    ensures Answers(CheckpointOf(group), group)
  {
    NonePending(group.waits, |group.waits|);
    var rows := UnfinishedAreListed(group.waits);
  }

  /** The row of `key`'s parent holds the checkpoint beside those that were there, and the group is
      gone; nothing else changed. */
  ghost predicate Stores(before: Db, after: Db, key: GroupKey, checkpoint: Checkpoint) {
    && key in before.groups && after.groups == before.groups - {key}
    && key.parent in before.jobs && key.parent in after.jobs
    && var job := before.jobs[key.parent];
    && after.jobs == before.jobs[key.parent :=
         job.(envelope := job.envelope.(steps := job.envelope.steps[key.waitId := checkpoint]))]
  }

  /** A finished wait stores what it returns, and returns what its rows hold. */
  lemma FinishedEntriesStore(b: Backoff, s: Sys, e: Event, t: Sys)
    requires Inv(b, s) && Enters(s, e) && Ended(b, s, e).Finished? && t == Apply(b, s, e)
    ensures var key, checkpoint := GroupKey(e.token.job, e.waitId), Ended(b, s, e).checkpoint;
            && Stores(s.db, t.db, key, checkpoint) && Answers(checkpoint, s.db.groups[key])
            && e.token in t.runs && e.waitId in t.runs[e.token].cache
  {
    EntriesEnd(b, s, e);
    var key := GroupKey(e.token.job, e.waitId);
    assert GroupOk(s, key);
    NonePending(s.db.groups[key].waits, |s.db.groups[key].waits|);
    CheckpointsAnswer(s.db.groups[key]);
  }

  // Checkpoints over runs -------------------------------------------------------------------------

  /** The attempt that holds the row runs a step under this id. */
  predicate Overwrites(s: Sys, e: Event, j: JobId, id: StepId) {
    e.Step? && e.token in s.runs && Owns(s.db, e.token) && e.token.job == j && e.step == id
  }

  /** The checkpoint is as it was, while the row lives. */
  predicate StepKept(db: Db, after: Db, j: JobId, id: StepId) {
    j in db.jobs && id in db.jobs[j].envelope.steps && j in after.jobs ==>
      id in after.jobs[j].envelope.steps && after.jobs[j].envelope.steps[id] == db.jobs[j].envelope.steps[id]
  }

  lemma SuspendedWaitsKeepSteps(db: Db, token: Token, waitId: StepId, count: nat, prepared: Prepared,
                                timeout: Option<nat>, again: bool, b: Backoff, now: Time, j: JobId, id: StepId)
    requires j < db.nextId && token.job < db.nextId
    requires EnterWait(db, token, waitId, count, prepared, timeout, again, b, now).1.Suspended?
    ensures StepKept(db, EnterWait(db, token, waitId, count, prepared, timeout, again, b, now).0, j, id)
  {
    if GroupKey(token.job, waitId) !in db.groups { AddChildrenIsTame(db, prepared.children, now, j); }
  }

  lemma SuspendedEntriesKeepSteps(b: Backoff, s: Sys, e: Event, t: Sys, j: JobId, id: StepId)
    requires Enters(s, e) && Ended(b, s, e).Suspended? && t == Apply(b, s, e)
    requires j < s.db.nextId && e.token.job < s.db.nextId
    ensures StepKept(s.db, t.db, j, id)
  {
    EnterMatches(b, s, e.token, e.waitId, e.count, e.prepared, e.timeout);
    SuspendedWaitsKeepSteps(s.db, e.token, e.waitId, e.count, e.prepared, e.timeout, s.runs[e.token].ended.Some?, b,
                            s.clock, j, id);
  }

  lemma OwnersEnterUncached(b: Backoff, s: Sys, e: Event)
    requires Inv(b, s) && Enters(s, e) && Owns(s.db, e.token)
    ensures e.waitId !in s.db.jobs[e.token.job].envelope.steps
  {
    LifeOf(s, e.token.job);
  }

  lemma FinishedEntriesKeepSteps(b: Backoff, s: Sys, e: Event, t: Sys, j: JobId, id: StepId)
    requires Inv(b, s) && Enters(s, e) && Ended(b, s, e).Finished? && t == Apply(b, s, e)
    requires j in s.db.jobs && id in s.db.jobs[j].envelope.steps
    ensures StepKept(s.db, t.db, j, id)
  {
    EntriesEnd(b, s, e);
    OwnersEnterUncached(b, s, e);
    FinishedEntriesStore(b, s, e, t);
  }

  lemma EntriesKeepSteps(b: Backoff, s: Sys, e: Event, t: Sys, j: JobId, id: StepId)
    requires Inv(b, s) && e.Enter? && t == Apply(b, s, e) && j in s.db.jobs && id in s.db.jobs[j].envelope.steps
    ensures StepKept(s.db, t.db, j, id)
  {
    LifeOf(s, j);
    if !Enters(s, e) {
      assert t == s;
    } else if Ended(b, s, e).Rejected? {
      RejectedChangesNothing(b, s, e);
    } else if Ended(b, s, e).Finished? {
      FinishedEntriesKeepSteps(b, s, e, t, j, id);
    } else {
      SuspendedEntriesKeepSteps(b, s, e, t, j, id);
    }
  }

  lemma StepEventsKeepSteps(b: Backoff, s: Sys, e: Event, t: Sys, j: JobId, id: StepId)
    requires e.Step? && t == Apply(b, s, e) && !Overwrites(s, e, j, id)
    ensures StepKept(s.db, t.db, j, id)
  {
  }

  lemma GraphileKeepsSteps(b: Backoff, s: Sys, e: Event, t: Sys, j: JobId, id: StepId)
    requires !OfLibrary(e) && t == Apply(b, s, e) && forall i :: i in s.db.jobs ==> i < s.db.nextId
    ensures StepKept(s.db, t.db, j, id)
  {
    if e.Recover? && j in s.db.jobs { RecoverRow(b, s, e.staleAfter, e.sweeper, e.busy, j); }
  }

  lemma EventsKeepSteps(b: Backoff, s: Sys, e: Event, t: Sys, j: JobId, id: StepId)
    requires Inv(b, s) && t == Apply(b, s, e) && !Overwrites(s, e, j, id)
    requires j in s.db.jobs && id in s.db.jobs[j].envelope.steps
    ensures StepKept(s.db, t.db, j, id)
  {
    LifeOf(s, j);
    if e.Enter? {
      EntriesKeepSteps(b, s, e, t, j, id);
    } else if e.Step? {
      StepEventsKeepSteps(b, s, e, t, j, id);
    } else if OfLibrary(e) {
      assert InBudget(s.db, j) by { assert JobOk(s, j); }
      LibraryIsTame(b, s, e, j);
    } else {
      GraphileKeepsSteps(b, s, e, t, j, id);
    }
  }

  lemma GraphileRevivesNothing(b: Backoff, s: Sys, e: Event, t: Sys, j: JobId)
    requires !OfLibrary(e) && t == Apply(b, s, e) && j < s.db.nextId && j !in s.db.jobs
    ensures j !in t.db.jobs && s.db.nextId <= t.db.nextId
  {
  }

  lemma GoneRowsStayGone(b: Backoff, s: Sys, e: Event, t: Sys, j: JobId)
    requires Inv(b, s) && t == Apply(b, s, e) && j < s.db.nextId && j !in s.db.jobs
    ensures j !in t.db.jobs
  {
    if OfLibrary(e) { LibraryIsTame(b, s, e, j); } else { GraphileRevivesNothing(b, s, e, t, j); }
  }

  lemma IdsOnlyGrow(b: Backoff, s: Sys, e: Event, t: Sys)
    requires t == Apply(b, s, e)
    ensures s.db.nextId <= t.db.nextId
  {
    if OfLibrary(e) { LibraryExtendsChains(b, s, e, 0); }
  }

  lemma {:induction false} IdsGrow(b: Backoff, s: Sys, events: seq<Event>)
    ensures s.db.nextId <= After(b, s, events).db.nextId
  {
    if events != [] {
      var n := |events| - 1;
      IdsGrow(b, s, events[..n]);
      IdsOnlyGrow(b, After(b, s, events[..n]), events[n], After(b, s, events));
    }
  }

  /** No step of the run takes the id of this checkpoint. */
  ghost predicate Undisturbed(b: Backoff, s: Sys, events: seq<Event>, j: JobId, id: StepId) {
    forall n :: 0 <= n < |events| ==> !Overwrites(After(b, s, events[..n]), events[n], j, id)
  }

  lemma PrefixIsUndisturbed(b: Backoff, s: Sys, events: seq<Event>, n: nat, j: JobId, id: StepId)
    requires n <= |events| && Undisturbed(b, s, events, j, id)
    ensures Undisturbed(b, s, events[..n], j, id)
  {
    forall m | 0 <= m < n ensures !Overwrites(After(b, s, events[..n][..m]), events[..n][m], j, id) {
      assert events[..n][..m] == events[..m];
    }
  }

  /** A stored checkpoint, of a wait or a step, stays the value it is over every later run as long
      as its job's row lives, unless a step is run again under its id. */
  lemma {:induction false} CheckpointsStay(b: Backoff, s: Sys, events: seq<Event>, j: JobId, id: StepId)
    requires Monotone(b) && Inv(b, s) && j in s.db.jobs && id in s.db.jobs[j].envelope.steps
    requires Undisturbed(b, s, events, j, id)
    ensures StepKept(s.db, After(b, s, events).db, j, id)
  {
    if events != [] {
      var n := |events| - 1;
      PrefixIsUndisturbed(b, s, events, n, j, id);
      CheckpointsStay(b, s, events[..n], j, id);
      RunsKeep(b, s, events[..n]);
      LifeOf(s, j);
      IdsGrow(b, s, events[..n]);
      CheckpointStays(b, s, After(b, s, events[..n]), events[n], After(b, s, events), j, id);
    }
  }

  lemma CheckpointStays(b: Backoff, first: Sys, s: Sys, e: Event, t: Sys, j: JobId, id: StepId)
    requires Inv(b, s) && t == Apply(b, s, e) && !Overwrites(s, e, j, id) && StepKept(first.db, s.db, j, id)
    requires j in first.db.jobs && id in first.db.jobs[j].envelope.steps && j < s.db.nextId
    ensures StepKept(first.db, t.db, j, id)
  {
    if j in s.db.jobs { EventsKeepSteps(b, s, e, t, j, id); } else { GoneRowsStayGone(b, s, e, t, j); }
  }

  /** Every later read of a finished wait, as long as its job's row lives, finds the checkpoint that
      the wait returned when it finished. */
  lemma {:induction false} FinishedWaitsAreRemembered(b: Backoff, before: seq<Event>, e: Event, after: seq<Event>)
    requires Monotone(b)
    requires var s := After(b, START, before);
             && Enters(s, e) && Ended(b, s, e).Finished?
             && Undisturbed(b, Apply(b, s, e), after, e.token.job, e.waitId)
    ensures var s := After(b, START, before);
            var u := After(b, Apply(b, s, e), after);
            e.token.job in u.db.jobs ==>
              && e.waitId in u.db.jobs[e.token.job].envelope.steps
              && u.db.jobs[e.token.job].envelope.steps[e.waitId] == Ended(b, s, e).checkpoint
              && Answers(u.db.jobs[e.token.job].envelope.steps[e.waitId], s.db.groups[GroupKey(e.token.job, e.waitId)])
  {
    Reachable(b, before);
    FinishedWaitIsRemembered(b, After(b, START, before), e, Apply(b, After(b, START, before), e), after);
  }

  lemma FinishedWaitIsRemembered(b: Backoff, s: Sys, e: Event, t: Sys, after: seq<Event>)
    requires Monotone(b) && Inv(b, s) && Enters(s, e) && Ended(b, s, e).Finished? && t == Apply(b, s, e)
    requires Undisturbed(b, t, after, e.token.job, e.waitId)
    ensures var j, checkpoint, u := e.token.job, Ended(b, s, e).checkpoint, After(b, t, after);
            && GroupKey(j, e.waitId) in s.db.groups && Answers(checkpoint, s.db.groups[GroupKey(j, e.waitId)])
            && (j in u.db.jobs ==>
                  e.waitId in u.db.jobs[j].envelope.steps && u.db.jobs[j].envelope.steps[e.waitId] == checkpoint)
  {
    FinishedEntriesStore(b, s, e, t);
    ApplyKeeps(b, s, e);
    CheckpointsStay(b, t, after, e.token.job, e.waitId);
  }

  // Plain writes ----------------------------------------------------------------------------------

  /** An enqueue inserts the row it asks for under the next id; of the others only a locked holder
      of its key changes, and loses the key with its remaining attempts. */
  lemma AddsInsertTheSpec(b: Backoff, s: Sys, spec: JobSpec, t: Sys, j: JobId)
    requires Addable(s.db.jobs, spec) && t == Apply(b, s, Add(spec)) && (j in s.db.jobs ==> j < s.db.nextId)
    ensures s.db.nextId in t.db.jobs && t.db.nextId == s.db.nextId + 1
            && t.db.jobs.Keys == s.db.jobs.Keys + {s.db.nextId}
    ensures BornFrom(t.db.jobs[s.db.nextId], spec, s.clock) && t.db.jobs[s.db.nextId].envelope == spec.envelope
    ensures j in s.db.jobs ==>
              t.db.jobs[j] == if spec.key.Some? && s.db.jobs[j].key == spec.key
                              then s.db.jobs[j].(key := None, attempts := s.db.jobs[j].maxAttempts) else s.db.jobs[j]
  {
  }

  /** A step's checkpoint holds its own output under its own id, beside all others. */
  lemma StepsStoreTheirOutput(b: Backoff, s: Sys, e: Event, t: Sys)
    requires e.Step? && e.token in s.runs && Owns(s.db, e.token) && t == Apply(b, s, e)
    ensures e.token.job in t.db.jobs && t.db == s.db.(jobs := s.db.jobs[e.token.job := t.db.jobs[e.token.job]])
    ensures var before, after := s.db.jobs[e.token.job].envelope, t.db.jobs[e.token.job].envelope;
            && t.db.jobs[e.token.job] == s.db.jobs[e.token.job].(envelope := before.(steps := after.steps))
            && after.steps.Keys == before.steps.Keys + {e.step} && after.steps[e.step] == Output(e.output)
            && forall id :: id in before.steps && id != e.step ==> after.steps[id] == before.steps[id]
  {
  }

  /** The row shows the value that was written, and keeps everything else. */
  lemma ProgressShowsTheValue(b: Backoff, s: Sys, e: Event, t: Sys)
    requires e.Progress? && e.token in s.runs && Owns(s.db, e.token) && t == Apply(b, s, e)
    ensures e.token.job in t.db.jobs && t.db == s.db.(jobs := s.db.jobs[e.token.job := t.db.jobs[e.token.job]])
    ensures var before, after := s.db.jobs[e.token.job].envelope, t.db.jobs[e.token.job].envelope;
            && after.progress == Some(e.value) && after == before.(progress := after.progress)
            && t.db.jobs[e.token.job] == s.db.jobs[e.token.job].(envelope := after)
  {
  }

  // Spent rows ------------------------------------------------------------------------------------

  /** The first suspension of the run that holds the row. */
  predicate GivesBack(b: Backoff, s: Sys, e: Event, j: JobId) {
    && Enters(s, e) && e.token.job == j && Owns(s.db, e.token) && s.runs[e.token].ended.None?
    && Ended(b, s, e).Suspended?
  }

  predicate SpentRow(db: Db, j: JobId) { j in db.jobs && db.jobs[j].attempts == db.jobs[j].maxAttempts }

  lemma {:induction false} EnqueuesKeepSpent(db: Db, children: seq<Child>, now: Time, j: JobId)
    requires j < db.nextId && SpentRow(db, j) && forall i :: 0 <= i < |children| ==> !children[i].Missing?
    ensures SpentRow(AddChildren(db, children, now).0, j)
  {
    if children != [] { EnqueuesKeepSpent(db, children[..|children| - 1], now, j); }
  }

  lemma WaitsSpend(db: Db, token: Token, waitId: StepId, count: nat, prepared: Prepared, timeout: Option<nat>,
                   again: bool, b: Backoff, now: Time, j: JobId)
    requires j < db.nextId && token.job < db.nextId && SpentRow(db, j)
    ensures var (after, end) := EnterWait(db, token, waitId, count, prepared, timeout, again, b, now);
            && j in after.jobs && after.jobs[j].attempts <= after.jobs[j].maxAttempts
            && (SpentRow(after, j) <==> !(end.Suspended? && j == token.job && !again))
  {
    var key := GroupKey(token.job, waitId);
    if Owns(db, token) && (key in db.groups || Enqueues(prepared, count)) {
      if key in db.groups {
        EndsSpend(db, token, key, again, b, j);
      } else {
        EnqueuesKeepSpent(db, prepared.children, now, j);
        OpensKeepSpent(db, key, prepared.children, timeout, now, j);
        EndsSpend(Open(db, key, prepared.children, timeout, now), token, key, again, b, j);
      }
    }
  }

  lemma OpensKeepSpent(db: Db, key: GroupKey, children: seq<Child>, timeout: Option<nat>, now: Time, j: JobId)
    requires forall i :: 0 <= i < |children| ==> !children[i].Missing?
    requires SpentRow(AddChildren(db, children, now).0, j) && key.parent in db.jobs
    ensures var after := Open(db, key, children, timeout, now);
            SpentRow(after, j) && key in after.groups && key.parent in after.jobs
  {
  }

  lemma EndsSpend(db: Db, token: Token, key: GroupKey, again: bool, b: Backoff, j: JobId)
    requires SpentRow(db, j) && key in db.groups && key.parent == token.job && token.job in db.jobs
    ensures SpentRow(FinishWait(db, key), j)
    ensures var row := SuspendRow(db.jobs[token.job], Deadline(db.groups[key]), again, b);
            var after := db.(jobs := db.jobs[token.job := row]);
            && after.jobs[j].attempts <= after.jobs[j].maxAttempts
            && (SpentRow(after, j) <==> !(j == token.job && !again))
  {
  }

  lemma EntriesSpend(b: Backoff, s: Sys, e: Event, t: Sys, j: JobId)
    requires Inv(b, s) && e.Enter? && t == Apply(b, s, e) && SpentRow(s.db, j)
    ensures j in t.db.jobs && (SpentRow(t.db, j) <==> !GivesBack(b, s, e, j))
  {
    LifeOf(s, j);
    if Enters(s, e) {
      EnterMatches(b, s, e.token, e.waitId, e.count, e.prepared, e.timeout);
      WaitsSpend(s.db, e.token, e.waitId, e.count, e.prepared, e.timeout, s.runs[e.token].ended.Some?, b, s.clock, j);
    }
  }

  /** The row is spent, if it lives. */
  predicate StillSpent(db: Db, j: JobId) { j in db.jobs ==> SpentRow(db, j) }

  lemma SettleKeepsSpent(db: Db, token: Token, settlement: Settlement, now: Time, j: JobId)
    requires SpentRow(db, j)
    ensures StillSpent(Settle(db, token, settlement, now), j)
  {
    if Owns(db, token) {
      ReportIsTame(Record(db, token.job, settlement.outcome, now), token.job, settlement.report, now, j);
    }
  }

  lemma SucceedKeepsSpent(db: Db, id: JobId, runAt: Option<Time>, traceparent: Option<string>, latest: Option<Json>,
                          now: Time, j: JobId)
    requires id in db.jobs && j < db.nextId && id < db.nextId && SpentRow(db, j)
    ensures SpentRow(Succeed(db, id, runAt, traceparent, latest, now), j)
  {
    assert SpentRow(AddJob(db, ContinuationSpec(db.jobs[id], runAt, traceparent, latest), now), j);
  }

  lemma WritesKeepSpent(b: Backoff, s: Sys, e: Event, t: Sys, j: JobId)
    requires Inv(b, s) && (e.Continuation? || e.Settled?) && t == Apply(b, s, e) && SpentRow(s.db, j)
    ensures StillSpent(t.db, j)
  {
    if e.Settled? && MaySettle(s, e.token) {
      SettledDb(b, s, e, t);
      SettleKeepsSpent(s.db, e.token, SettlementOf(e.report, e.row, e.record, s.runs[e.token].waited), s.clock, j);
    } else if e.Continuation? && MayContinue(s, e.token) && Owns(s.db, e.token) {
      LifeOf(s, j);
      LifeOf(s, e.token.job);
      ContinueKeepsSpent(s.db, e.token, e.runAt, e.traceparent, e.latest, e.record, s.clock, j);
    }
  }

  lemma ContinueKeepsSpent(db: Db, token: Token, runAt: Option<Time>, traceparent: Option<string>, latest: Option<Json>,
                           record: bool, now: Time, j: JobId)
    requires Owns(db, token) && j < db.nextId && token.job < db.nextId && SpentRow(db, j)
    ensures StillSpent(Continue(db, token, runAt, traceparent, latest, record, now), j)
  {
    SucceedKeepsSpent(db, token.job, runAt, traceparent, latest, now, j);
    if record {
      SettleKeepsSpent(Succeed(db, token.job, runAt, traceparent, latest, now), token,
                       Settlement(Some(Continued(db.nextId)), None, Delete), now, j);
    }
  }

  lemma OthersKeepSpent(b: Backoff, s: Sys, e: Event, t: Sys, j: JobId)
    requires Inv(b, s) && !e.Enter? && !e.Continuation? && !e.Settled? && t == Apply(b, s, e) && SpentRow(s.db, j)
    ensures StillSpent(t.db, j)
  {
    LifeOf(s, j);
    if OfSweep(e) {
      SweepsKeepSpent(b, s, e, t, j);
    } else if e.Recover? {
      RecoverRow(b, s, e.staleAfter, e.sweeper, e.busy, j);
    } else {
      RestKeepsSpent(b, s, e, t, j);
    }
  }

  lemma SweepsKeepSpent(b: Backoff, s: Sys, e: Event, t: Sys, j: JobId)
    requires OfSweep(e) && t == Apply(b, s, e) && SpentRow(s.db, j)
    ensures StillSpent(t.db, j)
  {
  }

  lemma RestKeepsSpent(b: Backoff, s: Sys, e: Event, t: Sys, j: JobId)
    requires !e.Enter? && !e.Continuation? && !e.Settled? && !OfSweep(e) && !e.Recover?
    requires t == Apply(b, s, e) && SpentRow(s.db, j) && j < s.db.nextId
    ensures StillSpent(t.db, j)
  {
  }

  /** A row without attempts left stays so at every event but one: the first suspension of a run
      that still holds it, which a handler can request after its run was settled. */
  lemma {:induction false} SpentUnlessSuspended(b: Backoff, s: Sys, e: Event, t: Sys, j: JobId)
    requires Inv(b, s) && t == Apply(b, s, e) && SpentRow(s.db, j)
    ensures StillSpent(t.db, j) <==> !GivesBack(b, s, e, j)
  {
    if e.Enter? {
      EntriesSpend(b, s, e, t, j);
    } else if e.Continuation? || e.Settled? {
      WritesKeepSpent(b, s, e, t, j);
    } else {
      OthersKeepSpent(b, s, e, t, j);
    }
  }

  ghost predicate NeverGivenBack(b: Backoff, s: Sys, events: seq<Event>, j: JobId) {
    forall n :: 0 <= n < |events| ==> !GivesBack(b, After(b, s, events[..n]), events[n], j)
  }

  lemma {:induction false} SpentForever(b: Backoff, s: Sys, events: seq<Event>, j: JobId)
    requires Monotone(b) && Inv(b, s) && SpentRow(s.db, j) && NeverGivenBack(b, s, events, j)
    ensures StillSpent(After(b, s, events).db, j)
  {
    if events != [] {
      var n := |events| - 1;
      forall m | 0 <= m < n ensures !GivesBack(b, After(b, s, events[..n][..m]), events[..n][m], j) {
        assert events[..n][..m] == events[..m];
      }
      SpentForever(b, s, events[..n], j);
      RunsKeep(b, s, events[..n]);
      LifeOf(s, j);
      IdsGrow(b, s, events[..n]);
      SpentStep(b, After(b, s, events[..n]), events[n], After(b, s, events), j);
    }
  }

  lemma SpentStep(b: Backoff, s: Sys, e: Event, t: Sys, j: JobId)
    requires Inv(b, s) && t == Apply(b, s, e) && StillSpent(s.db, j) && j < s.db.nextId && !GivesBack(b, s, e, j)
    ensures StillSpent(t.db, j)
  {
    if j in s.db.jobs { SpentUnlessSuspended(b, s, e, t, j); } else { GoneRowsStayGone(b, s, e, t, j); }
  }

  /** After its owner's exhausting settlement a job is never claimed again, in no later state that
      is reached without such a suspension. */
  lemma {:induction false} ExhaustedJobsNeverRun(b: Backoff, before: seq<Event>, e: Event, after: seq<Event>)
    requires Monotone(b) && e.Settled? && e.row == Exhaust
    requires var s := After(b, START, before);
             && MaySettle(s, e.token) && Owns(s.db, e.token)
             && NeverGivenBack(b, Apply(b, s, e), after, e.token.job)
    ensures !Claimable(After(b, Apply(b, After(b, START, before), e), after), e.token.job)
  {
    var s := After(b, START, before);
    var t := Apply(b, s, e);
    Reachable(b, before);
    ApplyKeeps(b, s, e);
    SettlementsAct(b, s, e, t);
    SpentForever(b, t, after, e.token.job);
  }
}
