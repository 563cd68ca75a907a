/** Looking a job up by id (src/job-outcomes.ts). */
module Lookup {
  import opened Wrappers
  import opened Tables
  import opened Protocol
  import opened Invariants
  import opened Rows
  import opened Chains
  import opened Results

  datatype JobState =
    | NotFound
    | StillPending
    | Running
    | Retrying
    | WaitingOn(children: set<JobId>)
    | HasFailed
    | HasCompleted
    | HasContinued(to: JobId)

  function LiveState(job: Job): JobState {
    if job.lock.Some? then Running
    else if Exhausted(job) then HasFailed
    else if job.attempts > 0 then Retrying else StillPending
  }

  function OutcomeState(outcome: Outcome): JobState {
    match outcome.state
    case Completed => HasCompleted
    case Failed(_) => HasFailed
    case Continued(to) => HasContinued(to)
  }

  /** The unfinished children of a job's open waits. */
  function Unreported(groups: map<GroupKey, Group>, id: JobId): set<JobId> {
    set key, i | key in groups && key.parent == id && groups[key].remaining > 0 && 0 <= i < |groups[key].waits|
                 && groups[key].waits[i].result.None? :: groups[key].waits[i].child
  }

  /** The live row is read in one state, and what follows it in a later one. */
  function Query(first: Sys, second: Sys, id: JobId): JobState {
    if id in first.db.jobs then
      var state := LiveState(first.db.jobs[id]);
      if (state.StillPending? || state.Retrying?) && first.clock < first.db.jobs[id].runAt then
        var children := Unreported(second.db.groups, id);
        if children == {} then state else WaitingOn(children)
      else state
    else if id in second.db.outcomes then OutcomeState(second.db.outcomes[id]) else NotFound
  }

  /** Outcomes are on for every worker, and kept for at least `retention`. */
  predicate Recorded(e: Event, retention: nat) {
    match e
    case Settled(_, _, _, record) => record
    case Continuation(_, _, _, _, record) => record
    case Prune(kept, _) => retention <= kept
    case _ => true
  }

  predicate AllRecorded(events: seq<Event>, retention: nat) {
    forall i :: 0 <= i < |events| ==> Recorded(events[i], retention)
  }

  /** A completed or continued job has no row, and within retention has its outcome. */
  ghost predicate OutcomeOk(s: Sys, retention: nat, id: JobId) {
    && (id in s.hist.next ==> id in s.hist.done)
    && (id in s.hist.done ==>
          && id < s.db.nextId && id !in s.db.jobs
          && (s.clock - retention <= s.hist.done[id] ==>
                && id in s.db.outcomes && s.db.outcomes[id].finishedAt == s.hist.done[id]
                && s.db.outcomes[id].state == if id in s.hist.next then Continued(s.hist.next[id]) else Completed))
  }

  lemma SettleRecords(s: Sys, token: Token, report: Report, row: RowAction, retention: nat, id: JobId)
    requires MaySettle(s, token) && OutcomeOk(s, retention, id) && InBudget(s.db, id)
    requires Owns(s.db, token) ==> token.job < s.db.nextId
    ensures OutcomeOk(DoSettle(s, token, report, row, true), retention, id)
  {
    if Owns(s.db, token) {
      var settlement := SettlementOf(report, row, true, s.runs[token].waited);
      var recorded := Record(s.db, token.job, settlement.outcome, s.clock);
      ReportIsTame(recorded, token.job, settlement.report, s.clock, id);
      ReportIsTame(recorded, token.job, settlement.report, s.clock, token.job);
    }
  }

  lemma ContinueRecords(s: Sys, token: Token, runAt: Option<Time>, traceparent: Option<string>, latest: Option<Json>,
                        retention: nat, id: JobId)
    requires MayContinue(s, token) && OutcomeOk(s, retention, id)
    requires Owns(s.db, token) ==> token.job < s.db.nextId
    ensures OutcomeOk(DoContinue(s, token, runAt, traceparent, latest, true), retention, id)
  {
    if Owns(s.db, token) {
      var succeeded := Succeed(s.db, token.job, runAt, traceparent, latest, s.clock);
      SuccessorInherits(s.db, token.job, runAt, traceparent, latest, s.clock);
      SuccessionAddsOne(s.db, token.job, runAt, traceparent, latest, s.clock);
      DeletedAndRecorded(succeeded, token, Continued(s.db.nextId), s.clock);
    }
  }

  lemma SuccessionAddsOne(db: Db, id: JobId, runAt: Option<Time>, traceparent: Option<string>, latest: Option<Json>,
                          now: Time)
    requires id in db.jobs
    ensures var after := Succeed(db, id, runAt, traceparent, latest, now);
            after.jobs.Keys == db.jobs.Keys + {db.nextId} && after.outcomes == db.outcomes
  {
  }

  lemma OthersRecord(b: Backoff, s: Sys, e: Event, retention: nat, id: JobId)
    requires OutcomeOk(s, retention, id) && Recorded(e, retention) && !e.Settled? && !e.Continuation? && !e.Enter?
    ensures OutcomeOk(Apply(b, s, e), retention, id)
  {
  }

  lemma EnterCompletesNothing(b: Backoff, s: Sys, token: Token, waitId: StepId, count: nat, prepared: Prepared,
                              timeout: Option<nat>)
    requires MayEnter(s, token, waitId)
    ensures var t := DoEnter(b, s, token, waitId, count, prepared, timeout);
            t.clock == s.clock && t.hist.done == s.hist.done && t.hist.next == s.hist.next
            && t.db.outcomes == s.db.outcomes && s.db.nextId <= t.db.nextId
  {
    var key := GroupKey(token.job, waitId);
    if Owns(s.db, token) && key !in s.db.groups && Enqueues(prepared, count) {
      OpenExtendsNoChain(s, key, prepared.children, timeout);
      OpenCompletesNothing(s, key, prepared.children, timeout);
    }
  }

  lemma OpenCompletesNothing(s: Sys, key: GroupKey, children: seq<Child>, timeout: Option<nat>)
    requires forall i :: 0 <= i < |children| ==> !children[i].Missing?
    ensures var t := DoOpen(s, key, children, timeout);
            t.clock == s.clock && t.hist.done == s.hist.done && t.db.outcomes == s.db.outcomes
  {
  }

  lemma EnterRecords(b: Backoff, s: Sys, token: Token, waitId: StepId, count: nat, prepared: Prepared,
                     timeout: Option<nat>, retention: nat, id: JobId)
    requires MayEnter(s, token, waitId) && OutcomeOk(s, retention, id) && token.job < s.db.nextId
    ensures OutcomeOk(DoEnter(b, s, token, waitId, count, prepared, timeout), retention, id)
  {
    EnterCompletesNothing(b, s, token, waitId, count, prepared, timeout);
    EnterMatches(b, s, token, waitId, count, prepared, timeout);
    EnterIsTame(s.db, token, waitId, count, prepared, timeout, s.runs[token].ended.Some?, b, s.clock, id);
  }

  lemma RecordStep(b: Backoff, s: Sys, e: Event, retention: nat, id: JobId)
    requires Inv(b, s) && OutcomeOk(s, retention, id) && Recorded(e, retention)
    ensures OutcomeOk(Apply(b, s, e), retention, id)
  {
    assert InBudget(s.db, id) by { assert id in s.db.jobs ==> JobOk(s, id); }
    match e
    case Enter(token, waitId, count, prepared, timeout) =>
      if MayEnter(s, token, waitId) { EnterRecords(b, s, token, waitId, count, prepared, timeout, retention, id); }
    case Settled(token, report, row, _) =>
      if MaySettle(s, token) {
        if Owns(s.db, token) { LifeOf(s, token.job); }
        SettleRecords(s, token, report, row, retention, id);
      }
    case Continuation(token, runAt, traceparent, latest, _) =>
      if MayContinue(s, token) {
        if Owns(s.db, token) { LifeOf(s, token.job); }
        ContinueRecords(s, token, runAt, traceparent, latest, retention, id);
      }
    case _ => OthersRecord(b, s, e, retention, id);
  }

  lemma {:induction false} RunsRecord(b: Backoff, s: Sys, events: seq<Event>, retention: nat, id: JobId)
    requires Monotone(b) && Inv(b, s) && OutcomeOk(s, retention, id) && AllRecorded(events, retention)
    ensures OutcomeOk(After(b, s, events), retention, id)
  {
    if events != [] {
      var n := |events| - 1;
      RunsRecord(b, s, events[..n], retention, id);
      RunsKeep(b, s, events[..n]);
      RecordStep(b, After(b, s, events[..n]), events[n], retention, id);
    }
  }

  /** Whatever commits between its two reads, a lookup finds every job that completed or
      continued within retention, and says which; its own row answers while there is one. */
  lemma {:induction false} LookupNeverMisses(b: Backoff, before: seq<Event>, between: seq<Event>, retention: nat,
                                             id: JobId)
    requires Monotone(b) && AllRecorded(before, retention) && AllRecorded(between, retention)
    requires var second := After(b, After(b, START, before), between);
             id in second.hist.done && second.clock - retention <= second.hist.done[id]
    ensures var first := After(b, START, before);
            var second := After(b, first, between);
            && !Query(first, second, id).NotFound?
            && (id !in first.db.jobs ==>
                  Query(first, second, id)
                  == if id in second.hist.next then HasContinued(second.hist.next[id]) else HasCompleted)
  {
    StartOk(b);
    RunsRecord(b, START, before, retention, id);
    Reachable(b, before);
    RunsRecord(b, After(b, START, before), between, retention, id);
    QueryFinds(After(b, START, before), After(b, After(b, START, before), between), retention, id);
  }

  lemma QueryFinds(first: Sys, second: Sys, retention: nat, id: JobId)
    requires OutcomeOk(second, retention, id) && id in second.hist.done
             && second.clock - retention <= second.hist.done[id]
    ensures !Query(first, second, id).NotFound?
    ensures id !in first.db.jobs ==>
              Query(first, second, id) == if id in second.hist.next then HasContinued(second.hist.next[id]) else HasCompleted
  {
  }

  /** What each of the two reads decides. */
  lemma QueryAnswers(b: Backoff, first: Sys, second: Sys, id: JobId)
    requires Inv(b, second)
    ensures var state := Query(first, second, id);
            if id in first.db.jobs then
              var job := first.db.jobs[id];
              if job.lock.Some? then state.Running?
              else if job.maxAttempts <= job.attempts then state.HasFailed?
              else if first.clock < job.runAt && exists c :: WaitsFor(second.db.groups, id, c) then
                state.WaitingOn? && forall c :: c in state.children <==> WaitsFor(second.db.groups, id, c)
              else if 0 < job.attempts then state.Retrying? else state.StillPending?
            else if id !in second.db.outcomes then state.NotFound?
            else match second.db.outcomes[id].state
                 case Completed => state.HasCompleted?
                 case Failed(_) => state.HasFailed?
                 case Continued(to) => state == HasContinued(to)
  {
    forall c ensures c in Unreported(second.db.groups, id) <==> WaitsFor(second.db.groups, id, c) {
      OpenWaitsAreUnreported(b, second, id, c);
    }
  }

  /** An open wait of the job names the child. */
  ghost predicate WaitsFor(groups: map<GroupKey, Group>, id: JobId, c: JobId) {
    exists key, i :: OpenRow(groups, key, i, id, c)
  }

  ghost predicate OpenRow(groups: map<GroupKey, Group>, key: GroupKey, i: int, id: JobId, c: JobId) {
    && key in groups && key.parent == id && 0 <= i < |groups[key].waits|
    && groups[key].waits[i].result.None? && groups[key].waits[i].child == c
  }

  lemma OpenWaitsAreUnreported(b: Backoff, s: Sys, id: JobId, c: JobId)
    requires Inv(b, s)
    ensures c in Unreported(s.db.groups, id) <==> WaitsFor(s.db.groups, id, c)
  {
    if WaitsFor(s.db.groups, id, c) {
      var key, i :| OpenRow(s.db.groups, key, i, id, c);
      assert GroupOk(s, key);
      NonePending(s.db.groups[key].waits, |s.db.groups[key].waits|);
    }
    if c in Unreported(s.db.groups, id) {
      var key, i :| key in s.db.groups && key.parent == id && s.db.groups[key].remaining > 0
                    && 0 <= i < |s.db.groups[key].waits| && s.db.groups[key].waits[i].result.None?
                    && s.db.groups[key].waits[i].child == c;
      assert OpenRow(s.db.groups, key, i, id, c);
    }
  }

  // Outcomes of jobs that are gone --------------------------------------------------------------------

  /** The job is gone and this is its outcome, still within retention. */
  predicate Keeps(s: Sys, retention: nat, id: JobId, outcome: Outcome) {
    id < s.db.nextId && id !in s.db.jobs
    && (s.clock - retention <= outcome.finishedAt ==> id in s.db.outcomes && s.db.outcomes[id] == outcome)
  }

  lemma OutcomeStays(b: Backoff, s: Sys, e: Event, t: Sys, retention: nat, id: JobId, outcome: Outcome)
    requires Inv(b, s) && Recorded(e, retention) && Keeps(s, retention, id, outcome) && t == Apply(b, s, e)
    ensures Keeps(t, retention, id, outcome)
  {
    GoneRowsStayGone(b, s, e, t, id);
    IdsOnlyGrow(b, s, e, t);
    if e.Enter? {
      if MayEnter(s, e.token, e.waitId) {
        EnterCompletesNothing(b, s, e.token, e.waitId, e.count, e.prepared, e.timeout);
      }
    } else if e.Settled? {
      SettledOutcomes(b, s, e, t, id);
    } else if e.Continuation? {
      ContinuedOutcomes(b, s, e, t, id);
    } else {
      OthersKeepOutcomes(b, s, e, t, retention, id, outcome);
    }
  }

  lemma SettledOutcomes(b: Backoff, s: Sys, e: Event, t: Sys, id: JobId)
    requires e.Settled? && t == Apply(b, s, e) && id !in s.db.jobs
    ensures t.clock == s.clock
            && (id in s.db.outcomes ==> id in t.db.outcomes && t.db.outcomes[id] == s.db.outcomes[id])
  {
    if MaySettle(s, e.token) {
      SettledDb(b, s, e, t);
      if Owns(s.db, e.token) { SettlementsRecord(b, s, e, t); }
    }
  }

  lemma ContinuedOutcomes(b: Backoff, s: Sys, e: Event, t: Sys, id: JobId)
    requires Inv(b, s) && e.Continuation? && t == Apply(b, s, e) && id !in s.db.jobs
    ensures t.clock == s.clock
            && (id in s.db.outcomes ==> id in t.db.outcomes && t.db.outcomes[id] == s.db.outcomes[id])
  {
    if MayContinue(s, e.token) && Owns(s.db, e.token) {
      LifeOf(s, e.token.job);
      var succeeded := Succeed(s.db, e.token.job, e.runAt, e.traceparent, e.latest, s.clock);
      SuccessorInherits(s.db, e.token.job, e.runAt, e.traceparent, e.latest, s.clock);
      SuccessionAddsOne(s.db, e.token.job, e.runAt, e.traceparent, e.latest, s.clock);
      if e.record { DeletedAndRecorded(succeeded, e.token, Continued(s.db.nextId), s.clock); }
    }
  }

  lemma OthersKeepOutcomes(b: Backoff, s: Sys, e: Event, t: Sys, retention: nat, id: JobId, outcome: Outcome)
    requires !e.Enter? && !e.Settled? && !e.Continuation? && Recorded(e, retention) && t == Apply(b, s, e)
    ensures s.clock <= t.clock
    ensures s.clock - retention <= outcome.finishedAt && id in s.db.outcomes && s.db.outcomes[id] == outcome ==>
              id in t.db.outcomes && t.db.outcomes[id] == outcome
  {
  }

  /** Pruning deletes exactly the outcomes older than the retention, but for rows another transaction
      holds. */
  lemma PrunesTheOld(b: Backoff, s: Sys, retention: nat, kept: set<JobId>, t: Sys, id: JobId)
    requires t == Apply(b, s, Prune(retention, kept))
    ensures id in t.db.outcomes <==>
              id in s.db.outcomes && (s.clock - s.db.outcomes[id].finishedAt <= retention || id in kept)
    ensures id in t.db.outcomes ==> t.db.outcomes[id] == s.db.outcomes[id]
  {
  }

  lemma {:induction false} OutcomesStay(b: Backoff, s: Sys, events: seq<Event>, retention: nat, id: JobId,
                                        outcome: Outcome)
    requires Monotone(b) && Inv(b, s) && AllRecorded(events, retention) && Keeps(s, retention, id, outcome)
    ensures Keeps(After(b, s, events), retention, id, outcome)
  {
    if events != [] {
      var n := |events| - 1;
      OutcomesStay(b, s, events[..n], retention, id, outcome);
      RunsKeep(b, s, events[..n]);
      OutcomeStays(b, After(b, s, events[..n]), events[n], After(b, s, events), retention, id, outcome);
    }
  }

  /** A job that its owner's settlement deletes and records answers every later lookup within
      retention: as completed or as failed, as it was settled. */
  lemma {:induction false} SettledJobsAnswer(b: Backoff, before: seq<Event>, e: Event, between: seq<Event>,
                                             later: seq<Event>, retention: nat)
    requires Monotone(b) && AllRecorded(between, retention) && AllRecorded(later, retention)
    requires var s := After(b, START, before);
             && e.Settled? && e.record && e.row == Delete && MaySettle(s, e.token) && Owns(s.db, e.token)
             && var first := After(b, Apply(b, s, e), between);
             After(b, first, later).clock - retention <= s.clock
    ensures var first := After(b, Apply(b, After(b, START, before), e), between);
            Query(first, After(b, first, later), e.token.job) == if e.report.Done? then HasCompleted else HasFailed
  {
    var s := After(b, START, before);
    var t := Apply(b, s, e);
    var first := After(b, t, between);
    Reachable(b, before);
    ApplyKeeps(b, s, e);
    SettlementKeeps(b, s, e, t, retention);
    var outcome := t.db.outcomes[e.token.job];
    OutcomesStay(b, t, between, retention, e.token.job, outcome);
    RunsKeep(b, t, between);
    OutcomesStay(b, first, later, retention, e.token.job, outcome);
  }

  lemma SettlementKeeps(b: Backoff, s: Sys, e: Event, t: Sys, retention: nat)
    requires Inv(b, s) && e.Settled? && e.record && e.row == Delete && MaySettle(s, e.token) && Owns(s.db, e.token)
    requires t == Apply(b, s, e)
    ensures e.token.job in t.db.outcomes && Keeps(t, retention, e.token.job, t.db.outcomes[e.token.job])
    ensures t.db.outcomes[e.token.job].finishedAt == s.clock
    ensures OutcomeState(t.db.outcomes[e.token.job]) == if e.report.Done? then HasCompleted else HasFailed
  {
    LifeOf(s, e.token.job);
    SettledDb(b, s, e, t);
    SettlementsRecord(b, s, e, t);
    SettlementsAct(b, s, e, t);
    IdsOnlyGrow(b, s, e, t);
  }
}
