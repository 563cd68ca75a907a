/** What this library's transactions never do to a row: lock it, unlock it, raise its
    budget, or bring back a deleted or an unlocked exhausted one. (A suspension gives a locked
    row an attempt back, see Suspensions.) */
module Rows {
  import opened Wrappers
  import opened Tables
  import opened Protocol
  import opened Invariants

  predicate Tame(before: Job, after: Job) {
    && after.lock == before.lock && after.maxAttempts <= before.maxAttempts
    && (before.lock.None? && Exhausted(before) ==> Exhausted(after))
  }

  predicate TameRow(db: Db, after: Db, j: JobId) {
    j < db.nextId && j in after.jobs ==> j in db.jobs && Tame(db.jobs[j], after.jobs[j])
  }

  /** ... and the checkpoints stay as they are. */
  predicate SteadyRow(db: Db, after: Db, j: JobId) {
    TameRow(db, after, j)
    && (j < db.nextId && j in after.jobs ==> after.jobs[j].envelope.steps == db.jobs[j].envelope.steps)
  }

  predicate InBudget(db: Db, j: JobId) { j in db.jobs ==> db.jobs[j].attempts <= db.jobs[j].maxAttempts }

  lemma SettleIsTame(db: Db, token: Token, settlement: Settlement, now: Time, j: JobId)
    requires InBudget(db, j)
    ensures SteadyRow(db, Settle(db, token, settlement, now), j)
  {
    if Owns(db, token) {
      var recorded := Record(db, token.job, settlement.outcome, now);
      var reported := ReportOne(recorded, token.job, settlement.report, now);
      ReportIsTame(recorded, token.job, settlement.report, now, j);
      ReportIsTame(recorded, token.job, settlement.report, now, token.job);
      ActionIsTame(reported, token, settlement.row, j);
    }
  }

  /** A settlement that deletes its row frees the row's lane, if its own pool holds it, and no
      settlement touches another lane. */
  lemma SettlementsFreeOneLane(db: Db, token: Token, settlement: Settlement, now: Time, lane: Lane)
    ensures var lanes := Settle(db, token, settlement, now).lanes;
            && (lane in lanes ==> lane in db.lanes && lanes[lane] == db.lanes[lane])
            && (lane in db.lanes && lane !in lanes <==>
                  && lane in db.lanes && Owns(db, token) && settlement.row.Delete?
                  && db.jobs[token.job].lane == Some(lane) && db.lanes[lane] == token.lock.owner)
  {
    if Owns(db, token) {
      var recorded := Record(db, token.job, settlement.outcome, now);
      ReportIsTame(recorded, token.job, settlement.report, now, token.job);
    }
  }

  lemma ReportIsTame(db: Db, id: JobId, report: Option<Report>, now: Time, j: JobId)
    ensures var after := ReportOne(db, id, report, now);
            && after.nextId == db.nextId && after.lanes == db.lanes && after.outcomes == db.outcomes
            && after.jobs.Keys == db.jobs.Keys
            && (j in db.jobs ==> after.jobs[j] == db.jobs[j].(runAt := after.jobs[j].runAt))
  {
  }

  lemma ActionIsTame(db: Db, token: Token, action: RowAction, j: JobId)
    requires Owns(db, token) && InBudget(db, j)
    ensures SteadyRow(db, ActOnRow(db, token.job, action, token.lock.owner), j)
  {
  }

  lemma SweepIsTame(b: Backoff, s: Sys, e: Event, j: JobId)
    requires OfSweep(e)
    ensures SteadyRow(s.db, Apply(b, s, e).db, j)
  {
  }

  lemma AddingIsTame(db: Db, spec: JobSpec, now: Time, j: JobId)
    requires InBudget(db, j) && j < db.nextId
    ensures SteadyRow(db, AddJob(db, spec, now), j) && InBudget(AddJob(db, spec, now), j)
  {
  }

  lemma SucceedIsTame(db: Db, id: JobId, runAt: Option<Time>, traceparent: Option<string>, latest: Option<Json>,
                      now: Time, j: JobId)
    requires id in db.jobs && InBudget(db, j) && j < db.nextId
    ensures var after := Succeed(db, id, runAt, traceparent, latest, now);
            SteadyRow(db, after, j) && InBudget(after, j)
  {
    AddingIsTame(db, ContinuationSpec(db.jobs[id], runAt, traceparent, latest), now, j);
  }

  lemma ContinueIsTame(db: Db, token: Token, runAt: Option<Time>, traceparent: Option<string>, latest: Option<Json>,
                       record: bool, now: Time, j: JobId)
    requires InBudget(db, j)
    ensures SteadyRow(db, Continue(db, token, runAt, traceparent, latest, record, now), j)
  {
    if Owns(db, token) && j < db.nextId {
      SucceedIsTame(db, token.job, runAt, traceparent, latest, now, j);
      var after := Succeed(db, token.job, runAt, traceparent, latest, now);
      if record { SettleIsTame(after, token, Settlement(Some(Continued(db.nextId)), None, Delete), now, j); }
    }
  }

  lemma {:induction false} AddChildrenIsTame(db: Db, children: seq<Child>, now: Time, j: JobId)
    requires j < db.nextId && forall i :: 0 <= i < |children| ==> !children[i].Missing?
    ensures var after := AddChildren(db, children, now).0; SteadyRow(db, after, j) && db.nextId <= after.nextId
  {
    if children != [] { AddChildrenIsTame(db, children[..|children| - 1], now, j); }
  }

  lemma OpenedIsTame(db: Db, entered: Db, token: Token, key: GroupKey, again: bool, b: Backoff, now: Time, j: JobId)
    requires TameRow(db, entered, j) && Owns(entered, token) && key in entered.groups && key.parent == token.job
    requires db.nextId <= entered.nextId && j < db.nextId
    ensures var group := entered.groups[key];
            TameRow(db, FinishWait(entered, key), j) &&
            var row := SuspendRow(entered.jobs[token.job], Deadline(group), again, b);
            && TameRow(db, entered.(jobs := entered.jobs[token.job := row]), j)
  {
  }

  lemma EnterIsTame(db: Db, token: Token, waitId: StepId, count: nat, prepared: Prepared, timeout: Option<nat>,
                    again: bool, b: Backoff, now: Time, j: JobId)
    requires token.job < db.nextId
    ensures TameRow(db, EnterWait(db, token, waitId, count, prepared, timeout, again, b, now).0, j)
  {
    var key := GroupKey(token.job, waitId);
    if j < db.nextId && Owns(db, token) && (key in db.groups || Enqueues(prepared, count)) {
      var entered := if key in db.groups then db else Open(db, key, prepared.children, timeout, now);
      if key !in db.groups {
        AddChildrenIsTame(db, prepared.children, now, j);
        AddChildrenIsTame(db, prepared.children, now, token.job);
      }
      OpenedIsTame(db, entered, token, key, again, b, now, j);
    }
  }

  lemma EnterEventIsTame(b: Backoff, s: Sys, e: Event, j: JobId)
    requires e.Enter? && forall token :: token in s.runs ==> token.job < s.db.nextId
    ensures TameRow(s.db, Apply(b, s, e).db, j)
  {
    if MayEnter(s, e.token, e.waitId) {
      EnterMatches(b, s, e.token, e.waitId, e.count, e.prepared, e.timeout);
      EnterIsTame(s.db, e.token, e.waitId, e.count, e.prepared, e.timeout, s.runs[e.token].ended.Some?, b, s.clock, j);
    }
  }

  lemma ContinuationEventIsTame(b: Backoff, s: Sys, e: Event, j: JobId)
    requires e.Continuation? && InBudget(s.db, j)
    ensures SteadyRow(s.db, Apply(b, s, e).db, j)
  {
    ContinueIsTame(s.db, e.token, e.runAt, e.traceparent, e.latest, e.record, s.clock, j);
  }

  lemma SettledEventIsTame(b: Backoff, s: Sys, e: Event, j: JobId)
    requires e.Settled? && InBudget(s.db, j)
    ensures SteadyRow(s.db, Apply(b, s, e).db, j)
  {
    if e.token in s.runs {
      SettleIsTame(s.db, e.token, SettlementOf(e.report, e.row, e.record, s.runs[e.token].waited), s.clock, j);
    }
  }

  /** Events that move at most one row of their own. */
  predicate Quiet(e: Event) { e.Decide? || e.Retry? || e.Step? || e.Progress? || e.Prune? }

  lemma QuietIsTame(b: Backoff, s: Sys, e: Event, j: JobId)
    requires Quiet(e)
    ensures TameRow(s.db, Apply(b, s, e).db, j) && (!e.Step? ==> SteadyRow(s.db, Apply(b, s, e).db, j))
  {
  }

  /** One event of this library and one row it did not insert. */
  lemma {:induction false} LibraryIsTame(b: Backoff, s: Sys, e: Event, j: JobId)
    requires OfLibrary(e) && InBudget(s.db, j) && forall token :: token in s.runs ==> token.job < s.db.nextId
    ensures TameRow(s.db, Apply(b, s, e).db, j)
    ensures !e.Enter? && !e.Step? ==> SteadyRow(s.db, Apply(b, s, e).db, j)
  {
    if e.Enter? {
      EnterEventIsTame(b, s, e, j);
    } else if e.Continuation? {
      ContinuationEventIsTame(b, s, e, j);
    } else if e.Settled? {
      SettledEventIsTame(b, s, e, j);
    } else if OfSweep(e) {
      SweepIsTame(b, s, e, j);
    } else {
      QuietIsTame(b, s, e, j);
    }
  }
}
