/** A suspending wait against its children's reports, at the row locks where the two
    transactions meet (src/private-jobs.ts:134-152, 396-475).

    `enterWait` locks the parent's row, then the group's, and holds both until it commits.
    A report takes its snapshot, blocks on the group's row, re-reads it, and if it leaves no
    child unreported blocks on the parent's row and updates the latest version of that. A
    transaction that aborts, for example in a deadlock, changes nothing and may come again. */
module RowLocks {
  import opened Wrappers
  import opened Tables

  datatype Holder = Free | ByParent | ByChild(i: nat)

  datatype Suspending = Outside | HasParent(begun: Time) | HasGroup(begun: Time, read: int) | Slept | Checkpointed

  datatype Reporting =
    | Before
    | Snapshot(begun: Time, seen: Job)
    | Counting(begun: Time, seen: Job, left: int)
    | Reported(begun: Time)

  /** One child's transaction and the number of the group's rows it resolves. */
  datatype Reporter = Reporter(share: nat, stage: Reporting)

  /** The committed rows, who holds them, and where each transaction stands. `again` tells
      that an earlier wait of this run already suspended it. `zeroAt` and
      `failedAt` are history: the begin time of the report that left no child, and the time of
      Graphile's failure update. */
  datatype Race = Race(
    clock: Time,
    parent: Job,
    remaining: int,
    deadline: Option<Time>,
    again: bool,
    group: bool,
    parentLock: Holder,
    groupLock: Holder,
    suspending: Suspending,
    reporters: seq<Reporter>,
    zeroAt: Option<Time>,
    failedAt: Option<Time>)

  datatype Move =
    | Tick(ms: nat)
    | LockParent
    | LockGroup
    | CommitParent
    | AbortParent
    | Begin(i: nat)
    | Count(i: nat)
    | CommitChild(i: nat)
    | AbortChild(i: nat)
    | FailParent

  function SetStage(r: Race, i: nat, stage: Reporting): Race
    requires i < |r.reporters|
  {
    r.(reporters := r.reporters[i := r.reporters[i].(stage := stage)])
  }

  predicate PastDeadline(r: Race, begun: Time) { r.deadline.Some? && r.deadline.value <= begun }

  function Commit(r: Race, b: Backoff): Race
    requires r.suspending.HasGroup?
  {
    var unlocked := r.(parentLock := Free, groupLock := Free);
    if r.suspending.read == 0 || PastDeadline(r, r.suspending.begun)
    then unlocked.(group := false, suspending := Checkpointed)
    else unlocked.(parent := SuspendRow(r.parent, r.deadline.GetOr(NO_DEADLINE), r.again, b), suspending := Slept)
  }

  /** `filtered` is the statement the code avoids: a `run_at > now()` condition, read from the
      report's snapshot, on the parent to wake. */
  function Report(r: Race, i: nat, filtered: bool): Race
    requires i < |r.reporters| && r.reporters[i].stage.Counting?
  {
    var stage := r.reporters[i].stage;
    var counted := SetStage(r, i, Reported(stage.begun)).(groupLock := Free, remaining := stage.left);
    if !r.group || stage.left != 0 then counted
    else if filtered && stage.seen.runAt <= stage.begun then counted.(zeroAt := Some(stage.begun))
    else counted.(zeroAt := Some(stage.begun), parent := r.parent.(runAt := Min(r.parent.runAt, stage.begun)))
  }

  function Next(r: Race, m: Move, b: Backoff, filtered: bool): Race {
    match m
    case Tick(ms) => r.(clock := r.clock + ms)
    case LockParent =>
      if r.suspending.Outside? && r.parentLock.Free? && r.parent.lock.Some?
      then r.(parentLock := ByParent, suspending := HasParent(r.clock)) else r
    case LockGroup =>
      if r.suspending.HasParent? && r.groupLock.Free?
      then r.(groupLock := ByParent, suspending := HasGroup(r.suspending.begun, r.remaining)) else r
    case CommitParent => if r.suspending.HasGroup? then Commit(r, b) else r
    case AbortParent =>
      if r.suspending.HasParent? then r.(parentLock := Free, suspending := Outside)
      else if r.suspending.HasGroup? then r.(parentLock := Free, groupLock := Free, suspending := Outside)
      else r
    case Begin(i) =>
      if i < |r.reporters| && r.reporters[i].stage.Before? then SetStage(r, i, Snapshot(r.clock, r.parent)) else r
    case Count(i) =>
      if i < |r.reporters| && r.reporters[i].stage.Snapshot? && r.groupLock.Free? then
        var stage := r.reporters[i].stage;
        SetStage(r, i, Counting(stage.begun, stage.seen, r.remaining - r.reporters[i].share)).(groupLock := ByChild(i))
      else r
    case CommitChild(i) =>
      if i < |r.reporters| && r.reporters[i].stage.Counting?
         && (!r.group || r.reporters[i].stage.left != 0 || r.parentLock.Free?)
      then Report(r, i, filtered) else r
    case AbortChild(i) =>
      if i < |r.reporters| && r.reporters[i].stage.Snapshot? then SetStage(r, i, Before)
      else if i < |r.reporters| && r.reporters[i].stage.Counting? then SetStage(r, i, Before).(groupLock := Free)
      else r
    case FailParent =>
      if r.suspending.Slept? && r.parent.lock.Some? && r.parentLock.Free?
      then r.(parent := FailRow(r.parent, b, r.clock), failedAt := Some(r.clock)) else r
  }

  function Moves(r: Race, moves: seq<Move>, b: Backoff, filtered: bool): Race {
    if moves == [] then r else
    Next(Moves(r, moves[..|moves| - 1], b, filtered), moves[|moves| - 1], b, filtered)
  }

  /** Rows of the group whose child has not reported. */
  function Outstanding(reporters: seq<Reporter>): nat {
    if reporters == [] then 0 else
    var last := reporters[|reporters| - 1];
    Outstanding(reporters[..|reporters| - 1]) + if last.stage.Reported? then 0 else last.share
  }

  lemma {:induction false} OutstandingMoves(reporters: seq<Reporter>, i: nat, stage: Reporting)
    requires i < |reporters|
    ensures Outstanding(reporters[i := reporters[i].(stage := stage)])
         == Outstanding(reporters)
            + (if reporters[i].stage.Reported? then reporters[i].share else 0)
            - (if stage.Reported? then reporters[i].share else 0)
  {
    var n := |reporters| - 1;
    var after := reporters[i := reporters[i].(stage := stage)];
    if i < n {
      OutstandingMoves(reporters[..n], i, stage);
      assert after[..n] == reporters[..n][i := reporters[..n][i].(stage := stage)];
    } else {
      assert after[..n] == reporters[..n];
    }
  }

  /** The run holds its row, has just reached the wait, and no child has begun to report. */
  predicate Initial(r: Race) {
    && r.parent.lock.Some? && r.group && r.suspending.Outside? && r.parentLock.Free? && r.groupLock.Free?
    && (forall i :: 0 <= i < |r.reporters| ==> r.reporters[i].stage.Before? && 0 < r.reporters[i].share)
    && r.remaining == Outstanding(r.reporters)
    && r.zeroAt.None? && r.failedAt.None?
  }

  ghost predicate LocksOk(r: Race) {
    && (r.parentLock.ByParent? <==> r.suspending.HasParent? || r.suspending.HasGroup?) && !r.parentLock.ByChild?
    && (r.groupLock.ByParent? <==> r.suspending.HasGroup?)
    && (forall i: nat :: r.groupLock == ByChild(i) <==> i < |r.reporters| && r.reporters[i].stage.Counting?)
    && (r.suspending.HasGroup? ==> r.suspending.read == r.remaining)
    && (forall i :: 0 <= i < |r.reporters| && r.reporters[i].stage.Counting? ==>
          r.reporters[i].stage.left == r.remaining - r.reporters[i].share)
  }

  ghost predicate TimesOk(r: Race) {
    && (forall i :: 0 <= i < |r.reporters| && r.reporters[i].stage.Snapshot? ==> r.reporters[i].stage.begun <= r.clock)
    && (forall i :: 0 <= i < |r.reporters| && r.reporters[i].stage.Counting? ==> r.reporters[i].stage.begun <= r.clock)
    && (r.zeroAt.Some? ==> r.zeroAt.value <= r.clock)
  }

  ghost predicate CountsOk(r: Race) {
    && (forall i :: 0 <= i < |r.reporters| ==> 0 < r.reporters[i].share)
    && r.remaining == Outstanding(r.reporters)
  }

  /** The parent slept and its last child reported: it is due by that report, or one backoff
      after the failure update. */
  ghost predicate DueOk(r: Race, b: Backoff) {
    && (r.suspending.Checkpointed? <==> !r.group)
    && (r.failedAt.Some? ==> r.suspending.Slept? && r.parent.lock.None?)
    && (r.suspending.Slept? && r.remaining == 0 ==>
          && r.zeroAt.Some?
          && r.parent.runAt <= match r.failedAt
                               case None => r.zeroAt.value
                               case Some(t) => Max(r.zeroAt.value, t + b(r.parent.attempts)))
  }

  ghost predicate Safe(r: Race, b: Backoff) { LocksOk(r) && TimesOk(r) && CountsOk(r) && DueOk(r, b) }

  lemma ParentKeepsSafe(r: Race, m: Move, b: Backoff)
    requires Safe(r, b)
             && (m.Tick? || m.LockParent? || m.LockGroup? || m.CommitParent? || m.AbortParent? || m.FailParent?)
    ensures Safe(Next(r, m, b, false), b)
  {
  }

  lemma BeginKeepsSafe(r: Race, i: nat, b: Backoff)
    requires Safe(r, b)
    ensures Safe(Next(r, Begin(i), b, false), b)
  {
    if i < |r.reporters| && r.reporters[i].stage.Before? {
      OutstandingMoves(r.reporters, i, Snapshot(r.clock, r.parent));
    }
  }

  lemma CountKeepsLocks(r: Race, i: nat)
    requires LocksOk(r) && i < |r.reporters| && r.reporters[i].stage.Snapshot? && r.groupLock.Free?
    ensures var stage := r.reporters[i].stage;
            LocksOk(SetStage(r, i, Counting(stage.begun, stage.seen, r.remaining - r.reporters[i].share)).(groupLock := ByChild(i)))
  {
    assert forall k :: 0 <= k < |r.reporters| ==> !r.reporters[k].stage.Counting? by {
      forall k: nat | k < |r.reporters| ensures !r.reporters[k].stage.Counting? { assert r.groupLock != ByChild(k); }
    }
  }

  lemma CountKeepsSafe(r: Race, i: nat, b: Backoff)
    requires Safe(r, b)
    ensures Safe(Next(r, Count(i), b, false), b)
  {
    if i < |r.reporters| && r.reporters[i].stage.Snapshot? && r.groupLock.Free? {
      CountKeepsLocks(r, i);
      var stage := r.reporters[i].stage;
      OutstandingMoves(r.reporters, i, Counting(stage.begun, stage.seen, r.remaining - r.reporters[i].share));
    }
  }

  lemma CommitKeepsSafe(r: Race, i: nat, b: Backoff)
    requires Safe(r, b)
    ensures Safe(Next(r, CommitChild(i), b, false), b)
  {
    if i < |r.reporters| && r.reporters[i].stage.Counting? {
      OutstandingMoves(r.reporters, i, Reported(r.reporters[i].stage.begun));
    }
  }

  lemma AbortSnapshotKeepsSafe(r: Race, i: nat, b: Backoff)
    requires Safe(r, b) && i < |r.reporters| && r.reporters[i].stage.Snapshot?
    ensures Safe(SetStage(r, i, Before), b)
  {
    OutstandingMoves(r.reporters, i, Before);
  }

  lemma AbortCountingKeepsSafe(r: Race, i: nat, b: Backoff)
    requires Safe(r, b) && i < |r.reporters| && r.reporters[i].stage.Counting?
    ensures Safe(SetStage(r, i, Before).(groupLock := Free), b)
  {
    OutstandingMoves(r.reporters, i, Before);
    assert r.groupLock == ByChild(i);
  }

  lemma NextKeepsSafe(r: Race, m: Move, b: Backoff)
    requires Safe(r, b)
    ensures Safe(Next(r, m, b, false), b)
  {
    match m
    case Begin(i) => BeginKeepsSafe(r, i, b);
    case Count(i) => CountKeepsSafe(r, i, b);
    case CommitChild(i) => CommitKeepsSafe(r, i, b);
    case AbortChild(i) =>
      if i < |r.reporters| && r.reporters[i].stage.Snapshot? {
        AbortSnapshotKeepsSafe(r, i, b);
      } else if i < |r.reporters| && r.reporters[i].stage.Counting? {
        AbortCountingKeepsSafe(r, i, b);
      }
    case _ => ParentKeepsSafe(r, m, b);
  }

  lemma {:induction false} MovesKeepSafe(r: Race, moves: seq<Move>, b: Backoff)
    requires Safe(r, b)
    ensures Safe(Moves(r, moves, b, false), b)
  {
    if moves != [] {
      var n := |moves| - 1;
      MovesKeepSafe(r, moves[..n], b);
      NextKeepsSafe(Moves(r, moves[..n], b, false), moves[n], b);
    }
  }

  lemma {:induction false} AllReportedLeavesNone(reporters: seq<Reporter>)
    requires forall i :: 0 <= i < |reporters| ==> 0 < reporters[i].share
    ensures Outstanding(reporters) == 0 <==> forall i :: 0 <= i < |reporters| ==> reporters[i].stage.Reported?
  {
    if reporters != [] { AllReportedLeavesNone(reporters[..|reporters| - 1]); }
  }

  /** The wait and every report committed, and the parent sleeps past neither the last report
      nor, after Graphile's failure update, one backoff from that update. */
  ghost predicate Woken(t: Race, b: Backoff) {
    t.zeroAt.Some? && t.parent.runAt <= match t.failedAt
                                        case None => t.zeroAt.value
                                        case Some(at) => Max(t.zeroAt.value, at + b(t.parent.attempts))
  }

  predicate Over(t: Race) {
    && (t.suspending.Slept? || t.suspending.Checkpointed?)
    && forall i :: 0 <= i < |t.reporters| ==> t.reporters[i].stage.Reported?
  }

  lemma InitialIsSafe(r: Race, b: Backoff)
    requires Initial(r)
    ensures Safe(r, b)
  {
  }

  /** In every interleaving, once the wait and every report committed, either the wait was
      checkpointed or the parent is due no later than the last report began; only Graphile's
      failure update can delay it, to one backoff after that update. */
  lemma {:induction false} NoInterleavingLosesAWakeup(r: Race, moves: seq<Move>, b: Backoff)
    requires Initial(r)
    requires Over(Moves(r, moves, b, false))
    ensures var t := Moves(r, moves, b, false); t.suspending.Checkpointed? || Woken(t, b)
  {
    InitialIsSafe(r, b);
    MovesKeepSafe(r, moves, b);
    OverMeansWoken(Moves(r, moves, b, false), b);
  }

  lemma OverMeansWoken(t: Race, b: Backoff)
    requires Over(t) && Safe(t, b)
    ensures t.suspending.Checkpointed? || Woken(t, b)
  {
    AllReportedLeavesNone(t.reporters);
  }

  // Refinement ------------------------------------------------------------------------------

  /** What other transactions see: the committed rows. */
  datatype Rows = Rows(parent: Job, remaining: int, group: bool)

  function Committed(r: Race): Rows { Rows(r.parent, r.remaining, r.group) }

  /** A wait as one indivisible step. */
  function AtomicWait(rows: Rows, deadline: Option<Time>, again: bool, begun: Time, b: Backoff): Rows {
    if rows.remaining == 0 || (deadline.Some? && deadline.value <= begun) then rows.(group := false)
    else rows.(parent := SuspendRow(rows.parent, deadline.GetOr(NO_DEADLINE), again, b))
  }

  /** A report as one indivisible step. */
  function AtomicReport(rows: Rows, share: nat, begun: Time): Rows {
    var counted := rows.(remaining := rows.remaining - share);
    if rows.group && counted.remaining == 0
    then counted.(parent := rows.parent.(runAt := Min(rows.parent.runAt, begun))) else counted
  }

  /** The rows as the protocol's tables hold them; checkpoints lie outside this race. */
  predicate Shows(db: Db, key: GroupKey, rows: Rows) {
    && key.parent in db.jobs
    && db.jobs[key.parent] == rows.parent.(envelope := db.jobs[key.parent].envelope)
    && (key in db.groups <==> rows.group)
    && (rows.group ==> db.groups[key].remaining == rows.remaining)
  }

  /** The indivisible wait is the protocol's transaction on an open group. */
  lemma WaitsAreTheProtocols(db: Db, rows: Rows, token: Token, waitId: StepId, count: nat, prepared: Prepared,
                             timeout: Option<nat>, again: bool, b: Backoff, now: Time)
    requires var key := GroupKey(token.job, waitId); Owns(db, token) && key in db.groups && Shows(db, key, rows)
    ensures var key := GroupKey(token.job, waitId);
            var (after, end) := EnterWait(db, token, waitId, count, prepared, timeout, again, b, now);
            && Shows(after, key, AtomicWait(rows, db.groups[key].deadline, again, now, b))
            && (end.Suspended? <==> key in after.groups)
  {
  }

  /** The indivisible report of some rows of the group is the protocol's statement, which also
      wakes the parent if it finishes another of its groups. */
  lemma ReportsAreTheProtocols(db: Db, rows: Rows, key: GroupKey, verdict: Verdict, now: Time)
    requires key in db.groups && 0 < Hits(key, db.groups[key], verdict) && Shows(db, key, rows)
    ensures var after := AtomicReport(rows, Hits(key, db.groups[key], verdict), now);
            var woken := exists other :: other in db.groups && other.parent == key.parent && other != key
                                         && Finishes(other, db.groups[other], verdict);
            Shows(ReportAll(db, verdict, now), key,
                  if woken then after.(parent := after.parent.(runAt := Min(after.parent.runAt, now))) else after)
  {
    assert Finishes(key, db.groups[key], verdict) <==> rows.remaining == Hits(key, db.groups[key], verdict);
  }

  /** Each move commits nothing, or exactly what one indivisible transaction on the rows of
      that moment would: the wait, one child's report, or the failure update. */
  lemma InterleavingsAreSerial(r: Race, m: Move, b: Backoff)
    requires Safe(r, b)
    ensures var before, after := Committed(r), Committed(Next(r, m, b, false));
            after == match m
                     case CommitParent =>
                       if r.suspending.HasGroup? then AtomicWait(before, r.deadline, r.again, r.suspending.begun, b) else before
                     case CommitChild(i) =>
                       if Next(r, m, b, false) != r then AtomicReport(before, r.reporters[i].share, r.reporters[i].stage.begun)
                       else before
                     case FailParent =>
                       if Next(r, m, b, false).failedAt != r.failedAt || after.parent != before.parent
                       then before.(parent := FailRow(before.parent, b, r.clock)) else before
                     case _ => before
  {
  }

  // The filter the code avoids ----------------------------------------------------------------

  /** One child; its report's snapshot precedes the suspension it then waits for. */
  const RACE := [Begin(0), LockParent, LockGroup, CommitParent, Count(0), CommitChild(0)]

  lemma MovesOneMore(r: Race, moves: seq<Move>, m: Move, b: Backoff, filtered: bool)
    ensures Moves(r, moves + [m], b, filtered) == Next(Moves(r, moves, b, filtered), m, b, filtered)
  {
    assert (moves + [m])[..|moves|] == moves;
  }

  lemma TheRace(r: Race, b: Backoff, filtered: bool)
    ensures Moves(r, RACE, b, filtered)
         == Next(Next(Next(Next(Next(Next(r, Begin(0), b, filtered), LockParent, b, filtered), LockGroup, b, filtered),
                           CommitParent, b, filtered), Count(0), b, filtered), CommitChild(0), b, filtered)
  {
    MovesOneMore(r, [], Begin(0), b, filtered);
    MovesOneMore(r, [] + [Begin(0)], LockParent, b, filtered);
    MovesOneMore(r, [] + [Begin(0)] + [LockParent], LockGroup, b, filtered);
    MovesOneMore(r, [] + [Begin(0)] + [LockParent] + [LockGroup], CommitParent, b, filtered);
    MovesOneMore(r, [] + [Begin(0)] + [LockParent] + [LockGroup] + [CommitParent], Count(0), b, filtered);
    MovesOneMore(r, [] + [Begin(0)] + [LockParent] + [LockGroup] + [CommitParent] + [Count(0)], CommitChild(0), b, filtered);
    assert RACE == [] + [Begin(0)] + [LockParent] + [LockGroup] + [CommitParent] + [Count(0)] + [CommitChild(0)];
  }

  /** With the condition, this interleaving leaves a finished wait asleep with no deadline;
      without it the parent is due when the report began. */
  lemma {:induction false} TheFilterLosesAWakeup(r: Race, b: Backoff)
    requires Initial(r) && |r.reporters| == 1 && r.deadline.None? && !r.again
    requires r.parent.runAt <= r.clock < NO_DEADLINE - b(r.parent.attempts - 1)
    ensures |Moves(r, RACE, b, true).reporters| == 1
    ensures var t := Moves(r, RACE, b, true);
            && t.suspending.Slept? && t.remaining == 0 && t.reporters[0].stage.Reported?
            && t.parent.runAt == NO_DEADLINE - b(r.parent.attempts - 1)
    ensures Moves(r, RACE, b, false).parent.runAt == r.clock
  {
    assert Outstanding(r.reporters[..0]) == 0;
    TheRace(r, b, true);
    TheRace(r, b, false);
    WaitInside(r, b, true);
    WaitInside(r, b, false);
    ReportInside(BeforeReport(r, b, true), r, b, true);
    ReportInside(BeforeReport(r, b, false), r, b, false);
  }

  function BeforeReport(r: Race, b: Backoff, filtered: bool): Race {
    Next(Next(Next(Next(r, Begin(0), b, filtered), LockParent, b, filtered), LockGroup, b, filtered), CommitParent, b, filtered)
  }

  lemma ReportInside(slept: Race, r: Race, b: Backoff, filtered: bool)
    requires slept.suspending.Slept? && slept.groupLock.Free? && slept.parentLock.Free? && slept.group
             && |r.reporters| == 1
    requires slept.reporters == [Reporter(r.reporters[0].share, Snapshot(r.clock, r.parent))]
    requires slept.remaining == r.reporters[0].share && slept.parent.runAt == NO_DEADLINE - b(r.parent.attempts - 1)
    requires r.parent.runAt <= r.clock < NO_DEADLINE - b(r.parent.attempts - 1)
    ensures var t := Next(Next(slept, Count(0), b, filtered), CommitChild(0), b, filtered);
            && t.suspending.Slept? && t.remaining == 0 && |t.reporters| == 1 && t.reporters[0].stage.Reported?
            && t.parent.runAt == if filtered then NO_DEADLINE - b(r.parent.attempts - 1) else r.clock
  {
  }

  lemma WaitInside(r: Race, b: Backoff, filtered: bool)
    requires Initial(r) && |r.reporters| == 1 && r.deadline.None? && !r.again && r.remaining == r.reporters[0].share
    requires r.parent.runAt <= r.clock < NO_DEADLINE - b(r.parent.attempts - 1)
    ensures var slept := BeforeReport(r, b, filtered);
            && slept.suspending.Slept? && slept.groupLock.Free? && slept.parentLock.Free? && slept.group
            && slept.reporters == [Reporter(r.reporters[0].share, Snapshot(r.clock, r.parent))]
            && slept.remaining == r.remaining && slept.parent.runAt == NO_DEADLINE - b(r.parent.attempts - 1)
  {
  }
}
