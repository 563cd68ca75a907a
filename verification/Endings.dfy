/** One run of a handler (src/worker.ts:110-173, 200-212, 299-323, 357-618): the promise chain
    that orders waits and continuations, the timeout, and executeTask's decision.

    Code between two awaits is one event. The handler is unconstrained: it may call the
    context at any time, also after it returned, threw or timed out. */
module Endings {
  import opened Wrappers

  type WaitId = string

  datatype Ending = Continued | Waiting(waitId: WaitId)

  datatype Request = Continue | Wait(waitId: WaitId)

  datatype Error = Signal | TimedOut | NonRetriable | RetryAt | Ordinary | Persistence

  datatype Result = Returned | Threw(error: Error)

  datatype Row = Delete | Exhaust | Keep

  /** What the run does to the tables; `givesBack` marks the suspension that returns the attempt. */
  datatype Effect =
    | Continuation
    | Suspension(givesBack: bool)
    | Settle(row: Row, success: bool)
    | ScheduleRetry

  datatype Outcome = EndedAs(ending: Ending) | Completes | Fails(error: Error)

  /** `snapshot` counts the requests that the latest `settled()` waits for. */
  datatype Phase =
    | Executing
    | Catching(error: Error, snapshot: nat)
    | Deciding(snapshot: nat)
    | Decided(outcome: Outcome, snapshot: nat)
    | Finished(outcome: Outcome, snapshot: nat)

  /** `requests` are the works ever put on the chain; the first `done` have settled, the next
      one's transaction is open when `busy`. `endedBy` is the request that set `ended`. */
  datatype Execution = Execution(
    expired: bool,
    called: bool,
    requests: seq<Request>,
    done: nat,
    busy: bool,
    ended: Option<Ending>,
    endedBy: nat,
    result: Option<Result>,
    phase: Phase,
    effects: seq<Effect>)

  const FRESH := Execution(false, false, [], 0, false, None, 0, None, Executing, [])

  /** The job and worker options the failure policy reads. */
  datatype Policy = Policy(lastAttempt: bool, discard: bool, reports: bool)

  datatype Event =
    | CallContinue
    | CallWait(waitId: WaitId)
    | StartRequest
    | CommitEnding
    | EndWithout
    | TimeoutFires
    | HandlerSettles(result: Result)
    | ResultArrives
    | ChainSettles
    | Act(recorded: bool)

  /** What a failed run asks of the tables, in order (src/worker.ts:557-616). */
  function FailureEffects(error: Error, p: Policy): seq<Effect> {
    var permanent := error.NonRetriable? || p.lastAttempt;
    var retry := if !permanent && error.RetryAt? then [ScheduleRetry] else [];
    if error.NonRetriable? && !p.discard then retry + [Settle(Exhaust, false)]
    else if permanent && p.reports then retry + [Settle(if error.NonRetriable? then Delete else Keep, false)]
    else retry
  }

  function Enqueue(x: Execution, request: Request): Execution { x.(requests := x.requests + [request]) }

  function Over(x: Execution): Execution { x.(done := x.done + 1, busy := false) }

  function Start(x: Execution): Execution
    requires x.done < |x.requests| && !x.busy
  {
    match x.requests[x.done]
    case Continue => if x.ended.Some? then Over(x) else x.(busy := true)
    case Wait(_) => if x.expired || x.ended == Some(Continued) then Over(x) else x.(busy := true)
  }

  function Commit(x: Execution): Execution
    requires x.done < |x.requests|
  {
    var request := x.requests[x.done];
    var ending := match request case Continue => Continued case Wait(id) => Waiting(id);
    var effect := match request case Continue => Continuation case Wait(_) => Suspension(x.ended.None?);
    Over(x).(ended := Some(x.ended.GetOr(ending)), endedBy := if x.ended.None? then x.done else x.endedBy,
             effects := x.effects + [effect])
  }

  function ChainSettled(x: Execution): Execution {
    match x.phase
    case Catching(error, snapshot) =>
      if x.done < snapshot then x
      else if x.ended.None? then x.(phase := Decided(Fails(error), snapshot))
      else x.(phase := Deciding(|x.requests|))
    case Deciding(snapshot) =>
      if x.done < snapshot then x
      else x.(phase := Decided(if x.ended.Some? then EndedAs(x.ended.value) else Completes, snapshot))
    case _ => x
  }

  function Acted(x: Execution, recorded: bool, p: Policy): Execution
    requires x.phase.Decided?
  {
    var snapshot := x.phase.snapshot;
    match x.phase.outcome
    case EndedAs(_) => x.(phase := Finished(x.phase.outcome, snapshot))
    case Completes =>
      if !p.reports then x.(phase := Finished(Completes, snapshot))
      else if recorded then x.(phase := Finished(Completes, snapshot), effects := x.effects + [Settle(Delete, true)])
      else x.(phase := Decided(Fails(Persistence), snapshot))
    case Fails(error) => x.(phase := Finished(x.phase.outcome, snapshot), effects := x.effects + FailureEffects(error, p))
  }

  function Next(x: Execution, e: Event, p: Policy): Execution {
    match e
    case CallContinue => if x.expired || x.called then x else Enqueue(x.(called := true), Continue)
    case CallWait(id) => if x.expired then x else Enqueue(x, Wait(id))
    case StartRequest => if x.done < |x.requests| && !x.busy then Start(x) else x
    case CommitEnding => if x.done < |x.requests| && x.busy then Commit(x) else x
    case EndWithout => if x.done < |x.requests| && x.busy then Over(x) else x
    case TimeoutFires =>
      if x.phase.Finished? then x
      else x.(expired := true, result := if x.result.None? then Some(Threw(TimedOut)) else x.result)
    case HandlerSettles(result) =>
      // The timeout's error is the timer's own; a handler that throws it again comes too late.
      if x.result.Some? || result == Threw(TimedOut) then x else x.(result := Some(result))
    case ResultArrives =>
      if !x.phase.Executing? || x.result.None? then x
      else x.(phase := match x.result.value
                       case Returned => Deciding(|x.requests|)
                       case Threw(error) => Catching(error, |x.requests|))
    case ChainSettles => ChainSettled(x)
    case Act(recorded) => if x.phase.Decided? then Acted(x, recorded, p) else x
  }

  function After(x: Execution, events: seq<Event>, p: Policy): Execution {
    if events == [] then x else Next(After(x, events[..|events| - 1], p), events[|events| - 1], p)
  }

  // Invariant -----------------------------------------------------------------------------

  function Continuations(effects: seq<Effect>): nat {
    if effects == [] then 0 else
    Continuations(effects[..|effects| - 1]) + if effects[|effects| - 1].Continuation? then 1 else 0
  }

  function GivenBack(effects: seq<Effect>): nat {
    if effects == [] then 0 else
    GivenBack(effects[..|effects| - 1]) + if effects[|effects| - 1] == Suspension(true) then 1 else 0
  }

  predicate Suspends(effects: seq<Effect>) { exists i :: 0 <= i < |effects| && effects[i].Suspension? }

  /** A settlement or a scheduled retry. */
  predicate Settles(effects: seq<Effect>) {
    exists i :: 0 <= i < |effects| && (effects[i].Settle? || effects[i].ScheduleRetry?)
  }

  predicate CommittedOk(x: Execution) {
    && x.done <= |x.requests| && (x.busy ==> x.done < |x.requests|)
    && (x.ended.Some? ==> x.endedBy < x.done)
    && match x.ended
       case None => Continuations(x.effects) == 0 && !Suspends(x.effects) && GivenBack(x.effects) == 0
       case Some(Continued) => Continuations(x.effects) == 1 && !Suspends(x.effects) && GivenBack(x.effects) == 0
       case Some(Waiting(_)) => Continuations(x.effects) == 0 && GivenBack(x.effects) == 1
  }

  /** An open transaction may still end the run its own way. */
  predicate OpenOk(x: Execution) {
    x.busy && x.done < |x.requests| ==> if x.requests[x.done].Continue? then x.ended.None? else x.ended != Some(Continued)
  }

  predicate DecisionOk(x: Execution) {
    && (x.result.None? ==> x.phase.Executing?)
    && (!x.phase.Executing? ==> x.phase.snapshot <= |x.requests|)
    && (x.phase.Deciding? && x.result.Some? && x.result.value.Threw? ==> x.ended.Some?)
    && (x.phase.Executing? || x.phase.Catching? || x.phase.Deciding? ==> !Settles(x.effects))
    && (x.phase.Decided? || x.phase.Finished? ==>
          && x.phase.snapshot <= x.done
          && match x.phase.outcome
             case EndedAs(ending) => x.ended == Some(ending) && !Settles(x.effects)
             case _ => x.ended.Some? ==> x.phase.snapshot <= x.endedBy)
  }

  predicate Inv(x: Execution) { CommittedOk(x) && OpenOk(x) && DecisionOk(x) }

  lemma {:induction false} Append(effects: seq<Effect>, more: seq<Effect>)
    requires |more| <= 1
    ensures Continuations(effects + more) == Continuations(effects) + (if more != [] && more[0].Continuation? then 1 else 0)
    ensures GivenBack(effects + more) == GivenBack(effects) + (if more == [Suspension(true)] then 1 else 0)
    ensures Suspends(effects + more) <==> Suspends(effects) || (more != [] && more[0].Suspension?)
    ensures Settles(effects + more) <==> Settles(effects) || (more != [] && (more[0].Settle? || more[0].ScheduleRetry?))
  {
    if more == [] {
      assert effects + more == effects;
    } else {
      assert (effects + more)[..|effects|] == effects && (effects + more)[|effects|] == more[0];
      forall i | 0 <= i < |effects| ensures (effects + more)[i] == effects[i] {}
    }
  }

  lemma ContinuingKeepsInv(x: Execution)
    requires Inv(x) && x.busy && x.requests[x.done].Continue?
    ensures Inv(Commit(x))
  {
    Append(x.effects, [Continuation]);
    assert Commit(x).effects == x.effects + [Continuation];
  }

  lemma SuspendingKeepsInv(x: Execution)
    requires Inv(x) && x.busy && x.requests[x.done].Wait?
    ensures Inv(Commit(x))
  {
    Append(x.effects, [Suspension(x.ended.None?)]);
    assert Commit(x).effects == x.effects + [Suspension(x.ended.None?)];
  }

  lemma CommitKeepsInv(x: Execution)
    requires Inv(x) && x.busy
    ensures Inv(Commit(x))
  {
    if x.requests[x.done].Continue? { ContinuingKeepsInv(x); } else { SuspendingKeepsInv(x); }
  }

  /** A failed run settles its row or schedules a retry, never both and never an ending. */
  lemma FailureEffectsAreOne(error: Error, p: Policy)
    ensures var effects := FailureEffects(error, p);
            |effects| <= 1 && (effects != [] ==> effects[0].Settle? || effects[0].ScheduleRetry?)
  {
  }

  lemma AppendedKeepsInv(x: Execution, y: Execution, more: seq<Effect>)
    requires Inv(x) && x.phase.Decided? && !x.phase.outcome.EndedAs?
    requires |more| <= 1 && (more != [] ==> more[0].Settle? || more[0].ScheduleRetry?)
    requires y == x.(effects := x.effects + more, phase := y.phase)
    requires y.phase.Finished? && !y.phase.outcome.EndedAs? && y.phase.snapshot == x.phase.snapshot
    ensures Inv(y)
  {
    Append(x.effects, more);
  }

  lemma ActKeepsInv(x: Execution, recorded: bool, p: Policy)
    requires Inv(x) && x.phase.Decided?
    ensures Inv(Acted(x, recorded, p))
  {
    match x.phase.outcome
    case EndedAs(_) =>
    case Completes => if p.reports && recorded { AppendedKeepsInv(x, Acted(x, recorded, p), [Settle(Delete, true)]); }
    case Fails(error) =>
      FailureEffectsAreOne(error, p);
      AppendedKeepsInv(x, Acted(x, recorded, p), FailureEffects(error, p));
  }

  lemma PhasesKeepInv(x: Execution, e: Event, p: Policy)
    requires Inv(x) && (e.ResultArrives? || e.ChainSettles? || e.TimeoutFires? || e.HandlerSettles?)
    ensures Inv(Next(x, e, p))
  {
  }

  lemma RequestsKeepInv(x: Execution, e: Event, p: Policy)
    requires Inv(x) && (e.CallContinue? || e.CallWait? || e.StartRequest? || e.EndWithout?)
    ensures Inv(Next(x, e, p))
  {
  }

  lemma NextKeepsInv(x: Execution, e: Event, p: Policy)
    requires Inv(x)
    ensures Inv(Next(x, e, p))
  {
    match e
    case CommitEnding => if x.busy { CommitKeepsInv(x); }
    case Act(recorded) => if x.phase.Decided? { ActKeepsInv(x, recorded, p); }
    case _ =>
      if e.ResultArrives? || e.ChainSettles? || e.TimeoutFires? || e.HandlerSettles? {
        PhasesKeepInv(x, e, p);
      } else {
        RequestsKeepInv(x, e, p);
      }
  }

  lemma {:induction false} AfterKeepsInv(x: Execution, events: seq<Event>, p: Policy)
    requires Inv(x)
    ensures Inv(After(x, events, p))
  {
    if events != [] {
      AfterKeepsInv(x, events[..|events| - 1], p);
      NextKeepsInv(After(x, events[..|events| - 1], p), events[|events| - 1], p);
    }
  }

  // Theorems ------------------------------------------------------------------------------

  /** Every interleaving of context calls, transactions, timeout and handler: a run never both
      continues and suspends, continues at most once and gives its attempt back at most once. */
  lemma {:induction false} OneEndingPerRun(events: seq<Event>, p: Policy)
    ensures var x := After(FRESH, events, p);
            && Continuations(x.effects) <= 1 && GivenBack(x.effects) <= 1
            && !(Continuations(x.effects) == 1 && Suspends(x.effects))
            && (x.ended == Some(Continued) <==> Continuations(x.effects) == 1)
            && (x.ended.Some? && x.ended.value.Waiting? <==> GivenBack(x.effects) == 1)
  {
    AfterKeepsInv(FRESH, events, p);
  }

  /** An ending requested before the decision decides: the run ends that way, whatever the
      handler threw and whether or not its timeout fired, and neither settles nor retries. */
  lemma {:induction false} EndingsDecide(events: seq<Event>, p: Policy)
    requires var x := After(FRESH, events, p);
             && (x.phase.Decided? || x.phase.Finished?) && x.ended.Some? && x.endedBy < x.phase.snapshot
    ensures var x := After(FRESH, events, p);
            x.phase.outcome == EndedAs(x.ended.value) && !Settles(x.effects)
  {
    AfterKeepsInv(FRESH, events, p);
  }

  /** An outcome that names an ending is never revised, and names the one that committed. */
  lemma {:induction false} EndedRunsStayEnded(events: seq<Event>, e: Event, p: Policy)
    requires var x := After(FRESH, events, p);
             (x.phase.Decided? || x.phase.Finished?) && x.phase.outcome.EndedAs?
    ensures var x, y := After(FRESH, events, p), Next(After(FRESH, events, p), e, p);
            && (y.phase.Decided? || y.phase.Finished?) && y.phase.outcome == x.phase.outcome
            && x.ended == Some(x.phase.outcome.ending) && y.ended == x.ended && !Settles(y.effects)
  {
    AfterKeepsInv(FRESH, events, p);
    NextKeepsInv(After(FRESH, events, p), e, p);
  }

  /** Decided without an ending, but a transaction is open, a continuation is queued, or the
      handler may still start one. */
  predicate MayEscape(x: Execution) {
    !x.expired || x.busy || exists i :: x.done <= i < |x.requests| && x.requests[i].Continue?
  }

  predicate Escaped(x: Execution) { (x.phase.Decided? || x.phase.Finished?) && !x.phase.outcome.EndedAs? && x.ended.Some? }

  predicate EscapesAfter(x: Execution, events: seq<Event>, p: Policy) { Escaped(After(x, events, p)) }

  predicate DecidedWithout(x: Execution) {
    (x.phase.Decided? || x.phase.Finished?) && !x.phase.outcome.EndedAs? && x.ended.None?
  }

  /** Exactly when a run decided without an ending can still commit one: unless its timeout
      fired and nothing that started before it is open or queued as a continuation. */
  lemma {:induction false} EscapesIff(x: Execution, p: Policy)
    requires Inv(x) && DecidedWithout(x)
    ensures MayEscape(x) <==> exists events :: EscapesAfter(x, events, p)
  {
    if MayEscape(x) {
      var events := Escape(x, p);
      assert EscapesAfter(x, events, p);
    } else {
      forall events ensures !EscapesAfter(x, events, p) { ShutRunsStayShut(x, events, p); }
    }
  }

  lemma {:induction false} ShutRunsStayShut(x: Execution, events: seq<Event>, p: Policy)
    requires Inv(x) && DecidedWithout(x) && !MayEscape(x)
    ensures var y := After(x, events, p); Inv(y) && DecidedWithout(y) && !MayEscape(y)
  {
    if events != [] {
      var before, e := After(x, events[..|events| - 1], p), events[|events| - 1];
      ShutRunsStayShut(x, events[..|events| - 1], p);
      NextKeepsInv(before, e, p);
    }
  }

  lemma AfterAgain(x: Execution, first: seq<Event>, second: seq<Event>, p: Policy)
    ensures After(x, first + second, p) == After(After(x, first, p), second, p)
    decreases |second|
  {
    if second == [] {
      assert first + second == first;
    } else {
      var n := |second| - 1;
      assert (first + second)[..|first + second| - 1] == first + second[..n];
      AfterAgain(x, first, second[..n], p);
    }
  }

  lemma AfterOne(x: Execution, e: Event, p: Policy)
    ensures After(x, [e], p) == Next(x, e, p)
  {
    assert [e][..0] == [];
  }

  /** The schedule: commit what is open, else let the chain reach the next request. */
  lemma {:induction false} Escape(x: Execution, p: Policy) returns (events: seq<Event>)
    requires Inv(x) && DecidedWithout(x) && MayEscape(x)
    ensures Escaped(After(x, events, p))
    decreases |x.requests| - x.done, !x.busy
  {
    var e := if x.busy then CommitEnding else if x.done < |x.requests| then StartRequest else CallWait("late");
    var y := Next(x, e, p);
    NextKeepsInv(x, e, p);
    AfterOne(x, e, p);
    if x.busy {
      events := [e];
      assert Escaped(y);
      return;
    }
    var rest;
    if x.done < |x.requests| {
      rest := Escape(y, p);
    } else {
      assert !x.expired && y.requests[y.done] == Wait("late");
      var started := Next(y, StartRequest, p);
      assert Escaped(Next(started, CommitEnding, p));
      rest := [StartRequest] + [CommitEnding];
      AfterOne(y, StartRequest, p);
      AfterOne(started, CommitEnding, p);
      AfterAgain(y, [StartRequest], [CommitEnding], p);
    }
    events := [e] + rest;
    AfterAgain(x, [e], rest, p);
  }

  /** The handler throws, nothing has ended the run, and a wait that it started without awaiting
      reaches the backend only after the decision. */
  const LATE_WAIT := [HandlerSettles(Threw(Ordinary)), ResultArrives, ChainSettles, CallWait("late"), StartRequest,
                      CommitEnding]

  const FAILED := FRESH.(result := Some(Threw(Ordinary)), phase := Decided(Fails(Ordinary), 0))

  lemma TheRunFails(p: Policy)
    ensures After(FRESH, LATE_WAIT[..3], p) == FAILED
  {
    AfterFirst(FRESH, LATE_WAIT[..1], p);
    AfterFirst(FRESH, LATE_WAIT[..2], p);
    AfterFirst(FRESH, LATE_WAIT[..3], p);
  }

  lemma TheWaitCommits(p: Policy)
    ensures var x := Next(Next(Next(FAILED, CallWait("late"), p), StartRequest, p), CommitEnding, p);
            Escaped(x) && x.phase == FAILED.phase && x.effects == [Suspension(true)]
  {
    assert Next(FAILED, CallWait("late"), p) == FAILED.(requests := [Wait("late")]);
    assert [] + [Suspension(true)] == [Suspension(true)];
  }

  /** That run has failed and suspends all the same. */
  lemma LateWaitsEscape(p: Policy)
    ensures var x := After(FRESH, LATE_WAIT, p);
            Escaped(x) && x.phase.outcome == Fails(Ordinary) && x.effects == [Suspension(true)]
  {
    TheRunFails(p);
    TheWaitCommits(p);
    AfterFirst(FRESH, LATE_WAIT[..4], p);
    AfterFirst(FRESH, LATE_WAIT[..5], p);
    AfterFirst(FRESH, LATE_WAIT, p);
    assert LATE_WAIT[..4][..3] == LATE_WAIT[..3] && LATE_WAIT[..5][..4] == LATE_WAIT[..4];
  }

  lemma AfterFirst(x: Execution, events: seq<Event>, p: Policy)
    requires events != []
    ensures After(x, events, p) == Next(After(x, events[..|events| - 1], p), events[|events| - 1], p)
  {
  }

  /** After its timeout fired a run starts no request, and the timer's error is decided only
      after every request before it settled. */
  predicate TimeoutOk(x: Execution) {
    && (x.result == Some(Threw(TimedOut)) ==> x.expired)
    && (x.phase.Catching? && x.phase.error.TimedOut? ==> x.expired && x.phase.snapshot == |x.requests|)
    && ((x.phase.Decided? || x.phase.Finished?) && x.phase.outcome == Fails(TimedOut) ==>
          x.expired && x.phase.snapshot == |x.requests|)
  }

  lemma {:induction false} AfterKeepsTimeout(events: seq<Event>, p: Policy)
    ensures TimeoutOk(After(FRESH, events, p))
  {
    if events != [] {
      AfterKeepsTimeout(events[..|events| - 1], p);
      NextKeepsTimeout(After(FRESH, events[..|events| - 1], p), events[|events| - 1], p);
    }
  }

  lemma NextKeepsTimeout(x: Execution, e: Event, p: Policy)
    requires TimeoutOk(x)
    ensures TimeoutOk(Next(x, e, p))
  {
  }

  /** A run decided by its timeout committed no ending and never will, however its handler goes
      on detached: the timeout never races an ending. */
  lemma {:induction false} TimeoutsNeverRace(events: seq<Event>, later: seq<Event>, p: Policy)
    requires var x := After(FRESH, events, p);
             (x.phase.Decided? || x.phase.Finished?) && x.phase.outcome == Fails(TimedOut)
    ensures After(After(FRESH, events, p), later, p).ended.None?
  {
    var x := After(FRESH, events, p);
    AfterKeepsInv(FRESH, events, p);
    AfterKeepsTimeout(events, p);
    ShutRunsStayShut(x, later, p);
  }

  // What a decision does ----------------------------------------------------------------------------

  /** The effects of one step. */
  function Added(x: Execution, y: Execution): seq<Effect>
    requires |x.effects| <= |y.effects|
  {
    y.effects[|x.effects|..]
  }

  /** A failed run acts once: a RetryAt error with attempts left schedules its retry, a
      NonRetriable one spends the row, or deletes it when such jobs are discarded, and a last attempt
      records its failure; where nobody asks for outcome or report, the latter two leave the row to
      Graphile. */
  lemma {:induction false} FailedRunsAct(events: seq<Event>, p: Policy, recorded: bool)
    requires var x := After(FRESH, events, p); x.phase.Decided? && x.phase.outcome.Fails?
    ensures var x := After(FRESH, events, p);
            var y, error := Next(x, Act(recorded), p), x.phase.outcome.error;
            && y == x.(phase := Finished(x.phase.outcome, x.phase.snapshot), effects := y.effects)
            && x.effects <= y.effects && |Added(x, y)| <= 1
            && (ScheduleRetry in Added(x, y) <==> error == RetryAt && !p.lastAttempt)
            && (Settle(Exhaust, false) in Added(x, y) <==> error == NonRetriable && !p.discard)
            && (Settle(Delete, false) in Added(x, y) <==> error == NonRetriable && p.discard && p.reports)
            && (Settle(Keep, false) in Added(x, y) <==> error != NonRetriable && p.lastAttempt && p.reports)
            && (forall effect :: effect in Added(x, y) ==>
                  effect in [ScheduleRetry, Settle(Exhaust, false), Settle(Delete, false), Settle(Keep, false)])
  {
    FailureActs(After(FRESH, events, p), p, recorded);
  }

  lemma FailureActs(x: Execution, p: Policy, recorded: bool)
    requires x.phase.Decided? && x.phase.outcome.Fails?
    ensures var y := Next(x, Act(recorded), p);
            && y == x.(phase := Finished(x.phase.outcome, x.phase.snapshot), effects := y.effects)
            && y.effects == x.effects + FailureEffects(x.phase.outcome.error, p)
            && Added(x, y) == FailureEffects(x.phase.outcome.error, p)
  {
  }

  /** A completed run settles its row as a success if anybody asks for it, and a completion that
      could not be recorded fails the run instead; a run that ended otherwise writes nothing more. */
  lemma {:induction false} FinishedRunsAct(events: seq<Event>, p: Policy, recorded: bool)
    requires var x := After(FRESH, events, p); x.phase.Decided? && !x.phase.outcome.Fails?
    ensures var x := After(FRESH, events, p);
            var y := Next(x, Act(recorded), p);
            if x.phase.outcome.Completes? && p.reports && !recorded
            then y == x.(phase := Decided(Fails(Persistence), x.phase.snapshot))
            else y == x.(phase := Finished(x.phase.outcome, x.phase.snapshot),
                         effects := x.effects + if x.phase.outcome.Completes? && p.reports then [Settle(Delete, true)] else [])
  {
    var x := After(FRESH, events, p);
    assert x.effects + [] == x.effects;
  }

  /** A run takes one continuation, and waits without limit, until its timeout. */
  lemma CallsAnswer(x: Execution, id: WaitId, p: Policy)
    ensures var y := Next(x, CallContinue, p);
            if x.expired || x.called then y == x else y == x.(called := true, requests := x.requests + [Continue])
    ensures var y := Next(x, CallWait(id), p);
            if x.expired then y == x else y == x.(requests := x.requests + [Wait(id)])
  {
  }

  /** What each phase has seen of the handler's result. */
  predicate ResultOk(x: Execution) {
    match x.phase
    case Executing => true
    case Catching(error, _) => x.result == Some(Threw(error))
    case Deciding(_) => x.result == Some(Returned) || x.ended.Some?
    case Decided(outcome, _) => FollowsResult(x, outcome)
    case Finished(outcome, _) => FollowsResult(x, outcome)
  }

  predicate FollowsResult(x: Execution, outcome: Outcome) {
    match outcome
    case EndedAs(_) => true
    case Completes => x.result == Some(Returned)
    case Fails(error) => x.result == Some(Threw(error)) || (error == Persistence && x.result == Some(Returned))
  }

  lemma NextKeepsResult(x: Execution, e: Event, p: Policy)
    requires ResultOk(x)
    ensures ResultOk(Next(x, e, p))
  {
  }

  /** A run completes only if its handler returned, and fails only with the error that the handler or
      its timer threw first, or for a completion that could not be recorded. */
  lemma {:induction false} OutcomesFollowTheHandler(events: seq<Event>, p: Policy)
    ensures var x := After(FRESH, events, p);
            x.phase.Decided? || x.phase.Finished? ==> FollowsResult(x, x.phase.outcome)
  {
    ResultsAreKept(events, p);
  }

  lemma {:induction false} ResultsAreKept(events: seq<Event>, p: Policy)
    ensures ResultOk(After(FRESH, events, p))
  {
    if events != [] {
      ResultsAreKept(events[..|events| - 1], p);
      NextKeepsResult(After(FRESH, events[..|events| - 1], p), events[|events| - 1], p);
    }
  }

  /** A handler that settles with nothing on its chain is decided by its result. */
  lemma ResultsDecide(x: Execution, result: Result, p: Policy)
    requires x.phase.Executing? && x.result.None? && x.done == |x.requests| && !x.busy && x.ended.None?
    requires result != Threw(TimedOut)
    ensures var y := Next(Next(Next(x, HandlerSettles(result), p), ResultArrives, p), ChainSettles, p);
            && y.phase == Decided(match result case Returned => Completes case Threw(error) => Fails(error), x.done)
            && y.effects == x.effects
  {
  }

  /** A continuation or wait that the handler asks for on an idle chain commits and decides the run,
      whatever the handler does with its signal. */
  lemma EndingsEnd(x: Execution, request: Request, result: Result, p: Policy)
    requires x.phase.Executing? && x.result.None? && x.done == |x.requests| && !x.busy && x.ended.None?
    requires !x.expired && !x.called && result != Threw(TimedOut)
    ensures var asked := Next(x, match request case Continue => CallContinue case Wait(id) => CallWait(id), p);
            var ended := Next(Next(asked, StartRequest, p), CommitEnding, p);
            var y := Next(Next(Next(Next(ended, HandlerSettles(result), p), ResultArrives, p), ChainSettles, p), ChainSettles, p);
            && y.phase.Decided?
            && y.phase.outcome == EndedAs(match request case Continue => Continued case Wait(id) => Waiting(id))
            && y.effects == x.effects + [match request case Continue => Continuation case Wait(_) => Suspension(true)]
  {
    var asked := Next(x, match request case Continue => CallContinue case Wait(id) => CallWait(id), p);
    assert asked.requests == x.requests + [request];
  }
}
