/** One run as the variables executeTask and its closures change (src/worker.ts:110-173,
    193-215, 291-330, 423-448). Module Endings says what each stretch of code does to all of
    them and proves how they settle. */
module TaskRuns {
  import opened Wrappers
  import opened Endings

  /** How a context call answers before any transaction: refused by `assertActive` or by
      `called`, or put on the chain. */
  datatype Answer = Refused | Chained

  class TaskRun {
    const policy: Policy
    var expired: bool
    var called: bool
    var requests: seq<Request>
    var done: nat
    var busy: bool
    var ended: Option<Ending>
    var endedBy: nat
    var result: Option<Result>
    var phase: Phase
    var effects: seq<Effect>

    ghost function View(): Execution
      reads this
    {
      Execution(expired, called, requests, done, busy, ended, endedBy, result, phase, effects)
    }

    constructor (policy: Policy)
      ensures this.policy == policy && View() == FRESH
    {
      this.policy := policy;
      expired, called, requests, done, busy := false, false, [], 0, false;
      ended, endedBy, result, phase, effects := None, 0, None, Executing, [];
    }

    /** `ctx.continue()`. */
    method Continue() returns (answer: Answer)
      modifies this`called, this`requests
      ensures View() == Next(old(View()), CallContinue, policy)
      ensures answer.Chained? <==> !expired && !old(called)
    {
      if expired || called { return Refused; }
      called := true;
      requests := requests + [Request.Continue];
      answer := Chained;
    }

    /** A wait that reached the backend. */
    method Wait(waitId: WaitId) returns (answer: Answer)
      modifies this`requests
      ensures View() == Next(old(View()), CallWait(waitId), policy)
      ensures answer.Chained? <==> !expired
    {
      if expired { return Refused; }
      requests := requests + [Request.Wait(waitId)];
      answer := Chained;
    }

    /** The chain reached the next work; it checks before its transaction. */
    method StartNext()
      requires done < |requests| && !busy
      modifies this`done, this`busy
      ensures View() == Next(old(View()), StartRequest, policy)
    {
      var refused := match requests[done]
        case Continue => ended.Some?
        case Wait(_) => expired || (ended.Some? && ended.value.Continued?);
      if refused { done := done + 1; } else { busy := true; }
    }

    /** `continueJob` or a suspending `enterWait` committed. */
    method Committed()
      requires done < |requests| && busy
      modifies this
      ensures View() == Next(old(View()), CommitEnding, policy)
    {
      var first := ended.None?;
      match requests[done] {
        case Continue =>
          effects := effects + [Continuation];
          if first { ended := Some(Continued); }
        case Wait(id) =>
          effects := effects + [Suspension(first)];
          if first { ended := Some(Waiting(id)); }
      }
      if first { endedBy := done; }
      done, busy := done + 1, false;
    }

    /** The transaction failed, or the wait had finished and returned its checkpoint. */
    method SettledWithoutEnding()
      requires done < |requests| && busy
      modifies this`done, this`busy
      ensures View() == Next(old(View()), EndWithout, policy)
    {
      done, busy := done + 1, false;
    }

    /** The timer stays armed until the run is disposed. */
    method Expire()
      requires !phase.Finished?
      modifies this`expired, this`result
      ensures View() == Next(old(View()), TimeoutFires, policy)
    {
      expired := true;
      if result.None? { result := Some(Threw(TimedOut)); }
    }

    method HandlerSettled(outcome: Result)
      requires outcome != Threw(TimedOut)
      modifies this`result
      ensures View() == Next(old(View()), HandlerSettles(outcome), policy)
    {
      if result.None? { result := Some(outcome); }
    }

    method ResultArrived()
      requires phase.Executing? && result.Some?
      modifies this`phase
      ensures View() == Next(old(View()), ResultArrives, policy)
    {
      match result.value
      case Returned => phase := Deciding(|requests|);
      case Threw(error) => phase := Catching(error, |requests|);
    }

    /** `endings.settled()` resolved. */
    method ChainSettled()
      requires (phase.Catching? || phase.Deciding?) && phase.snapshot <= done
      modifies this`phase
      ensures View() == Next(old(View()), ChainSettles, policy)
    {
      match phase
      case Catching(error, snapshot) =>
        if ended.None? { phase := Decided(Fails(error), snapshot); } else { phase := Deciding(|requests|); }
      case Deciding(snapshot) =>
        if ended.Some? { phase := Decided(EndedAs(ended.value), snapshot); } else { phase := Decided(Completes, snapshot); }
      case _ =>
    }

    /** Settle the completion, or apply the failure policy. */
    method Conclude(recorded: bool)
      requires phase.Decided?
      modifies this`phase, this`effects
      ensures View() == Next(old(View()), Act(recorded), policy)
    {
      var snapshot := phase.snapshot;
      match phase.outcome
      case EndedAs(_) => phase := Finished(phase.outcome, snapshot);
      case Completes =>
        if policy.reports && !recorded { phase := Decided(Fails(Persistence), snapshot); return; }
        if policy.reports { effects := effects + [Settle(Delete, true)]; }
        phase := Finished(Completes, snapshot);
      case Fails(error) =>
        ConcludeFailure(error);
        phase := Finished(phase.outcome, snapshot);
    }

    method ConcludeFailure(error: Error)
      modifies this`effects
      ensures effects == old(effects) + FailureEffects(error, policy)
    {
      var permanent := error.NonRetriable? || policy.lastAttempt;
      if !permanent && error.RetryAt? { effects := effects + [ScheduleRetry]; }
      var retain := error.NonRetriable? && !policy.discard;
      if retain { effects := effects + [Settle(Exhaust, false)]; return; }
      if permanent && policy.reports {
        effects := effects + [Settle(if error.NonRetriable? then Delete else Keep, false)];
      }
    }
  }
}
