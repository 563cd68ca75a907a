/** `createLifecycle` as the object its closure is: the variables of src/lifecycle.ts:52-57,
    changed in place by each stretch of code between two awaits. Module Lifecycle says what
    every such stretch does to the whole state and proves the properties of all runs. */
module Supervision {
  import opened Wrappers
  import opened Lifecycle

  /** What a call gives its caller at once. */
  datatype Reply = Resolved | Rejected | Pending | Deferred

  class Supervised {
    const options: Options
    var clock: Time
    var runners: seq<Runner>
    var runs: seq<Run>
    var run: Option<nat>
    var starting: Option<Starting>
    var stopping: Option<Stopping>
    var once: bool
    var completion: Option<nat>
    var removable: bool
    var listeners: int
    var releases: nat

    ghost function View(): State
      reads this
    {
      State(clock, runners, runs, run, starting, stopping, once, completion, removable, listeners, releases)
    }

    constructor (options: Options)
      ensures this.options == options && View() == IDLE
    {
      this.options := options;
      clock, runners, runs := 0, [], [];
      run, starting, stopping, once, completion := None, None, None, false, None;
      removable, listeners, releases := false, 0, 0;
    }

    method CleanupSignals()
      modifies this`removable, this`listeners
      ensures View() == CleanSignals(old(View()))
    {
      if removable { listeners := listeners - 1; }
      removable := false;
    }

    method Start() returns (reply: Reply)
      modifies this`starting
      ensures View() == Next(old(View()), Event.Start, options)
      ensures reply.Pending? ==> starting.Some?
      ensures reply.Resolved? ==> run.Some? && !once
      ensures reply.Rejected? <==> old(stopping).None? && once
      ensures reply.Deferred? <==> old(stopping).Some?
    {
      if stopping.Some? { return Deferred; }
      if once { return Rejected; }
      if starting.Some? { return Pending; }
      if run.Some? { return Reply.Resolved; }
      starting := Some(Queued);
      reply := Pending;
    }

    method OpenRunner()
      requires starting == Some(Queued)
      modifies this
      ensures View() == Next(old(View()), Event.OpenRunner, options)
    {
      if options.signals {
        listeners := listeners + 1;
        removable := true;
      }
      starting := Some(Starting.Starting(|runners|));
      runners := runners + [Opening];
    }

    method RunnerOpened()
      requires starting.Some? && starting.value.Starting? && starting.value.runner < |runners|
      modifies this
      ensures View() == Next(old(View()), Event.Opened, options)
    {
      var i := starting.value.runner;
      runners := runners[i := Live];
      run, completion := Some(|runs|), Some(|runs|);
      runs := runs + [Run(false, Some(i), Watching(i, clock, 0), [])];
      starting := None;
    }

    method RunnerFailedToOpen()
      requires starting.Some? && starting.value.Starting? && starting.value.runner < |runners|
      modifies this
      ensures View() == Next(old(View()), Event.OpenFailed, options)
    {
      runners := runners[starting.value.runner := Ended(true)];
      CleanupSignals();
      starting := Some(Undoing);
    }

    method StartReleased()
      requires starting == Some(Undoing)
      modifies this`starting, this`releases
      ensures View() == Next(old(View()), Event.Undone, options)
    {
      releases := releases + 1;
      starting := None;
    }

    method Stop()
      requires run.Some? ==> run.value < |runs|
      modifies this
      ensures View() == Next(old(View()), Event.Stop, options)
      ensures stopping.Some?
    {
      if stopping.None? {
        if starting.Some? { stopping := Some(AfterStart); } else { StopOnceSettled(); }
      }
    }

    method StopOnceSettled()
      requires run.Some? ==> run.value < |runs|
      modifies this
      ensures View() == StopOnce(old(View())) && stopping.Some?
    {
      if once { stopping := Some(AfterOnce); } else { StopCurrentRun(); }
    }

    method StopCurrentRun()
      requires run.Some? ==> run.value < |runs|
      modifies this
      ensures View() == StopRun(old(View())) && stopping.Some?
    {
      CleanupSignals();
      if run.Some? {
        var current := runs[run.value];
        runs := runs[run.value := current.(stopped := true)];
        stopping := Some(AfterRunner(current.runner));
      } else {
        stopping := Some(Releasing);
      }
    }

    /** `stop()` goes on after whatever it awaits. */
    method StopContinues()
      requires run.Some? ==> run.value < |runs|
      modifies this
      ensures View() == Next(old(View()), StopResumes, options)
    {
      match stopping
      case None =>
      case Some(AfterStart) => if starting.None? { StopOnceSettled(); }
      case Some(AfterOnce) => if !once { StopCurrentRun(); }
      case Some(AfterRunner(runner)) =>
        if runner.None? || (runner.value < |runners| ==> runners[runner.value].Ended?) { stopping := Some(AfterCompletion); }
      case Some(AfterCompletion) =>
        if completion.None? || (completion.value < |runs| ==> runs[completion.value].supervisor.Over?) {
          run := None;
          stopping := Some(Releasing);
        }
      case Some(Releasing) =>
        releases := releases + 1;
        CleanupSignals();
        stopping := None;
    }

    method RunOnce() returns (reply: Reply)
      modifies this`once
      ensures View() == Next(old(View()), Event.RunOnce, options)
      ensures reply.Pending? <==> !old(once) && once
    {
      if starting.Some? || stopping.Some? || run.Some? || once { return Rejected; }
      once := true;
      reply := Pending;
    }

    /** The watched runner's promise settled. */
    method Supervise(r: nat)
      requires r < |runs| && runs[r].supervisor.Watching? && runs[r].supervisor.runner < |runners|
      requires runners[runs[r].supervisor.runner].Ended?
      modifies this
      ensures View() == Next(old(View()), SuperviseResumes(r), options)
    {
      var current := runs[r];
      var watched := current.supervisor;
      if !runners[watched.runner].failed || current.stopped || options.restart.None? {
        if !current.stopped {
          CleanupSignals();
          run := None;
        }
        runs := runs[r := current.(supervisor := Over)];
        return;
      }
      var restart := options.restart.value;
      var attempt := watched.attempt;
      var lived := clock - watched.startedAt;
      if lived >= restart.maxDelay { attempt := 0; }
      attempt := attempt + 1;
      var delay := Delay(restart, attempt);
      runs := runs[r := current.(runner := None, supervisor := Waiting(attempt, clock + delay),
                                 notes := current.notes + [Stopped(attempt, delay, lived)])];
    }

    /** The timer fired, or `stop()` cut the wait short. */
    method WaitOver(r: nat)
      requires r < |runs| && runs[r].supervisor.Waiting? && (runs[r].stopped || runs[r].supervisor.until <= clock)
      modifies this`runs, this`runners
      ensures View() == Next(old(View()), WaitEnds(r), options)
    {
      var current := runs[r];
      if current.stopped {
        runs := runs[r := current.(supervisor := Over)];
        return;
      }
      runs := runs[r := current.(supervisor := Relaunching(current.supervisor.attempt, |runners|))];
      runners := runners + [Opening];
    }

    method Relaunch(r: nat)
      requires r < |runs| && runs[r].supervisor.Relaunching? && runs[r].supervisor.runner < |runners|
      modifies this`runs, this`runners
      ensures View() == Next(old(View()), Relaunched(r), options)
    {
      var current := runs[r];
      var i := current.supervisor.runner;
      runners := runners[i := Live];
      if current.stopped {
        runs := runs[r := current.(supervisor := StoppingLate(i))];
        return;
      }
      var attempt := current.supervisor.attempt;
      runs := runs[r := current.(runner := Some(i), supervisor := Watching(i, clock, attempt),
                                 notes := current.notes + [Restarted(attempt)])];
    }

    method RelaunchFails(r: nat)
      requires r < |runs| && runs[r].supervisor.Relaunching? && runs[r].supervisor.runner < |runners|
      requires options.restart.Some?
      modifies this`runs, this`runners
      ensures View() == Next(old(View()), RelaunchFailed(r), options)
    {
      var current := runs[r];
      runners := runners[current.supervisor.runner := Ended(true)];
      if current.stopped {
        runs := runs[r := current.(supervisor := Over)];
        return;
      }
      var attempt := current.supervisor.attempt + 1;
      var delay := Delay(options.restart.value, attempt);
      runs := runs[r := current.(runner := None, supervisor := Waiting(attempt, clock + delay),
                                 notes := current.notes + [RestartFailed(attempt, delay)])];
    }

    /** `stop()` on a runner that was still starting resolved. */
    method LateRunnerStopped(r: nat)
      requires r < |runs| && runs[r].supervisor.StoppingLate? && runs[r].supervisor.runner < |runners|
      requires runners[runs[r].supervisor.runner].Ended?
      modifies this`runs
      ensures View() == Next(old(View()), LateRunnerEnded(r), options)
    {
      runs := runs[r := runs[r].(supervisor := Over)];
    }
  }
}
