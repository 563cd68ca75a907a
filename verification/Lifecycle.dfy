/** The supervisor of src/lifecycle.ts. JavaScript runs the code between two awaits without
    interruption, so each event is one such segment, or the settling of a runner's promise.

    `runner.stop()` resolves once its runner has ended and never rejects, as startRunner
    provides (src/worker.ts:1001-1015); a start that rejects leaves no runner behind. */
module Lifecycle {
  import opened Wrappers

  type Time = int

  // Restart policy ------------------------------------------------------------------------

  const MAX_TIMER := 2_147_483_647

  /** `false`; `true` or undefined; an object. */
  datatype RestartOption = Disabled | Default | Tuned(delay: Option<int>, maxDelay: Option<int>)

  datatype Policy = Policy(delay: nat, maxDelay: nat)

  datatype Resolved = Off | On(policy: Policy) | RangeError

  function ResolveRestart(option: RestartOption): Resolved {
    match option
    case Disabled => Off
    case Default => Check(1000, 30_000)
    case Tuned(delay, maxDelay) =>
      var first := delay.GetOr(1000);
      Check(first, maxDelay.GetOr(if first < 30_000 then 30_000 else first))
  }

  function Check(delay: int, maxDelay: int): Resolved {
    if 0 <= delay <= MAX_TIMER && delay <= maxDelay <= MAX_TIMER then On(Policy(delay, maxDelay)) else RangeError
  }

  /** Restarts are off only if disabled, and else a policy exists exactly when the delays a caller gave
      fit; those it did not give are a second, and thirty or the given first delay if longer. */
  lemma PoliciesAreOrdered(option: RestartOption)
    ensures ResolveRestart(option).Off? <==> option.Disabled?
    ensures ResolveRestart(option).RangeError? <==>
              && option.Tuned?
              && var delay := if option.delay.Some? then option.delay.value else 1000;
              !(0 <= delay <= 2_147_483_647)
              || (option.maxDelay.Some? && !(delay <= option.maxDelay.value <= 2_147_483_647))
    ensures ResolveRestart(option).On? ==>
              var p := ResolveRestart(option).policy;
              && p.delay <= p.maxDelay <= 2_147_483_647
              && p.delay == (if option.Tuned? && option.delay.Some? then option.delay.value else 1000)
              && p.maxDelay == if option.Tuned? && option.maxDelay.Some? then option.maxDelay.value
                               else if 30_000 < p.delay then p.delay else 30_000
  {
  }

  function Pow2(n: nat): (p: nat)
    ensures 1 <= p
  {
    if n == 0 then 1 else 2 * Pow2(n - 1)
  }

  /** The wait before restart number `attempt` of a streak. */
  function Delay(p: Policy, attempt: nat): nat
    requires 1 <= attempt
  {
    var doublings := if attempt - 1 < 30 then attempt - 1 else 30;
    var grown := p.delay * Pow2(doublings);
    if grown < p.maxDelay then grown else p.maxDelay
  }

  lemma {:induction false} Pow2Grows(m: nat, n: nat)
    requires m <= n
    ensures Pow2(m) <= Pow2(n)
  {
    if m < n { Pow2Grows(m, n - 1); }
  }

  lemma TimesGrows(k: nat, m: nat, n: nat)
    requires m <= n
    ensures k * m <= k * n
  {
  }

  /** Delays stay between the two limits and never shrink while a streak lasts. */
  lemma DelaysGrowWithinLimits(p: Policy, early: nat, late: nat)
    requires p.delay <= p.maxDelay && 1 <= early <= late
    ensures p.delay <= Delay(p, early) <= Delay(p, late) <= p.maxDelay
  {
    var m := if early - 1 < 30 then early - 1 else 30;
    var n := if late - 1 < 30 then late - 1 else 30;
    Pow2Grows(m, n);
    TimesGrows(p.delay, 1, Pow2(m));
    TimesGrows(p.delay, Pow2(m), Pow2(n));
  }

  /** The first wait is `delay`, each further one twice the last but at most `maxDelay`; after
      the thirtieth doubling waits stay the same. */
  lemma WaitsDouble(p: Policy, attempt: nat)
    requires p.delay <= p.maxDelay && 1 <= attempt
    ensures Delay(p, 1) == p.delay
    ensures Delay(p, attempt + 1) ==
              if 30 < attempt then Delay(p, attempt)
              else if 2 * Delay(p, attempt) < p.maxDelay then 2 * Delay(p, attempt) else p.maxDelay
  {
    if attempt <= 30 { DoublesTheProduct(p.delay, Pow2(attempt - 1)); }
  }

  lemma DoublesTheProduct(delay: nat, power: nat)
    ensures delay * (2 * power) == 2 * (delay * power)
  {
  }

  /** Which accepted policies ever wait `maxDelay`: all but those that never wait at all and a
      delay of one millisecond under a limit beyond thirty doublings. */
  lemma WaitsReachTheLimit(p: Policy)
    requires p.delay <= p.maxDelay <= MAX_TIMER
    ensures (exists attempt: nat :: 1 <= attempt && Delay(p, attempt) == p.maxDelay)
            <==> p.maxDelay == 0 || 2 <= p.delay || (p.delay == 1 && p.maxDelay <= 1_073_741_824)
  {
    ThirtyDoublings();
    if p.maxDelay == 0 || 2 <= p.delay || (p.delay == 1 && p.maxDelay <= 1_073_741_824) {
      if 2 <= p.delay { TimesGrowsLeft(2, p.delay, Pow2(30)); }
      var grown := p.delay * Pow2(30);
      assert p.maxDelay <= grown;
      assert Delay(p, 31) == if grown < p.maxDelay then grown else p.maxDelay;
    } else {
      forall attempt: nat | 1 <= attempt ensures Delay(p, attempt) != p.maxDelay {
        Pow2Grows(if attempt - 1 < 30 then attempt - 1 else 30, 30);
      }
    }
  }

  lemma ThirtyDoublings()
    ensures Pow2(30) == 1_073_741_824
  {
    assert Pow2(4) == 16;
    assert Pow2(8) == 256;
    assert Pow2(12) == 4096;
    assert Pow2(16) == 65_536;
    assert Pow2(20) == 1_048_576;
    assert Pow2(24) == 16_777_216;
    assert Pow2(28) == 268_435_456;
  }

  lemma TimesGrowsLeft(k: nat, m: nat, n: nat)
    requires k <= m
    ensures k * n <= m * n
  {
  }

  // State ---------------------------------------------------------------------------------

  datatype Runner = Opening | Live | Ended(failed: bool)

  /** What the policy's callbacks hear; `lived` is how long the failed runner was observed. */
  datatype Note =
    | Stopped(attempt: nat, delay: nat, lived: int)
    | RestartFailed(attempt: nat, delay: nat)
    | Restarted(attempt: nat)

  /** Where `supervise` and its `relaunch` wait. */
  datatype Supervisor =
    | Watching(runner: nat, startedAt: Time, attempt: nat)
    | Waiting(attempt: nat, until: Time)
    | Relaunching(attempt: nat, runner: nat)
    | StoppingLate(runner: nat)
    | Over

  datatype Run = Run(stopped: bool, runner: Option<nat>, supervisor: Supervisor, notes: seq<Note>)

  datatype Starting = Queued | Starting(runner: nat) | Undoing

  datatype Stopping = AfterStart | AfterOnce | AfterRunner(runner: Option<nat>) | AfterCompletion | Releasing

  /** `runners` and `runs` hold every runner and every run ever started. `listeners` counts
      the installed signal listeners, `removable` says that `removeSignals` is set. */
  datatype State = State(
    clock: Time,
    runners: seq<Runner>,
    runs: seq<Run>,
    run: Option<nat>,
    starting: Option<Starting>,
    stopping: Option<Stopping>,
    once: bool,
    completion: Option<nat>,
    removable: bool,
    listeners: int,
    releases: nat)

  const IDLE := State(0, [], [], None, None, None, false, None, false, 0, 0)

  datatype Event =
    | Tick(ms: nat)
    | Start
    | OpenRunner
    | Opened
    | OpenFailed
    | Undone
    | Stop
    | StopResumes
    | RunOnce
    | OnceSettles
    | RunnerEnds(runner: nat, failed: bool)
    | SuperviseResumes(r: nat)
    | WaitEnds(r: nat)
    | Relaunched(r: nat)
    | RelaunchFailed(r: nat)
    | LateRunnerEnded(r: nat)

  /** The options of one lifecycle. */
  datatype Options = Options(signals: bool, restart: Option<Policy>)

  predicate Settled(s: State, runner: nat) { runner < |s.runners| ==> s.runners[runner].Ended? }

  function CleanSignals(s: State): State {
    s.(removable := false, listeners := if s.removable then s.listeners - 1 else s.listeners)
  }

  function SetRun(s: State, r: nat, run: Run): State
    requires r < |s.runs|
  {
    s.(runs := s.runs[r := run])
  }

  function SetRunner(s: State, i: nat, runner: Runner): State {
    if i < |s.runners| then s.(runners := s.runners[i := runner]) else s
  }

  function StopOnce(s: State): State { if s.once then s.(stopping := Some(AfterOnce)) else StopRun(s) }

  function StopRun(s: State): State {
    var clean := CleanSignals(s);
    if s.run.Some? && s.run.value < |s.runs| then
      var r := s.run.value;
      SetRun(clean, r, s.runs[r].(stopped := true)).(stopping := Some(AfterRunner(s.runs[r].runner)))
    else clean.(stopping := Some(Releasing))
  }

  function StopResumed(s: State): State {
    match s.stopping
    case None => s
    case Some(AfterStart) => if s.starting.None? then StopOnce(s) else s
    case Some(AfterOnce) => if s.once then s else StopRun(s)
    case Some(AfterRunner(runner)) =>
      if runner.None? || Settled(s, runner.value) then s.(stopping := Some(AfterCompletion)) else s
    case Some(AfterCompletion) =>
      if s.completion.None? || (s.completion.value < |s.runs| ==> s.runs[s.completion.value].supervisor.Over?)
      then s.(run := None, stopping := Some(Releasing)) else s
    case Some(Releasing) => CleanSignals(s).(stopping := None, releases := s.releases + 1)
  }

  /** The runner failed and the run goes on: report it and wait. */
  function Relaunch(s: State, r: nat, p: Policy, attempt: nat, note: Note): State
    requires r < |s.runs| && 1 <= attempt
  {
    SetRun(s, r, s.runs[r].(runner := None, supervisor := Waiting(attempt, s.clock + Delay(p, attempt)),
                            notes := s.runs[r].notes + [note]))
  }

  function SuperviseResumed(s: State, r: nat, o: Options): State
    requires r < |s.runs| && s.runs[r].supervisor.Watching? && s.runs[r].supervisor.runner < |s.runners|
    requires s.runners[s.runs[r].supervisor.runner].Ended?
  {
    var run := s.runs[r];
    var watched := run.supervisor;
    if !s.runners[watched.runner].failed || run.stopped || o.restart.None? then
      var over := SetRun(s, r, run.(supervisor := Over));
      if run.stopped then over else CleanSignals(over).(run := None)
    else
      var lived := s.clock - watched.startedAt;
      var attempt := (if lived >= o.restart.value.maxDelay then 0 else watched.attempt) + 1;
      Relaunch(s, r, o.restart.value, attempt, Stopped(attempt, Delay(o.restart.value, attempt), lived))
  }

  function RelaunchedRun(s: State, r: nat): State
    requires r < |s.runs| && s.runs[r].supervisor.Relaunching?
  {
    var run := s.runs[r];
    var i := run.supervisor.runner;
    var live := SetRunner(s, i, Live);
    if run.stopped then SetRun(live, r, run.(supervisor := StoppingLate(i))) else
    SetRun(live, r, run.(runner := Some(i), supervisor := Watching(i, s.clock, run.supervisor.attempt),
                         notes := run.notes + [Restarted(run.supervisor.attempt)]))
  }

  function Next(s: State, e: Event, o: Options): State {
    match e
    case Tick(ms) => s.(clock := s.clock + ms)
    case Start =>
      if s.stopping.Some? || s.once || s.starting.Some? || s.run.Some? then s else s.(starting := Some(Queued))
    case OpenRunner =>
      if s.starting != Some(Queued) then s else
      s.(starting := Some(Starting.Starting(|s.runners|)), runners := s.runners + [Opening],
         removable := s.removable || o.signals, listeners := if o.signals then s.listeners + 1 else s.listeners)
    case Opened =>
      if s.starting.None? || !s.starting.value.Starting? then s else
      var i := s.starting.value.runner;
      SetRunner(s, i, Live).(runs := s.runs + [Run(false, Some(i), Watching(i, s.clock, 0), [])],
                             run := Some(|s.runs|), completion := Some(|s.runs|), starting := None)
    case OpenFailed =>
      if s.starting.None? || !s.starting.value.Starting? then s else
      CleanSignals(SetRunner(s, s.starting.value.runner, Ended(true))).(starting := Some(Undoing))
    case Undone => if s.starting == Some(Undoing) then s.(starting := None, releases := s.releases + 1) else s
    case Stop =>
      if s.stopping.Some? then s else if s.starting.Some? then s.(stopping := Some(AfterStart)) else StopOnce(s)
    case StopResumes => StopResumed(s)
    case RunOnce =>
      if s.starting.Some? || s.stopping.Some? || s.run.Some? || s.once then s else s.(once := true)
    case OnceSettles => s.(once := false)
    case RunnerEnds(i, failed) => if i < |s.runners| && s.runners[i].Live? then SetRunner(s, i, Ended(failed)) else s
    case SuperviseResumes(r) =>
      if r < |s.runs| && s.runs[r].supervisor.Watching? && s.runs[r].supervisor.runner < |s.runners|
         && s.runners[s.runs[r].supervisor.runner].Ended?
      then SuperviseResumed(s, r, o) else s
    case WaitEnds(r) =>
      if r < |s.runs| && s.runs[r].supervisor.Waiting?
         && (s.runs[r].stopped || s.runs[r].supervisor.until <= s.clock) then
        if s.runs[r].stopped then SetRun(s, r, s.runs[r].(supervisor := Over)) else
        SetRun(s, r, s.runs[r].(supervisor := Relaunching(s.runs[r].supervisor.attempt, |s.runners|)))
        .(runners := s.runners + [Opening])
      else s
    case Relaunched(r) => if r < |s.runs| && s.runs[r].supervisor.Relaunching? then RelaunchedRun(s, r) else s
    case RelaunchFailed(r) =>
      if r < |s.runs| && s.runs[r].supervisor.Relaunching? && o.restart.Some? then
        var ended := SetRunner(s, s.runs[r].supervisor.runner, Ended(true));
        if s.runs[r].stopped then SetRun(ended, r, s.runs[r].(supervisor := Over)) else
        var attempt := s.runs[r].supervisor.attempt + 1;
        Relaunch(ended, r, o.restart.value, attempt, RestartFailed(attempt, Delay(o.restart.value, attempt)))
      else s
    case LateRunnerEnded(r) =>
      if r < |s.runs| && s.runs[r].supervisor.StoppingLate? && Settled(s, s.runs[r].supervisor.runner)
      then SetRun(s, r, s.runs[r].(supervisor := Over)) else s
  }

  function After(events: seq<Event>, o: Options): State {
    if events == [] then IDLE else Next(After(events[..|events| - 1], o), events[|events| - 1], o)
  }

  // Invariant -----------------------------------------------------------------------------

  ghost predicate Holds(supervisor: Supervisor, i: nat) {
    match supervisor
    case Watching(k, _, _) => k == i
    case Relaunching(_, k) => k == i
    case StoppingLate(k) => k == i
    case _ => false
  }

  ghost predicate Held(s: State, i: nat) {
    s.starting == Some(Starting.Starting(i))
    || (s.run.Some? && s.run.value < |s.runs| && Holds(s.runs[s.run.value].supervisor, i))
  }

  /** Only the newest run can be going on, and what `stop()` waits for excludes the rest. */
  ghost predicate PhasesOk(s: State) {
    && (s.run.Some? ==> s.run.value + 1 == |s.runs|)
    && s.completion == (if s.runs == [] then None else Some(|s.runs| - 1))
    && (s.run.Some? ==>
          && (s.runs[s.run.value].supervisor.Over? ==> s.runs[s.run.value].stopped)
          && (s.runs[s.run.value].stopped ==>
                s.stopping.Some? && (s.stopping.value.AfterRunner? || s.stopping.value.AfterCompletion?)))
    && (s.starting.Some? ==> s.run.None? && !s.once)
    && (s.once ==> s.run.None?)
    && (match s.stopping
        case None => true
        case Some(AfterStart) => !s.once
        case Some(AfterOnce) => s.starting.None? && s.run.None?
        case Some(Releasing) => s.starting.None? && s.run.None? && !s.once
        case Some(_) => s.starting.None? && !s.once && s.run.Some? && s.runs[s.run.value].stopped)
  }

  ghost predicate OldRunsOver(s: State) { forall r: nat :: r < |s.runs| && s.run != Some(r) ==> s.runs[r].supervisor.Over? }

  ghost predicate SupervisorOk(s: State, run: Run, o: Options) {
    match run.supervisor
    case Watching(i, _, _) => i < |s.runners| && !s.runners[i].Opening? && run.runner == Some(i)
    case Waiting(_, _) => run.runner.None? && o.restart.Some?
    case Relaunching(_, i) => i < |s.runners| && s.runners[i].Opening? && o.restart.Some?
    case StoppingLate(i) => i < |s.runners| && !s.runners[i].Opening? && run.stopped
    case Over => true
  }

  ghost predicate RunnersOk(s: State, o: Options) {
    && (forall i: nat :: i < |s.runners| && !s.runners[i].Ended? ==> Held(s, i))
    && (s.starting.Some? && s.starting.value.Starting? ==>
          s.starting.value.runner < |s.runners| && s.runners[s.starting.value.runner].Opening?)
    && (s.run.Some? && s.run.value < |s.runs| ==> SupervisorOk(s, s.runs[s.run.value], o))
  }

  ghost predicate ListenersOk(s: State) {
    && s.listeners == (if s.removable then 1 else 0)
    && (s.removable ==> (s.starting.Some? && s.starting.value.Starting?)
                        || (s.run.Some? && s.run.value < |s.runs| && !s.runs[s.run.value].stopped))
  }

  /** Each note continues the ones before it: Stopped RestartFailed* Restarted, and again. A
      streak restarts at one only for a runner that lived as long as the longest wait. */
  predicate NoteOk(p: Policy, notes: seq<Note>, i: nat)
    requires i < |notes|
  {
    match notes[i]
    case Stopped(attempt, delay, lived) =>
      && (i > 0 ==> notes[i - 1].Restarted?)
      && attempt == (if i == 0 || lived >= p.maxDelay then 1 else notes[i - 1].attempt + 1)
      && delay == Delay(p, attempt)
    case RestartFailed(attempt, delay) =>
      i > 0 && !notes[i - 1].Restarted? && attempt == notes[i - 1].attempt + 1 && delay == Delay(p, attempt)
    case Restarted(attempt) => i > 0 && !notes[i - 1].Restarted? && attempt == notes[i - 1].attempt
  }

  predicate NotesOk(notes: seq<Note>, o: Options) {
    (notes != [] ==> o.restart.Some?)
    && forall i :: 0 <= i < |notes| && o.restart.Some? ==> NoteOk(o.restart.value, notes, i)
  }

  /** What the supervisor remembers is what it last reported. */
  predicate Remembers(run: Run) {
    match run.supervisor
    case Watching(_, _, attempt) =>
      if run.notes == [] then attempt == 0 else Last(run.notes) == Restarted(attempt)
    case Waiting(attempt, _) => run.notes != [] && !Last(run.notes).Restarted? && Last(run.notes).attempt == attempt
    case Relaunching(attempt, _) => run.notes != [] && !Last(run.notes).Restarted? && Last(run.notes).attempt == attempt
    case _ => true
  }

  function Last(notes: seq<Note>): Note
    requires notes != []
  {
    notes[|notes| - 1]
  }

  ghost predicate StoryOk(s: State, o: Options) {
    forall r :: 0 <= r < |s.runs| ==> NotesOk(s.runs[r].notes, o) && Remembers(s.runs[r])
  }

  ghost predicate Inv(s: State, o: Options) {
    PhasesOk(s) && OldRunsOver(s) && RunnersOk(s, o) && ListenersOk(s) && StoryOk(s, o)
  }

  predicate Starts(e: Event) { e.Start? || e.OpenRunner? || e.Opened? || e.OpenFailed? || e.Undone? }

  predicate Stops(e: Event) { e.Stop? || e.StopResumes? }

  predicate Supervises(e: Event) {
    e.SuperviseResumes? || e.WaitEnds? || e.Relaunched? || e.RelaunchFailed? || e.LateRunnerEnded?
  }

  lemma StartsKeepInv(s: State, e: Event, o: Options)
    requires Inv(s, o) && Starts(e)
    ensures Inv(Next(s, e, o), o)
  {
  }

  /** Marking the run stopped is safe whenever nothing is starting and no operation runs. */
  lemma StopRunKeepsInv(s: State, o: Options)
    requires Inv(s, o) && s.starting.None? && !s.once
    requires s.stopping.None? || s.stopping.value.AfterStart? || s.stopping.value.AfterOnce?
    ensures Inv(StopRun(s), o)
  {
  }

  lemma {:induction false} StopsKeepInv(s: State, e: Event, o: Options)
    requires Inv(s, o) && Stops(e)
    ensures Inv(Next(s, e, o), o)
  {
    if Next(s, e, o) == StopRun(s) && s.starting.None? && !s.once
       && (s.stopping.None? || s.stopping.value.AfterStart? || s.stopping.value.AfterOnce?) {
      StopRunKeepsInv(s, o);
    }
  }

  lemma OthersKeepInv(s: State, e: Event, o: Options)
    requires Inv(s, o) && !Starts(e) && !Stops(e) && !Supervises(e)
    ensures Inv(Next(s, e, o), o)
  {
  }

  lemma {:induction false} OneMoreNote(notes: seq<Note>, note: Note, o: Options)
    requires NotesOk(notes, o) && o.restart.Some? && NoteOk(o.restart.value, notes + [note], |notes|)
    ensures NotesOk(notes + [note], o)
  {
    forall i | 0 <= i < |notes| ensures NoteOk(o.restart.value, notes + [note], i) {
      assert NoteOk(o.restart.value, notes, i);
    }
  }

  /** Only the run that goes on is resumed, so what a segment must keep concerns it alone. */
  lemma RunKeepsInv(s: State, t: State, o: Options)
    requires Inv(s, o) && s.run.Some? && |t.runs| == |s.runs|
    requires t.runs == s.runs[s.run.value := t.runs[s.run.value]]
    requires t.completion == s.completion && t.starting == s.starting && t.stopping == s.stopping && t.once == s.once
    requires t.run == s.run || (t.run.None? && t.runs[s.run.value].supervisor.Over? && !s.runs[s.run.value].stopped)
    requires t.runs[s.run.value].stopped == s.runs[s.run.value].stopped
    requires t.run == s.run && t.runs[s.run.value].supervisor.Over? ==> t.runs[s.run.value].stopped
    requires t.run.Some? ==> SupervisorOk(t, t.runs[t.run.value], o)
    requires forall i: nat :: i < |t.runners| && !t.runners[i].Ended? ==>
               t.run.Some? && Holds(t.runs[t.run.value].supervisor, i)
    requires if t.run.Some? then t.listeners == s.listeners && t.removable == s.removable else t.listeners == 0 && !t.removable
    requires NotesOk(t.runs[s.run.value].notes, o) && Remembers(t.runs[s.run.value])
    ensures Inv(t, o)
  {
  }

  /** The run that an event on supervisor `r` can change is the one going on. */
  lemma OnlyTheCurrentRunMoves(s: State, r: nat, o: Options)
    requires Inv(s, o) && r < |s.runs| && !s.runs[r].supervisor.Over?
    ensures s.run == Some(r) && SupervisorOk(s, s.runs[r], o) && s.starting.None?
    ensures forall i: nat :: i < |s.runners| && !s.runners[i].Ended? ==> Holds(s.runs[r].supervisor, i)
  {
  }

  lemma SuperviseResumesKeepsInv(s: State, r: nat, o: Options)
    requires Inv(s, o)
    ensures Inv(Next(s, SuperviseResumes(r), o), o)
  {
    var t := Next(s, SuperviseResumes(r), o);
    if t != s {
      OnlyTheCurrentRunMoves(s, r, o);
      if t.runs[r].notes != s.runs[r].notes { OneMoreNote(s.runs[r].notes, Last(t.runs[r].notes), o); }
      RunKeepsInv(s, t, o);
    }
  }

  lemma WaitEndsKeepsInv(s: State, r: nat, o: Options)
    requires Inv(s, o)
    ensures Inv(Next(s, WaitEnds(r), o), o)
  {
    var t := Next(s, WaitEnds(r), o);
    if t != s {
      OnlyTheCurrentRunMoves(s, r, o);
      RunKeepsInv(s, t, o);
    }
  }

  lemma RelaunchedKeepsInv(s: State, r: nat, o: Options)
    requires Inv(s, o)
    ensures Inv(Next(s, Relaunched(r), o), o)
  {
    var t := Next(s, Relaunched(r), o);
    if t != s {
      OnlyTheCurrentRunMoves(s, r, o);
      if t.runs[r].notes != s.runs[r].notes { OneMoreNote(s.runs[r].notes, Last(t.runs[r].notes), o); }
      RunKeepsInv(s, t, o);
    }
  }

  lemma RelaunchFailedKeepsInv(s: State, r: nat, o: Options)
    requires Inv(s, o)
    ensures Inv(Next(s, RelaunchFailed(r), o), o)
  {
    var t := Next(s, RelaunchFailed(r), o);
    if t != s {
      OnlyTheCurrentRunMoves(s, r, o);
      if t.runs[r].notes != s.runs[r].notes { OneMoreNote(s.runs[r].notes, Last(t.runs[r].notes), o); }
      RunKeepsInv(s, t, o);
    }
  }

  lemma LateRunnerEndedKeepsInv(s: State, r: nat, o: Options)
    requires Inv(s, o)
    ensures Inv(Next(s, LateRunnerEnded(r), o), o)
  {
    var t := Next(s, LateRunnerEnded(r), o);
    if t != s {
      OnlyTheCurrentRunMoves(s, r, o);
      RunKeepsInv(s, t, o);
    }
  }

  lemma NextKeepsInv(s: State, e: Event, o: Options)
    requires Inv(s, o)
    ensures Inv(Next(s, e, o), o)
  {
    match e
    case SuperviseResumes(r) => SuperviseResumesKeepsInv(s, r, o);
    case WaitEnds(r) => WaitEndsKeepsInv(s, r, o);
    case Relaunched(r) => RelaunchedKeepsInv(s, r, o);
    case RelaunchFailed(r) => RelaunchFailedKeepsInv(s, r, o);
    case LateRunnerEnded(r) => LateRunnerEndedKeepsInv(s, r, o);
    case _ =>
      if Starts(e) {
        StartsKeepInv(s, e, o);
      } else if Stops(e) {
        StopsKeepInv(s, e, o);
      } else {
        OthersKeepInv(s, e, o);
      }
  }

  lemma {:induction false} Reachable(events: seq<Event>, o: Options)
    ensures Inv(After(events, o), o)
  {
    if events != [] {
      Reachable(events[..|events| - 1], o);
      NextKeepsInv(After(events[..|events| - 1], o), events[|events| - 1], o);
    }
  }

  // Theorems ------------------------------------------------------------------------------

  /** A starting runner, a live one, or a `runOnce` operation. */
  datatype Unit = RunnerUnit(i: nat) | OnceUnit

  ghost predicate IsLive(s: State, unit: Unit) {
    match unit
    case RunnerUnit(i) => i < |s.runners| && !s.runners[i].Ended?
    case OnceUnit => s.once
  }

  /** However calls and settlements interleave, at most one unit works at a time. */
  lemma {:induction false} AtMostOneUnit(events: seq<Event>, o: Options, a: Unit, b: Unit)
    requires IsLive(After(events, o), a) && IsLive(After(events, o), b)
    ensures a == b
  {
    Reachable(events, o);
  }

  /** `release()` starts, runs and settles only while no unit works: `stop()` resolves after
      every runner ever started, a late restart included, has ended. */
  lemma {:induction false} NothingLivesThroughRelease(events: seq<Event>, o: Options, unit: Unit)
    requires var s := After(events, o); s.stopping == Some(Releasing) || s.starting == Some(Undoing)
    ensures !IsLive(After(events, o), unit)
  {
    Reachable(events, o);
  }

  /** `stop()` ends only by settling its release; then no run, runner, operation or signal
      listener is left and a later start finds the lifecycle idle. */
  lemma {:induction false} StopLeavesNothing(events: seq<Event>, e: Event, o: Options)
    requires After(events, o).stopping.Some? && Next(After(events, o), e, o).stopping.None?
    ensures var s, t := After(events, o), Next(After(events, o), e, o);
            && s.stopping == Some(Releasing) && t.releases == s.releases + 1
            && t.run.None? && t.starting.None? && !t.once && t.listeners == 0
            && (forall i :: 0 <= i < |t.runners| ==> t.runners[i].Ended?)
            && (forall r :: 0 <= r < |t.runs| ==> t.runs[r].supervisor.Over?)
  {
    Reachable(events, o);
    ReleasedLeavesNothing(After(events, o), e, o);
  }

  lemma ReleasedLeavesNothing(s: State, e: Event, o: Options)
    requires Inv(s, o) && s.stopping.Some? && Next(s, e, o).stopping.None?
    ensures var t := Next(s, e, o);
            && s.stopping == Some(Releasing) && t == CleanSignals(s).(stopping := None, releases := s.releases + 1)
            && t.run.None? && t.starting.None? && !t.once && t.listeners == 0
    ensures forall i :: 0 <= i < |s.runners| ==> s.runners[i].Ended?
    ensures forall r :: 0 <= r < |s.runs| ==> s.runs[r].supervisor.Over?
  {
    assert e.StopResumes?;
  }

  /** Once stopped, a run opens no runner and no callback hears of it again. */
  lemma {:induction false} StoppedRunsStaySilent(events: seq<Event>, e: Event, o: Options, r: nat)
    requires r < |After(events, o).runs| && After(events, o).runs[r].stopped
    ensures var s, t := After(events, o), Next(After(events, o), e, o);
            && r < |t.runs| && t.runs[r].stopped && t.runs[r].notes == s.runs[r].notes
            && (s.run == Some(r) ==> |t.runners| == |s.runners|)
  {
    Reachable(events, o);
    StoppedRunStaysSilent(After(events, o), e, o, r);
  }

  lemma StoppedRunStaysSilent(s: State, e: Event, o: Options, r: nat)
    requires Inv(s, o) && r < |s.runs| && s.runs[r].stopped
    ensures r < |Next(s, e, o).runs|
    ensures Next(s, e, o).runs[r].stopped && Next(s, e, o).runs[r].notes == s.runs[r].notes
    ensures s.run == Some(r) ==> |Next(s, e, o).runners| == |s.runners|
  {
    if Supervises(e) {
      StoppedRunIsNotResumed(s, e, o, r);
    } else {
      assert s.run == Some(r) ==> s.starting.None?;
    }
  }

  lemma StoppedRunIsNotResumed(s: State, e: Event, o: Options, r: nat)
    requires Inv(s, o) && r < |s.runs| && s.runs[r].stopped && Supervises(e)
    ensures r < |Next(s, e, o).runs|
    ensures Next(s, e, o).runs[r].stopped && Next(s, e, o).runs[r].notes == s.runs[r].notes
    ensures s.run == Some(r) ==> |Next(s, e, o).runners| == |s.runners|
  {
    if e.r < |s.runs| && !s.runs[e.r].supervisor.Over? {
      OnlyTheCurrentRunMoves(s, e.r, o);
      if e.r == r { StoppedSupervisorEnds(s, e, o, r); }
    }
  }

  lemma StoppedSupervisorEnds(s: State, e: Event, o: Options, r: nat)
    requires r < |s.runs| && s.runs[r].stopped && Supervises(e) && e.r == r
    ensures r < |Next(s, e, o).runs| && |Next(s, e, o).runners| == |s.runners|
    ensures Next(s, e, o).runs[r].stopped && Next(s, e, o).runs[r].notes == s.runs[r].notes
  {
  }

  /** Signal listeners are installed at most once, and only while a start or a run goes on. */
  lemma {:induction false} ListenersNeverLeak(events: seq<Event>, o: Options)
    ensures var s := After(events, o);
            0 <= s.listeners <= 1 && (s.listeners == 1 ==> s.starting.Some? || s.run.Some?)
  {
    Reachable(events, o);
  }

  /** Callbacks follow (Stopped RestartFailed* Restarted)*, each delay is the policy's for its
      attempt, and a streak starts over only after a runner lived the longest wait. */
  lemma {:induction false} CallbacksFollowThePolicy(events: seq<Event>, o: Options, r: nat, i: nat)
    requires r < |After(events, o).runs| && i < |After(events, o).runs[r].notes|
    ensures o.restart.Some? && NoteOk(o.restart.value, After(events, o).runs[r].notes, i)
  {
    Reachable(events, o);
  }

  /** Until a runner lives the longest wait, waits never get shorter, whatever starts in between. */
  lemma {:induction false} StreaksNeverSpeedUp(notes: seq<Note>, p: Policy, i: nat, j: nat)
    requires p.delay <= p.maxDelay && i <= j < |notes|
    requires forall k :: 0 <= k < |notes| ==> NoteOk(p, notes, k)
    requires forall k :: i < k <= j && notes[k].Stopped? ==> notes[k].lived < p.maxDelay
    ensures 1 <= notes[i].attempt <= notes[j].attempt
    ensures !notes[i].Restarted? && !notes[j].Restarted? ==>
              p.delay <= notes[i].delay <= notes[j].delay <= p.maxDelay
    decreases j
  {
    if i < j {
      StreaksNeverSpeedUp(notes, p, i, j - 1);
    } else if i > 0 {
      AttemptsArePositive(notes, p, i);
    }
    assert NoteOk(p, notes, i) && NoteOk(p, notes, j);
    if !notes[i].Restarted? && !notes[j].Restarted? {
      DelaysGrowWithinLimits(p, notes[i].attempt, notes[j].attempt);
    }
  }

  lemma {:induction false} AttemptsArePositive(notes: seq<Note>, p: Policy, i: nat)
    requires i < |notes| && forall k :: 0 <= k < |notes| ==> NoteOk(p, notes, k)
    ensures 1 <= notes[i].attempt
  {
    assert NoteOk(p, notes, i);
    if i > 0 { AttemptsArePositive(notes, p, i - 1); }
  }

  // What happens next -------------------------------------------------------------------------------

  /** The supervisor's runner has ended, and it goes on. */
  predicate Resumes(s: State, r: nat) {
    && r < |s.runs| && s.runs[r].supervisor.Watching? && s.runs[r].supervisor.runner < |s.runners|
    && s.runners[s.runs[r].supervisor.runner].Ended?
  }

  /** A runner is restarted exactly after a failure, unless `stop()` came first or restarts are off:
      the callback hears of it and the supervisor waits the delay it reported, from now on.
      Otherwise the run is over, and one that nobody stopped leaves no trace. */
  lemma {:induction false} FailuresRestart(events: seq<Event>, o: Options, r: nat)
    requires Resumes(After(events, o), r)
    ensures var s, t := After(events, o), Next(After(events, o), SuperviseResumes(r), o);
            && var run := s.runs[r];
            var failed := s.runners[run.supervisor.runner].failed;
            && r < |t.runs| && t.runners == s.runners
            && (t.runs[r].supervisor.Waiting? <==> failed && !run.stopped && o.restart.Some?)
            && (t.runs[r].supervisor.Waiting? ==>
                  && |t.runs[r].notes| == |run.notes| + 1 && t.runs[r].notes[..|run.notes|] == run.notes
                  && Last(t.runs[r].notes).Stopped? && Last(t.runs[r].notes).lived == s.clock - run.supervisor.startedAt
                  && t.runs[r].supervisor.attempt == Last(t.runs[r].notes).attempt
                  && t.runs[r].supervisor.until == t.clock + Last(t.runs[r].notes).delay
                  && t.run == s.run)
            && (!t.runs[r].supervisor.Waiting? ==>
                  && t.runs[r].supervisor.Over? && t.runs[r].notes == run.notes
                  && if run.stopped then t.run == s.run else t.run.None? && t.listeners == 0)
  {
    Reachable(events, o);
    OnlyTheCurrentRunMoves(After(events, o), r, o);
  }

  /** A live runner that crashes is waited for, and one that ends cleanly ends its run. */
  lemma {:induction false} CrashesRestart(events: seq<Event>, o: Options, r: nat, failed: bool)
    requires var s := After(events, o);
             && r < |s.runs| && s.runs[r].supervisor.Watching? && s.runs[r].supervisor.runner < |s.runners|
             && s.runners[s.runs[r].supervisor.runner].Live?
    ensures var s := After(events, o);
            var t := Next(Next(s, RunnerEnds(s.runs[r].supervisor.runner, failed), o), SuperviseResumes(r), o);
            && r < |t.runs| && t.runners[s.runs[r].supervisor.runner].Ended?
            && if failed && !s.runs[r].stopped && o.restart.Some? then t.runs[r].supervisor.Waiting?
               else t.runs[r].supervisor.Over?
  {
  }

  /** A start that fails ends its runner, removes its listeners and releases. */
  lemma {:induction false} FailedStartsRelease(events: seq<Event>, o: Options)
    requires var s := After(events, o); s.starting.Some? && s.starting.value.Starting?
    ensures var s := After(events, o);
            var t := Next(Next(s, OpenFailed, o), Undone, o);
            && t.starting.None? && t.run.None? && t.releases == s.releases + 1 && t.listeners == 0
            && s.starting.value.runner < |t.runners| && t.runners[s.starting.value.runner].Ended?
  {
    Reachable(events, o);
  }

  /** A restart that fails is reported and waited for like the failure before it, one attempt
      further. */
  lemma {:induction false} FailedRestartsWait(events: seq<Event>, o: Options, r: nat)
    requires var s := After(events, o); r < |s.runs| && s.runs[r].supervisor.Relaunching?
    ensures var s, t := After(events, o), Next(After(events, o), RelaunchFailed(r), o);
            && var run := s.runs[r];
            && r < |t.runs| && (t.runs[r].supervisor.Waiting? <==> !run.stopped)
            && (run.stopped ==> t.runs[r].supervisor.Over? && t.runs[r].notes == run.notes)
            && (t.runs[r].supervisor.Waiting? ==>
                  && |t.runs[r].notes| == |run.notes| + 1 && t.runs[r].notes[..|run.notes|] == run.notes
                  && Last(t.runs[r].notes).RestartFailed?
                  && t.runs[r].supervisor.attempt == Last(t.runs[r].notes).attempt == run.supervisor.attempt + 1
                  && t.runs[r].supervisor.until == t.clock + Last(t.runs[r].notes).delay)
  {
    Reachable(events, o);
    OnlyTheCurrentRunMoves(After(events, o), r, o);
  }

  /** A restart that succeeds is supervised from now on, or stopped if `stop()` came meanwhile. */
  lemma {:induction false} RestartsAreSupervised(events: seq<Event>, o: Options, r: nat)
    requires var s := After(events, o); r < |s.runs| && s.runs[r].supervisor.Relaunching?
    ensures var s, t := After(events, o), Next(After(events, o), Relaunched(r), o);
            && var run, i := s.runs[r], s.runs[r].supervisor.runner;
            && r < |t.runs| && i < |t.runners| && t.runners[i].Live?
            && (run.stopped ==> t.runs[r].supervisor == StoppingLate(i) && t.runs[r].notes == run.notes)
            && (!run.stopped ==>
                  && t.runs[r].supervisor == Watching(i, s.clock, run.supervisor.attempt) && t.runs[r].runner == Some(i)
                  && t.runs[r].notes == run.notes + [Restarted(run.supervisor.attempt)])
  {
    Reachable(events, o);
    OnlyTheCurrentRunMoves(After(events, o), r, o);
  }

  /** A waiting supervisor waits on until its time has come or its run is stopped ... */
  lemma {:induction false} WaitsAreWaitedOut(events: seq<Event>, e: Event, o: Options, r: nat)
    requires var s := After(events, o); r < |s.runs| && s.runs[r].supervisor.Waiting?
    ensures var s, t := After(events, o), Next(After(events, o), e, o);
            && r < |t.runs|
            && (t.runs[r].supervisor != s.runs[r].supervisor ==>
                  e == WaitEnds(r) && (s.runs[r].stopped || s.runs[r].supervisor.until <= s.clock))
  {
    Reachable(events, o);
    WaitIsWaitedOut(After(events, o), e, o, r);
  }

  lemma WaitIsWaitedOut(s: State, e: Event, o: Options, r: nat)
    requires Inv(s, o) && r < |s.runs| && s.runs[r].supervisor.Waiting?
    ensures var t := Next(s, e, o);
            && r < |t.runs|
            && (t.runs[r].supervisor != s.runs[r].supervisor ==>
                  e == WaitEnds(r) && (s.runs[r].stopped || s.runs[r].supervisor.until <= s.clock))
  {
    OnlyTheCurrentRunMoves(s, r, o);
  }

  /** ... and then opens exactly one runner, or none if its run was stopped. */
  lemma {:induction false} WaitsEndInRestarts(events: seq<Event>, o: Options, r: nat)
    requires var s := After(events, o);
             && r < |s.runs| && s.runs[r].supervisor.Waiting?
             && (s.runs[r].stopped || s.runs[r].supervisor.until <= s.clock)
    ensures var s, t := After(events, o), Next(After(events, o), WaitEnds(r), o);
            && r < |t.runs| && t.runs[r].notes == s.runs[r].notes
            && if s.runs[r].stopped then t.runs[r].supervisor.Over? && t.runners == s.runners
               else && t.runners == s.runners + [Opening]
                    && t.runs[r].supervisor == Relaunching(s.runs[r].supervisor.attempt, |s.runners|)
  {
  }

  /** `start()` on an idle lifecycle opens a runner that is then supervised as a new run. */
  lemma {:induction false} StartsRun(events: seq<Event>, o: Options)
    requires var s := After(events, o); s.stopping.None? && !s.once && s.starting.None? && s.run.None?
    ensures var s := After(events, o);
            var t := Next(Next(Next(s, Start, o), OpenRunner, o), Opened, o);
            && t.runners == s.runners + [Live] && |t.runs| == |s.runs| + 1 && t.run == Some(|s.runs|)
            && t.runs[|s.runs|] == Run(false, Some(|s.runners|), Watching(|s.runners|, s.clock, 0), [])
            && t.starting.None? && t.listeners == if o.signals then 1 else 0
  {
    Reachable(events, o);
    var s := After(events, o);
    var opening := Next(Next(s, Start, o), OpenRunner, o);
    assert opening.runners == s.runners + [Opening];
    assert SetRunner(opening, |s.runners|, Live).runners == s.runners + [Live];
  }

  /** What `start()` and `runOnce()` answer: they begin exactly on an idle lifecycle. */
  lemma {:induction false} OnlyIdleBegins(events: seq<Event>, o: Options)
    ensures var s := After(events, o);
            && (Next(s, Start, o).starting.Some? && s.starting.None? <==>
                  s.starting.None? && s.stopping.None? && !s.once && s.run.None?)
            && (Next(s, RunOnce, o).once && !s.once <==>
                  s.starting.None? && s.stopping.None? && !s.once && s.run.None?)
  {
  }

  /** A stop that finds a run marks it stopped, removes the listeners and stops the run's runner, if
      it has one; without a run it goes on to the release. */
  lemma {:induction false} StopsStopTheRun(events: seq<Event>, o: Options)
    requires var s := After(events, o); s.stopping.None? && s.starting.None? && !s.once
    ensures var s, t := After(events, o), Next(After(events, o), Stop, o);
            && t.listeners == 0
            && if s.run.None? then t.stopping == Some(Releasing)
               else && s.run.value < |t.runs| && t.runs[s.run.value].stopped && t.run == s.run
                    && t.stopping == Some(AfterRunner(s.runs[s.run.value].runner))
  {
    Reachable(events, o);
  }

  // Stop can end --------------------------------------------------------------------------------------

  function From(s: State, events: seq<Event>, o: Options): State
    decreases |events|
  {
    if events == [] then s else From(Next(s, events[0], o), events[1..], o)
  }

  /** How far the stages of `stop()` and what they wait for are from their end. */
  function Distance(s: State): nat {
    match s.stopping
    case None => 0
    case Some(Releasing) => 1
    case Some(AfterCompletion) => 2 + SupervisorDistance(s)
    case Some(AfterRunner(runner)) => if runner.None? || Settled(s, runner.value) then 6 else 7
    case Some(AfterOnce) => if s.once then 9 else 8
    case Some(AfterStart) => 10 + match s.starting
                                  case None => 0
                                  case Some(Undoing) => 1
                                  case Some(Starting(_)) => 2
                                  case Some(Queued) => 3
  }

  function SupervisorDistance(s: State): nat {
    if s.run.None? || |s.runs| <= s.run.value then 0 else
    match s.runs[s.run.value].supervisor
    case Over => 0
    case Watching(i, _, _) => if Settled(s, i) then 1 else 2
    case StoppingLate(i) => if Settled(s, i) then 1 else 2
    case _ => 1
  }

  lemma CompletionNears(s: State, o: Options) returns (e: Event)
    requires Inv(s, o) && s.stopping == Some(AfterCompletion)
    ensures Distance(Next(s, e, o)) < Distance(s) && !e.Start? && !e.Stop? && !e.RunOnce? && !e.Tick?
  {
    var r := s.run.value;
    match s.runs[r].supervisor
    case Over => e := StopResumes;
    case Watching(i, _, _) => e := if Settled(s, i) then SuperviseResumes(r) else RunnerEnds(i, false);
    case StoppingLate(i) => e := if Settled(s, i) then LateRunnerEnded(r) else RunnerEnds(i, false);
    case Waiting(_, _) => e := WaitEnds(r);
    case Relaunching(_, _) => e := RelaunchFailed(r);
  }

  lemma RunnerNears(s: State, o: Options) returns (e: Event)
    requires Inv(s, o) && s.stopping.Some? && s.stopping.value.AfterRunner?
    ensures Distance(Next(s, e, o)) < Distance(s) && !e.Start? && !e.Stop? && !e.RunOnce? && !e.Tick?
  {
    var runner := s.stopping.value.runner;
    if runner.None? || Settled(s, runner.value) {
      e := StopResumes;
    } else {
      e := if s.runners[runner.value].Live? then RunnerEnds(runner.value, false) else RelaunchFailed(s.run.value);
      assert Held(s, runner.value);
    }
  }

  lemma StopNears(s: State, o: Options) returns (e: Event)
    requires Inv(s, o) && s.stopping.Some?
    ensures Distance(Next(s, e, o)) < Distance(s) && !e.Start? && !e.Stop? && !e.RunOnce? && !e.Tick?
  {
    match s.stopping.value
    case AfterStart =>
      e := if s.starting.None? then StopResumes
           else match s.starting.value case Queued => OpenRunner case Starting(_) => OpenFailed case Undoing => Undone;
    case AfterOnce => e := if s.once then OnceSettles else StopResumes;
    case AfterRunner(_) => e := RunnerNears(s, o);
    case AfterCompletion => e := CompletionNears(s, o);
    case Releasing => e := StopResumes;
  }

  /** From every reachable state a stop in progress can end, whatever it waits for: its runner or
      operation has to settle, and no call of the user is needed. */
  lemma {:induction false} StopsCanEnd(events: seq<Event>, o: Options) returns (more: seq<Event>)
    requires After(events, o).stopping.Some?
    ensures From(After(events, o), more, o).stopping.None?
    ensures forall i :: 0 <= i < |more| ==> !more[i].Start? && !more[i].Stop? && !more[i].RunOnce? && !more[i].Tick?
  {
    Reachable(events, o);
    more := StopCanEnd(After(events, o), o);
  }

  lemma {:induction false} StopCanEnd(s: State, o: Options) returns (more: seq<Event>)
    requires Inv(s, o)
    ensures From(s, more, o).stopping.None?
    ensures forall i :: 0 <= i < |more| ==> !more[i].Start? && !more[i].Stop? && !more[i].RunOnce? && !more[i].Tick?
    decreases Distance(s)
  {
    more := [];
    if s.stopping.Some? {
      var e := StopNears(s, o);
      NextKeepsInv(s, e, o);
      var rest := StopCanEnd(Next(s, e, o), o);
      more := [e] + rest;
      assert more[1..] == rest;
    }
  }
}
