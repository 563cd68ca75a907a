/** The progress writer of src/progress.ts:43-119: a value kept in memory and persisted by one
    chain of throttled, coalescing writes. Each event is the code between two awaits.

    Callers await each call before the next, `close` included; values are already parsed. */
module Progress {
  import opened Wrappers

  type Time = int
  type Json = string

  const INTERVAL := 1000

  /** The call in progress; `ticket` counts the chained writes it waits for. */
  datatype Call =
    | Setting
    | Flushing(ticket: nat)
    | Closing(ticket: nat)
    | ClosingLast(ticket: nat, persist: bool)

  /** A write put on the chain, by `set` or its timer, or by `flush` or `close`. */
  datatype Queueing = Queueing(at: Time, bySet: bool)

  /** Version n is the n-th accepted value, version 0 the initial one. `chained` and `settled`
      count the chain's writes, `inFlight` is the version being written and `written` are the
      versions persisted so far; `stuck` says that a write failed and none was queued since. */
  datatype State = State(
    now: Time,
    accepted: seq<Json>,
    dirty: bool,
    queued: bool,
    closed: bool,
    lastWrite: Option<Time>,
    timer: Option<Time>,
    chained: nat,
    settled: nat,
    inFlight: Option<nat>,
    failure: bool,
    call: Option<Call>,
    written: seq<nat>,
    queueings: seq<Queueing>,
    stuck: bool)

  const NEW := State(0, [], false, false, false, None, None, 0, 0, None, false, None, [], [], false)

  datatype Event =
    | Tick(ms: nat)
    | SetBegins
    | SetLands(value: Json)
    | SetRejects
    | TimerFires
    | WriteBegins
    | WriteEnds(ok: bool)
    | FlushBegins
    | FlushEnds
    | CloseBegins(persist: bool)
    | CloseContinues
    | CloseEnds

  /** What `get()` returns. */
  function Get(s: State, initial: Option<Json>): Option<Json> { Version(s, |s.accepted|, initial) }

  function Version(s: State, n: nat, initial: Option<Json>): Option<Json>
    requires n <= |s.accepted|
  {
    if n == 0 then initial else Some(s.accepted[n - 1])
  }

  /** The version in the row. */
  function Stored(s: State): nat { if |s.written| == 0 then 0 else s.written[|s.written| - 1] }

  function QueueWrite(s: State, bySet: bool): State {
    var t := s.(timer := None);
    if !s.dirty || s.queued then t else
    t.(queued := true, lastWrite := Some(s.now), chained := s.chained + 1,
       queueings := s.queueings + [Queueing(s.now, bySet)], stuck := false)
  }

  function Land(s: State, value: Json): State {
    var t := s.(accepted := s.accepted + [value], dirty := true);
    if s.timer.Some? then t
    else if s.lastWrite.None? || s.lastWrite.value + INTERVAL <= s.now then QueueWrite(t, true)
    else t.(timer := Some(s.lastWrite.value + INTERVAL))
  }

  function Next(s: State, e: Event): State {
    match e
    case Tick(ms) => s.(now := s.now + ms)
    case SetBegins =>
      if s.call.Some? || s.closed then s
      else if s.failure then s.(failure := false)
      else s.(call := Some(Setting))
    case SetLands(value) =>
      if s.call != Some(Setting) then s else
      var t := s.(call := None);
      if s.closed then t else Land(t, value)
    case SetRejects => if s.call == Some(Setting) then s.(call := None) else s
    case TimerFires => if s.timer.Some? && s.timer.value <= s.now then QueueWrite(s, true) else s
    case WriteBegins =>
      if !s.queued || s.inFlight.Some? then s
      else if s.dirty then s.(queued := false, dirty := false, inFlight := Some(|s.accepted|))
      else s.(queued := false, settled := s.settled + 1)
    case WriteEnds(ok) =>
      if s.inFlight.None? then s else
      var t := s.(inFlight := None, settled := s.settled + 1);
      if ok then t.(written := s.written + [s.inFlight.value]) else t.(failure := true, dirty := true, stuck := true)
    case FlushBegins =>
      if s.call.Some? || s.closed then s else
      var t := QueueWrite(s, false);
      t.(call := Some(Flushing(t.chained)))
    case FlushEnds =>
      if s.call.Some? && s.call.value.Flushing? && s.call.value.ticket <= s.settled
      then s.(call := None, failure := false) else s
    case CloseBegins(persist) =>
      if s.call.Some? then s
      else if persist then
        var t := QueueWrite(s, false);
        t.(closed := true, call := Some(Closing(t.chained)))
      else s.(closed := true, timer := None, call := Some(ClosingLast(s.chained, false)))
    case CloseContinues =>
      if s.call.Some? && s.call.value.Closing? && s.call.value.ticket <= s.settled
      then s.(timer := None, call := Some(ClosingLast(s.chained, true))) else s
    case CloseEnds =>
      if s.call.Some? && s.call.value.ClosingLast? && s.call.value.ticket <= s.settled
      then s.(call := None, failure := false) else s
  }

  function After(events: seq<Event>): State {
    if events == [] then NEW else Next(After(events[..|events| - 1]), events[|events| - 1])
  }

  // Invariant -----------------------------------------------------------------------------

  /** The chain holds what is in flight and at most one write behind it. */
  predicate ChainOk(s: State) {
    s.chained == s.settled + (if s.inFlight.Some? then 1 else 0) + (if s.queued then 1 else 0)
  }

  predicate Rises(versions: seq<nat>, i: int)
    requires 0 < i < |versions|
  {
    versions[i - 1] < versions[i]
  }

  predicate VersionsOk(s: State) {
    && (forall i :: 0 < i < |s.written| ==> Rises(s.written, i))
    && (0 < |s.written| ==> 1 <= s.written[0]) && Stored(s) <= |s.accepted|
    && (s.inFlight.Some? ==> Stored(s) < s.inFlight.value <= |s.accepted|)
    && (if s.dirty then Stored(s) < |s.accepted| && (s.inFlight.Some? ==> s.inFlight.value < |s.accepted|)
        else |s.accepted| == s.inFlight.GetOr(Stored(s)))
  }

  predicate PendingOk(s: State) {
    && (s.dirty && !s.closed ==> s.timer.Some? || s.queued || s.stuck)
    && (s.call.Some? && !s.call.value.Setting? ==> s.timer.None?)
    && (s.call.Some? && s.call.value.Flushing? ==> s.call.value.ticket == s.chained && (s.dirty ==> s.queued || s.failure))
    && (s.call.Some? && (s.call.value.Closing? || s.call.value.ClosingLast?) ==> s.closed)
    && (s.call.Some? && s.call.value.Closing? ==> s.call.value.ticket == s.chained && (s.dirty ==> s.queued || s.failure))
    && (s.call.Some? && s.call.value.ClosingLast? ==>
          s.call.value.ticket == s.chained && (s.call.value.persist && s.dirty ==> s.queued || s.failure))
  }

  predicate Spaced(queueings: seq<Queueing>, i: int)
    requires 0 < i < |queueings|
  {
    queueings[i - 1].at + (if queueings[i].bySet then INTERVAL else 0) <= queueings[i].at
  }

  predicate SpacingOk(s: State) {
    && (if |s.queueings| == 0 then s.lastWrite.None? else s.lastWrite == Some(s.queueings[|s.queueings| - 1].at))
    && (s.lastWrite.Some? ==> s.lastWrite.value <= s.now)
    && (s.timer.Some? ==> s.lastWrite.Some? && s.timer.value == s.lastWrite.value + INTERVAL)
    && forall i :: 0 < i < |s.queueings| ==> Spaced(s.queueings, i)
  }

  predicate Inv(s: State) { ChainOk(s) && VersionsOk(s) && PendingOk(s) && SpacingOk(s) }

  /** All but what a call in progress relies on. */
  predicate CoreOk(s: State) { ChainOk(s) && VersionsOk(s) && SpacingOk(s) }

  lemma QueueWriteKeepsCore(s: State, bySet: bool)
    requires CoreOk(s) && (bySet && s.lastWrite.Some? ==> s.lastWrite.value + INTERVAL <= s.now)
    ensures CoreOk(QueueWrite(s, bySet))
  {
    var queueings := s.queueings + [Queueing(s.now, bySet)];
    forall i | 0 < i < |s.queueings| ensures Spaced(queueings, i) { assert Spaced(s.queueings, i); }
    assert 0 < |s.queueings| ==> Spaced(queueings, |s.queueings|);
  }

  lemma LandKeepsInv(s: State, value: Json)
    requires Inv(s) && s.call.None? && !s.closed
    ensures Inv(Land(s, value))
  {
    var t := s.(accepted := s.accepted + [value], dirty := true);
    assert CoreOk(t);
    if s.timer.None? && (s.lastWrite.None? || s.lastWrite.value + INTERVAL <= s.now) { QueueWriteKeepsCore(t, true); }
  }

  lemma SetLandsKeepsInv(s: State, value: Json)
    requires Inv(s)
    ensures Inv(Next(s, SetLands(value)))
  {
    if s.call == Some(Setting) && !s.closed { LandKeepsInv(s.(call := None), value); }
  }

  lemma TimerFiresKeepsInv(s: State)
    requires Inv(s)
    ensures Inv(Next(s, TimerFires))
  {
    if s.timer.Some? && s.timer.value <= s.now { QueueWriteKeepsCore(s, true); }
  }

  lemma OthersKeepInv(s: State, e: Event)
    requires Inv(s) && (e.Tick? || e.SetBegins? || e.SetRejects?)
    ensures Inv(Next(s, e))
  {
    var t := Next(s, e);
    assert t == s.(now := t.now, call := t.call, failure := t.failure) && s.now <= t.now;
    MarksKeepCore(s, t);
  }

  lemma MarksKeepCore(s: State, t: State)
    requires CoreOk(s) && t == s.(now := t.now, call := t.call, failure := t.failure) && s.now <= t.now
    ensures CoreOk(t)
  {
  }

  lemma VersionStored(s: State)
    requires VersionsOk(s) && s.inFlight.Some?
    ensures VersionsOk(s.(inFlight := None, settled := s.settled + 1, written := s.written + [s.inFlight.value]))
  {
    var written := s.written + [s.inFlight.value];
    forall i | 0 < i < |s.written| ensures Rises(written, i) { assert Rises(s.written, i); }
  }

  lemma WriteBeginsKeepsInv(s: State)
    requires Inv(s)
    ensures Inv(Next(s, WriteBegins))
  {
  }

  lemma WriteEndsKeepsInv(s: State, ok: bool)
    requires Inv(s)
    ensures Inv(Next(s, WriteEnds(ok)))
  {
    if s.inFlight.Some? && ok { VersionStored(s); }
  }

  lemma CallsKeepInv(s: State, e: Event)
    requires Inv(s) && (e.FlushEnds? || e.CloseContinues? || e.CloseEnds?)
    ensures Inv(Next(s, e))
  {
  }

  lemma FlushBeginsKeepsInv(s: State)
    requires Inv(s)
    ensures Inv(Next(s, FlushBegins))
  {
    QueueWriteKeepsCore(s, false);
  }

  lemma PersistingCloseKeepsInv(s: State)
    requires Inv(s) && s.call.None?
    ensures Inv(Next(s, CloseBegins(true)))
  {
    QueueWriteKeepsCore(s, false);
    var t := QueueWrite(s, false);
    assert CoreOk(t);
    CallingKeepsCore(t, Closing(t.chained));
  }

  lemma CallingKeepsCore(s: State, call: Call)
    requires CoreOk(s)
    ensures CoreOk(s.(closed := true, call := Some(call)))
  {
  }

  lemma DroppingCloseKeepsInv(s: State)
    requires Inv(s) && s.call.None?
    ensures Inv(Next(s, CloseBegins(false)))
  {
    assert CoreOk(Next(s, CloseBegins(false)));
  }

  lemma CloseBeginsKeepsInv(s: State, persist: bool)
    requires Inv(s)
    ensures Inv(Next(s, CloseBegins(persist)))
  {
    if s.call.None? {
      if persist { PersistingCloseKeepsInv(s); } else { DroppingCloseKeepsInv(s); }
    }
  }

  lemma NextKeepsInv(s: State, e: Event)
    requires Inv(s)
    ensures Inv(Next(s, e))
  {
    match e
    case WriteBegins => WriteBeginsKeepsInv(s);
    case WriteEnds(ok) => WriteEndsKeepsInv(s, ok);
    case FlushBegins => FlushBeginsKeepsInv(s);
    case CloseBegins(persist) => CloseBeginsKeepsInv(s, persist);
    case FlushEnds => CallsKeepInv(s, e);
    case CloseContinues => CallsKeepInv(s, e);
    case CloseEnds => CallsKeepInv(s, e);
    case SetLands(value) => SetLandsKeepsInv(s, value);
    case TimerFires => TimerFiresKeepsInv(s);
    case _ => OthersKeepInv(s, e);
  }

  lemma {:induction false} Reachable(events: seq<Event>)
    ensures Inv(After(events))
  {
    if events != [] {
      Reachable(events[..|events| - 1]);
      NextKeepsInv(After(events[..|events| - 1]), events[|events| - 1]);
    }
  }

  // Theorems ------------------------------------------------------------------------------

  /** Persisted values are accepted ones, each at most once and in the order of acceptance. */
  lemma {:induction false} WritesKeepOrder(events: seq<Event>, i: nat, j: nat)
    requires i < j < |After(events).written|
    ensures 1 <= After(events).written[i] < After(events).written[j] <= |After(events).accepted|
  {
    Reachable(events);
    WrittenRises(After(events), i, j);
  }

  lemma WrittenRises(s: State, i: nat, j: nat)
    requires VersionsOk(s) && i < j < |s.written|
    ensures 1 <= s.written[i] < s.written[j] <= |s.accepted|
  {
    if 0 < i { VersionsRise(s.written, 0, i); }
    VersionsRise(s.written, i, j);
    if j < |s.written| - 1 { VersionsRise(s.written, j, |s.written| - 1); }
  }

  lemma {:induction false} VersionsRise(versions: seq<nat>, i: nat, j: nat)
    requires i < j < |versions| && forall k :: 0 < k < |versions| ==> Rises(versions, k)
    ensures versions[i] < versions[j]
  {
    assert Rises(versions, j);
    if i < j - 1 { VersionsRise(versions, i, j - 1); }
  }

  /** A write takes the value of the moment it begins, one at a time: whatever waits behind it
      is at most one more write. */
  lemma {:induction false} OneWriteAtATime(events: seq<Event>)
    ensures var s := After(events);
            && s.chained - s.settled <= 2
            && (s.inFlight.Some? ==> Stored(s) < s.inFlight.value <= |s.accepted|)
            && (s.inFlight.Some? && !s.queued ==> s.chained == s.settled + 1)
  {
    Reachable(events);
  }

  /** `flush` or `close(true)` about to resolve: nothing failed, so the row holds `get()`. */
  predicate Resolves(s: State) {
    && s.call.Some? && !s.failure
    && match s.call.value
       case Flushing(ticket) => ticket <= s.settled
       case ClosingLast(ticket, persist) => persist && ticket <= s.settled
       case _ => false
  }

  lemma {:induction false} ResolvedMeansStored(events: seq<Event>, initial: Option<Json>)
    requires Resolves(After(events))
    ensures var s := After(events);
            && s.inFlight.None? && !s.queued && Stored(s) == |s.accepted|
            && Version(s, Stored(s), initial) == Get(s, initial)
  {
    Reachable(events);
  }

  /** Closed, with no timer and no write left. */
  predicate Quiet(s: State) { s.closed && s.timer.None? && s.settled == s.chained }

  /** `close(true)` on a value that no write has stored, for example after `close(false)`. */
  predicate Revives(s: State, e: Event) { e == CloseBegins(true) && s.call.None? && s.dirty }

  /** A closed writer without timer and write accepts and writes nothing at any event, and stays
      so, unless that event closes it once more to persist an unstored value; this queues one
      write. */
  lemma {:induction false} ClosedStaysQuiet(events: seq<Event>, e: Event)
    requires Quiet(After(events))
    ensures var s, t := After(events), Next(After(events), e);
            && t.accepted == s.accepted && t.written == s.written && t.closed && t.timer.None?
            && (Quiet(t) <==> !Revives(s, e))
            && (Revives(s, e) ==> t.queued && t.chained == s.chained + 1)
            && (s.call.None? && !e.CloseBegins? ==> t.call.None?)
  {
    Reachable(events);
    QuietGoesOn(After(events), e);
  }

  lemma QuietGoesOn(s: State, e: Event)
    requires Quiet(s) && ChainOk(s)
    ensures var t := Next(s, e);
            && t.accepted == s.accepted && t.written == s.written && t.closed && t.timer.None?
            && (Quiet(t) <==> !Revives(s, e))
            && (Revives(s, e) ==> t.queued && t.chained == s.chained + 1)
            && (s.call.None? && !e.CloseBegins? ==> t.call.None?)
  {
    assert !s.queued && s.inFlight.None?;
  }

  /** ... and so over every run without such a second close. */
  lemma {:induction false} ClosedRunsStayQuiet(events: seq<Event>, more: seq<Event>)
    requires Quiet(After(events))
    requires forall n :: 0 <= n < |more| ==> !Revives(After(events + more[..n]), more[n])
    ensures var s, t := After(events), After(events + more);
            Quiet(t) && t.accepted == s.accepted && t.written == s.written
  {
    if more == [] {
      assert events + more == events;
    } else {
      var n := |more| - 1;
      forall m | 0 <= m < n ensures !Revives(After(events + more[..n][..m]), more[..n][m]) {
        assert more[..n][..m] == more[..m];
      }
      ClosedRunsStayQuiet(events, more[..n]);
      QuietRunGoesOn(events, more, After(events + more[..n]), After(events + more));
    }
  }

  lemma QuietRunGoesOn(events: seq<Event>, more: seq<Event>, s: State, t: State)
    requires more != [] && s == After(events + more[..|more| - 1]) && t == After(events + more)
    requires Quiet(s) && !Revives(s, more[|more| - 1])
    ensures Quiet(t) && t.accepted == s.accepted && t.written == s.written
  {
    var n := |more| - 1;
    assert (events + more)[..|events + more| - 1] == events + more[..n];
    ClosedStaysQuiet(events + more[..n], more[n]);
  }

  lemma {:induction false} CloseLeavesNothing(events: seq<Event>)
    requires var s := After(events); s.call.Some? && s.call.value.ClosingLast? && Next(s, CloseEnds).call.None?
    ensures var t := Next(After(events), CloseEnds);
            t.closed && t.timer.None? && t.settled == t.chained && t.inFlight.None? && !t.queued
  {
    Reachable(events);
  }

  /** `set` keeps exactly its value, unless the writer was closed meanwhile, and sees to its write. */
  lemma SetsAreKept(s: State, value: Json, initial: Option<Json>)
    requires s.call == Some(Setting) && !s.closed
    ensures var t := Next(s, SetLands(value));
            Get(t, initial) == Some(value) && t.call.None? && t.dirty && (t.queued || t.timer.Some?)
  {
    assert (s.accepted + [value])[|s.accepted|] == value;
  }

  /** Nothing else changes what `get()` returns. */
  lemma OnlySetsChangeTheValue(s: State, e: Event, t: State, initial: Option<Json>)
    requires !(e.SetLands? && s.call == Some(Setting) && !s.closed) && t == Next(s, e)
    ensures Get(t, initial) == Get(s, initial)
  {
    if e.WriteBegins? || e.WriteEnds? {
      assert t.accepted == s.accepted;
    } else {
      OthersAccept(s, e, t);
    }
  }

  lemma OthersAccept(s: State, e: Event, t: State)
    requires !(e.SetLands? && s.call == Some(Setting) && !s.closed) && t == Next(s, e) && !e.WriteBegins?
             && !e.WriteEnds?
    ensures t.accepted == s.accepted
  {
  }

  /** `set` is refused once closed; the failure of an earlier write is thrown by the next call, once. */
  lemma SetsAnswer(s: State)
    requires s.call.None?
    ensures var t := Next(s, SetBegins);
            && (t.call == Some(Setting) <==> !s.closed && !s.failure)
            && (t.failure <==> s.failure && s.closed)
            && (t.call.None? ==> t == s.(failure := t.failure))
  {
  }

  /** A queued write behind no other stores the value that is current when it starts. */
  lemma {:induction false} QueuedWritesStore(events: seq<Event>, ok: bool)
    requires var s := After(events); s.queued && s.dirty && s.inFlight.None?
    ensures var s := After(events);
            var t := Next(Next(s, WriteBegins), WriteEnds(ok));
            && !t.queued && t.inFlight.None? && t.settled == t.chained && t.accepted == s.accepted
            && if ok then Stored(t) == |s.accepted| && !t.dirty && t.failure == s.failure
               else t.written == s.written && t.dirty && t.failure
  {
    Reachable(events);
  }

  /** What queues a write of an unstored value: `flush`, `close(true)`, and a timer that is due. */
  lemma {:induction false} CallsQueueWrites(events: seq<Event>, e: Event)
    requires var s := After(events);
             && s.dirty
             && ((e.FlushBegins? && s.call.None? && !s.closed) || (e == CloseBegins(true) && s.call.None?)
                 || (e.TimerFires? && s.timer.Some? && s.timer.value <= s.now))
    ensures var t := Next(After(events), e); t.queued && t.dirty && t.timer.None?
  {
  }

  /** A write that `set` or its timer queues comes at least one interval after the write queued
      before it, whoever queued that one. */
  lemma {:induction false} SetsAreThrottled(events: seq<Event>, i: nat)
    requires 0 < i < |After(events).queueings| && After(events).queueings[i].bySet
    ensures After(events).queueings[i - 1].at + INTERVAL <= After(events).queueings[i].at
  {
    Reachable(events);
    assert Spaced(After(events).queueings, i);
  }

  /** While values are accepted, one that is not stored is being written, or a write or a timer
      is due for it, or the last write failed. */
  lemma {:induction false} NoValueIsForgotten(events: seq<Event>)
    requires !After(events).closed
    ensures var s := After(events);
            Stored(s) == |s.accepted| || s.inFlight == Some(|s.accepted|) || s.queued || s.timer.Some? || s.stuck
  {
    Reachable(events);
  }

  // The object ------------------------------------------------------------------------------

  class ProgressRunner {
    const initial: Option<Json>
    var value: Option<Json>
    var dirty: bool
    var queued: bool
    var closed: bool
    var lastWrite: Option<Time>
    var timer: Option<Time>
    var failure: bool
    ghost var rest: State

    /** The variables above are those of the state; `rest` carries the clock and history. */
    ghost predicate Valid()
      reads this
    {
      && rest.dirty == dirty && rest.queued == queued && rest.closed == closed && rest.lastWrite == lastWrite
      && rest.timer == timer && rest.failure == failure && value == Get(rest, initial)
    }

    constructor (initial: Option<Json>)
      ensures Valid() && rest == NEW && this.initial == initial
    {
      this.initial, value := initial, initial;
      dirty, queued, closed, lastWrite, timer, failure := false, false, false, None, None, false;
      rest := NEW;
    }

    method Write(now: Time, ghost bySet: bool)
      requires Valid() && rest.now == now
      modifies this
      ensures Valid() && rest == QueueWrite(old(rest), bySet)
      ensures value == old(value) && dirty == old(dirty) && closed == old(closed) && failure == old(failure)
    {
      timer := None;
      rest := QueueWrite(rest, bySet);
      if !dirty || queued { return; }
      queued := true;
      lastWrite := Some(now);
    }

    /** `set` up to its parse: true when it may go on, else it throws. */
    method BeginSet() returns (ok: bool)
      requires Valid() && rest.call.None?
      modifies this
      ensures Valid() && rest == Next(old(rest), SetBegins)
      ensures ok <==> !old(closed) && !old(failure)
    {
      rest := Next(rest, SetBegins);
      if closed { return false; }
      if failure {
        failure := false;
        return false;
      }
      ok := true;
    }

    method LandSet(next: Json, now: Time) returns (ok: bool)
      requires Valid() && rest.call == Some(Setting) && rest.now == now
      modifies this
      ensures Valid() && rest == Next(old(rest), SetLands(next))
      ensures ok <==> !closed
      ensures value == if ok then Some(next) else old(value)
    {
      if closed {
        rest := Next(rest, SetLands(next));
        return false;
      }
      ghost var landed := Next(rest, SetLands(next));
      ok, value, dirty := true, Some(next), true;
      rest := rest.(call := None, accepted := rest.accepted + [next], dirty := true);
      if timer.Some? { return; }
      if lastWrite.None? || lastWrite.value + INTERVAL <= now {
        Write(now, true);
      } else {
        timer := Some(lastWrite.value + INTERVAL);
        rest := rest.(timer := timer);
      }
      assert rest == landed;
    }

    method FireTimer(now: Time)
      requires Valid() && rest.now == now && timer.Some? && timer.value <= now
      modifies this
      ensures Valid() && rest == Next(old(rest), TimerFires)
    {
      Write(now, true);
    }

    /** The chain reached a queued write: the value it writes, if any. */
    method BeginWrite() returns (job: Option<Option<Json>>)
      requires Valid() && queued && rest.inFlight.None?
      modifies this
      ensures Valid() && rest == Next(old(rest), WriteBegins)
      ensures job == if old(dirty) then Some(value) else None
    {
      rest := Next(rest, WriteBegins);
      queued := false;
      if !dirty { return None; }
      dirty := false;
      job := Some(value);
    }

    method EndWrite(ok: bool)
      requires Valid() && rest.inFlight.Some?
      modifies this
      ensures Valid() && rest == Next(old(rest), WriteEnds(ok))
    {
      rest := Next(rest, WriteEnds(ok));
      if !ok { failure, dirty := true, true; }
    }

    method BeginFlush(now: Time) returns (ok: bool)
      requires Valid() && rest.call.None? && rest.now == now
      modifies this
      ensures Valid() && rest == Next(old(rest), FlushBegins)
      ensures ok <==> !closed
    {
      if closed { return false; }
      Write(now, false);
      rest := rest.(call := Some(Flushing(rest.chained)));
      ok := true;
    }

    /** The writes it awaited settled; a stored failure is thrown once. */
    method EndFlush() returns (ok: bool)
      requires Valid() && rest.call.Some? && rest.call.value.Flushing? && rest.call.value.ticket <= rest.settled
      modifies this
      ensures Valid() && rest == Next(old(rest), FlushEnds)
      ensures ok <==> !old(failure)
    {
      rest := Next(rest, FlushEnds);
      ok := !failure;
      failure := false;
    }

    method BeginClose(persist: bool, now: Time)
      requires Valid() && rest.call.None? && rest.now == now
      modifies this
      ensures Valid() && rest == Next(old(rest), CloseBegins(persist))
    {
      ghost var after := Next(rest, CloseBegins(persist));
      closed := true;
      rest := rest.(closed := true);
      if persist {
        Write(now, false);
        rest := rest.(call := Some(Closing(rest.chained)));
      } else {
        timer := None;
        rest := rest.(timer := None, call := Some(ClosingLast(rest.chained, false)));
      }
      assert rest == after;
    }

    method ContinueClose()
      requires Valid() && rest.call.Some? && rest.call.value.Closing? && rest.call.value.ticket <= rest.settled
      modifies this
      ensures Valid() && rest == Next(old(rest), CloseContinues)
    {
      rest := Next(rest, CloseContinues);
      timer := None;
    }

    method EndClose() returns (ok: bool)
      requires Valid() && rest.call.Some? && rest.call.value.ClosingLast? && rest.call.value.ticket <= rest.settled
      modifies this
      ensures Valid() && rest == Next(old(rest), CloseEnds)
      ensures ok <==> !old(failure)
    {
      rest := Next(rest, CloseEnds);
      ok := !failure;
      failure := false;
    }
  }
}
