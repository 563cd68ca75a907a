/** Memoized steps: the step runner with its pending works, the store with its cache and its
    chain of writes, and the job row they must agree with (src/steps.ts:118-155, 172-196,
    208-247; src/payload.ts:114-125). Each event is the code between two awaits.

    Attempts follow one another; a write is refused once the attempt lost its lock. */
module Steps {
  import opened Wrappers

  type StepId = string

  /** A JSON value or JavaScript's undefined, which JSON cannot hold. */
  datatype Value = Undefined | Null | Json(text: string)

  /** A stored checkpoint; undefined is stored as null and a mark. */
  datatype Entry = Entry(output: Value, isVoid: bool)

  function ToEntry(output: Value): Entry { if output.Undefined? then Entry(Null, true) else Entry(output, false) }

  function FromEntry(entry: Entry): Value { if entry.isVoid then Undefined else entry.output }

  /** An entry of the envelope as parsed JSON: anything, or an object that may have an output. */
  datatype Raw = Other | Object(output: Option<Value>, isVoid: bool)

  function ToRaw(entry: Entry): Raw { Object(Some(entry.output), entry.isVoid) }

  /** Loads a row's `steps`: foreign entries are skipped, a marked one is void whatever it holds. */
  function Extract(raw: map<StepId, Raw>): map<StepId, Entry> {
    map id | id in raw && raw[id].Object? && raw[id].output.Some? ::
      if raw[id].isVoid then Entry(Null, true) else Entry(raw[id].output.value, false)
  }

  function Persist(entries: map<StepId, Entry>): map<StepId, Raw> { map id | id in entries :: ToRaw(entries[id]) }

  /** Where a pending work stands; `Settled(None)` is a rejected promise. */
  datatype Work =
    | Executing
    | Queued(output: Value)
    | Writing(output: Value)
    | Committed(output: Value)
    | Settled(result: Option<Value>)

  datatype Reply = Reply(id: StepId, value: Value)

  /** `row` is what the job row stores. `writes` are the works on the chain of writes; `running`
      and `started` count the step functions in flight and ever started; `replies` are the
      values that calls returned. */
  datatype State = State(
    row: map<StepId, Entry>,
    owns: bool,
    active: bool,
    cache: map<StepId, Entry>,
    pending: map<StepId, Work>,
    writes: seq<StepId>,
    running: multiset<StepId>,
    started: multiset<StepId>,
    replies: seq<Reply>)

  datatype Event =
    | Call(id: StepId)
    | Returns(id: StepId, output: Value)
    | Throws(id: StepId)
    | WaitFinishes(id: StepId, checkpoint: Value)
    | WriteStarts
    | WriteCommits
    | WriteFails
    | WriteReturns(id: StepId)
    | Deliver(id: StepId)
    | Forget(id: StepId)
    | Expires
    | LosesLock
    | NextAttempt

  const FRESH := State(map[], true, true, map[], map[], [], multiset{}, multiset{}, [])

  /** Everything in memory is gone; the store starts from what the row held. */
  function Restarted(s: State, cache: map<StepId, Entry>): State {
    State(s.row, true, true, cache, map[], [], multiset{}, s.started, s.replies)
  }

  function Next(s: State, e: Event): State {
    match e
    case Call(id) =>
      if !s.active || id == "" then s
      else if id in s.cache then s.(replies := s.replies + [Reply(id, FromEntry(s.cache[id]))])
      else if id in s.pending then s
      else s.(pending := s.pending[id := Executing], running := s.running + multiset{id}, started := s.started + multiset{id})
    case Returns(id, output) =>
      if id in s.pending && s.pending[id].Executing?
      then s.(pending := s.pending[id := Queued(output)], writes := s.writes + [id], running := s.running - multiset{id})
      else s
    case Throws(id) =>
      if id in s.pending && s.pending[id].Executing?
      then s.(pending := s.pending[id := Settled(None)], running := s.running - multiset{id}) else s
    case WaitFinishes(id, checkpoint) =>
      // The backend stored the checkpoint itself; the store only has to remember it.
      if id in s.pending && s.pending[id].Executing? && s.owns
      then s.(pending := s.pending[id := Committed(checkpoint)], row := s.row[id := ToEntry(checkpoint)],
              running := s.running - multiset{id})
      else s
    case WriteStarts =>
      if s.writes != [] && s.writes[0] in s.pending && s.pending[s.writes[0]].Queued?
      then s.(pending := s.pending[s.writes[0] := Writing(s.pending[s.writes[0]].output)]) else s
    case WriteCommits =>
      if s.writes != [] && s.writes[0] in s.pending && s.pending[s.writes[0]].Writing? && s.owns
      then s.(pending := s.pending[s.writes[0] := Committed(s.pending[s.writes[0]].output)],
              row := s.row[s.writes[0] := ToEntry(s.pending[s.writes[0]].output)], writes := s.writes[1..])
      else s
    case WriteFails =>
      if s.writes != [] && s.writes[0] in s.pending && s.pending[s.writes[0]].Writing?
      then s.(pending := s.pending[s.writes[0] := Settled(None)], writes := s.writes[1..]) else s
    case WriteReturns(id) =>
      if id in s.pending && s.pending[id].Committed?
      then s.(cache := s.cache[id := ToEntry(s.pending[id].output)],
              pending := s.pending[id := Settled(Some(s.pending[id].output))])
      else s
    case Deliver(id) =>
      if id in s.pending && s.pending[id].Settled? && s.pending[id].result.Some?
      then s.(replies := s.replies + [Reply(id, s.pending[id].result.value)]) else s
    case Forget(id) =>
      if id in s.pending && s.pending[id].Settled? then s.(pending := s.pending - {id}) else s
    case Expires => s.(active := false)
    case LosesLock => s.(owns := false)
    case NextAttempt => Restarted(s, Extract(Persist(s.row)))
  }

  function After(s: State, events: seq<Event>): State {
    if events == [] then s else Next(After(s, events[..|events| - 1]), events[|events| - 1])
  }

  // Encodings -----------------------------------------------------------------------------

  /** Undefined, null and every JSON value come back as themselves. */
  lemma EntriesRoundTrip(output: Value)
    ensures FromEntry(ToEntry(output)) == output
  {
  }

  predicate Proper(entry: Entry) { if entry.isVoid then entry.output.Null? else !entry.output.Undefined? }

  /** Replay reads exactly the checkpoints that were stored. */
  lemma CacheRoundTrips(entries: map<StepId, Entry>)
    requires forall id :: id in entries ==> Proper(entries[id])
    ensures Extract(Persist(entries)) == entries
  {
  }

  // Invariant -----------------------------------------------------------------------------

  /** The row holds what the cache holds, plus at most what a work has just committed. */
  ghost predicate StoreOk(s: State) {
    && (forall id :: id in s.row ==> Proper(s.row[id]))
    && (forall id :: id in s.cache ==> id in s.row && s.cache[id] == s.row[id])
    && (forall id :: id in s.row && id !in s.cache ==> id in s.pending && s.pending[id].Committed?)
  }

  ghost predicate WorkOk(s: State, id: StepId)
    requires id in s.pending
  {
    match s.pending[id]
    case Executing => id !in s.row
    case Queued(_) => id !in s.row && id in s.writes
    case Writing(_) => id !in s.row && s.writes != [] && s.writes[0] == id
    case Committed(output) => id in s.row && id !in s.cache && s.row[id] == ToEntry(output)
    case Settled(result) =>
      if result.Some? then id in s.cache && s.cache[id] == ToEntry(result.value) else id !in s.row
  }

  ghost predicate PendingOk(s: State) {
    && (forall id :: id in s.pending ==> WorkOk(s, id))
    && (forall id :: id in s.writes ==> id in s.pending && (s.pending[id].Queued? || s.pending[id].Writing?))
    && (forall i, j :: 0 <= i < j < |s.writes| ==> s.writes[i] != s.writes[j])
    && (forall id :: s.running[id] == if id in s.pending && s.pending[id].Executing? then 1 else 0)
  }

  ghost predicate RepliesOk(s: State) {
    forall i :: 0 <= i < |s.replies| ==> s.replies[i].id in s.row && s.replies[i].value == FromEntry(s.row[s.replies[i].id])
  }

  ghost predicate Inv(s: State) { StoreOk(s) && PendingOk(s) && RepliesOk(s) }

  /** Later states keep every stored checkpoint, and never start its function again. */
  ghost predicate Grows(s: State, t: State) {
    && (forall id :: id in s.row ==> id in t.row && t.row[id] == s.row[id] && t.started[id] == s.started[id])
    && s.replies <= t.replies
  }

  lemma ReplyKeepsInv(s: State, reply: Reply)
    requires Inv(s) && reply.id in s.row && reply.value == FromEntry(s.row[reply.id])
    ensures Inv(s.(replies := s.replies + [reply]))
  {
  }

  lemma StartKeepsInv(s: State, id: StepId)
    requires Inv(s) && id !in s.cache && id !in s.pending
    ensures var t := s.(pending := s.pending[id := Executing], running := s.running + multiset{id},
                        started := s.started + multiset{id});
            Inv(t) && Grows(s, t)
  {
  }

  lemma CallKeepsInv(s: State, id: StepId)
    requires Inv(s)
    ensures Inv(Next(s, Call(id))) && Grows(s, Next(s, Call(id)))
  {
    if id in s.cache {
      ReplyKeepsInv(s, Reply(id, FromEntry(s.cache[id])));
    } else if id !in s.pending {
      StartKeepsInv(s, id);
    }
  }

  lemma ReturnsKeepsInv(s: State, id: StepId, output: Value)
    requires Inv(s)
    ensures Inv(Next(s, Returns(id, output))) && Grows(s, Next(s, Returns(id, output)))
  {
    if id in s.pending && s.pending[id].Executing? {
      var t := Next(s, Returns(id, output));
      MovingKeepsStore(s, t, id);
      ReturnsKeepsPending(s, t, id, output);
    }
  }

  /** A work that moves on while its checkpoint is not stored. */
  lemma MovingKeepsStore(s: State, t: State, id: StepId)
    requires StoreOk(s) && RepliesOk(s) && id !in s.row && id in t.pending
             && t.pending == s.pending[id := t.pending[id]]
    requires t.row == s.row && t.cache == s.cache && t.replies == s.replies && t.started == s.started
    ensures StoreOk(t) && RepliesOk(t) && Grows(s, t)
  {
  }

  lemma ReturnsKeepsPending(s: State, t: State, id: StepId, output: Value)
    requires PendingOk(s) && id in s.pending && s.pending[id].Executing?
    requires t == s.(pending := s.pending[id := Queued(output)], writes := s.writes + [id],
                     running := s.running - multiset{id})
    ensures PendingOk(t)
  {
    assert id !in s.writes;
  }

  lemma ThrowsKeepsInv(s: State, id: StepId)
    requires Inv(s)
    ensures Inv(Next(s, Throws(id))) && Grows(s, Next(s, Throws(id)))
  {
  }

  /** A checkpoint that reaches the row by whichever way keeps the row and replies in step. */
  lemma StoringKeepsStore(s: State, t: State, id: StepId, output: Value)
    requires StoreOk(s) && RepliesOk(s) && id !in s.row
    requires t.row == s.row[id := ToEntry(output)] && t.pending == s.pending[id := Committed(output)]
    requires t.cache == s.cache && t.replies == s.replies && t.started == s.started
    ensures StoreOk(t) && RepliesOk(t) && Grows(s, t)
  {
  }

  lemma WaitFinishesKeepsInv(s: State, id: StepId, checkpoint: Value)
    requires Inv(s)
    ensures Inv(Next(s, WaitFinishes(id, checkpoint))) && Grows(s, Next(s, WaitFinishes(id, checkpoint)))
  {
    var t := Next(s, WaitFinishes(id, checkpoint));
    if t.pending != s.pending {
      StoringKeepsStore(s, t, id, checkpoint);
      WaitKeepsPending(s, t, id, checkpoint);
    }
  }

  lemma WaitKeepsPending(s: State, t: State, id: StepId, output: Value)
    requires StoreOk(s) && PendingOk(s) && id in s.pending && s.pending[id].Executing?
    requires t.row == s.row[id := ToEntry(output)] && t.pending == s.pending[id := Committed(output)]
    requires t.cache == s.cache && t.writes == s.writes && t.running == s.running - multiset{id}
    ensures PendingOk(t)
  {
    forall other | other in t.pending ensures WorkOk(t, other) {
      if other != id { assert WorkOk(s, other); }
    }
  }

  lemma WriteStartsKeepsInv(s: State)
    requires Inv(s)
    ensures Inv(Next(s, WriteStarts)) && Grows(s, Next(s, WriteStarts))
  {
  }

  lemma WriteCommitsKeepsInv(s: State)
    requires Inv(s)
    ensures Inv(Next(s, WriteCommits)) && Grows(s, Next(s, WriteCommits))
  {
    var t := Next(s, WriteCommits);
    if t.pending != s.pending {
      var id := s.writes[0];
      StoringKeepsStore(s, t, id, s.pending[id].output);
      WriteKeepsPending(s, t, id, s.pending[id].output);
    }
  }

  lemma WriteKeepsPending(s: State, t: State, id: StepId, output: Value)
    requires StoreOk(s) && PendingOk(s) && s.writes != [] && id == s.writes[0] && s.pending[id].Writing?
    requires t.row == s.row[id := ToEntry(output)] && t.pending == s.pending[id := Committed(output)]
    requires t.cache == s.cache && t.writes == s.writes[1..] && t.running == s.running
    ensures PendingOk(t)
  {
    forall other | other in t.pending ensures WorkOk(t, other) {
      if other != id {
        assert WorkOk(s, other);
        if s.pending[other].Queued? {
          var k :| 0 <= k < |s.writes| && s.writes[k] == other;
          assert t.writes[k - 1] == other;
        }
      }
    }
  }

  lemma WriteFailsKeepsInv(s: State)
    requires Inv(s)
    ensures Inv(Next(s, WriteFails)) && Grows(s, Next(s, WriteFails))
  {
    var t := Next(s, WriteFails);
    if t.pending != s.pending {
      var id := s.writes[0];
      assert StoreOk(t);
      WriteLeavesChain(s, t, id);
    }
  }

  /** The head of the chain settles; every other work stands where it stood. */
  lemma WriteLeavesChain(s: State, t: State, id: StepId)
    requires StoreOk(s) && PendingOk(s) && s.writes != [] && id == s.writes[0] && s.pending[id].Writing?
    requires t.pending == s.pending[id := Settled(None)] && t.writes == s.writes[1..]
    requires t.row == s.row && t.cache == s.cache && t.running == s.running
    ensures PendingOk(t)
  {
    forall other | other in t.pending ensures WorkOk(t, other) {
      if other != id {
        assert WorkOk(s, other);
        if s.pending[other].Queued? {
          var k :| 0 <= k < |s.writes| && s.writes[k] == other;
          assert t.writes[k - 1] == other;
        }
      } else {
        assert WorkOk(s, id);
      }
    }
  }

  lemma WriteReturnsKeepsInv(s: State, id: StepId)
    requires Inv(s)
    ensures Inv(Next(s, WriteReturns(id))) && Grows(s, Next(s, WriteReturns(id)))
  {
    if id in s.pending && s.pending[id].Committed? {
      var t := Next(s, WriteReturns(id));
      assert WorkOk(s, id);
      assert StoreOk(t) && RepliesOk(t);
      WriteReturnsKeepsPending(s, t, id);
    }
  }

  lemma WriteReturnsKeepsPending(s: State, t: State, id: StepId)
    requires PendingOk(s) && id in s.pending && s.pending[id].Committed?
    requires var output := s.pending[id].output;
             t == s.(cache := s.cache[id := ToEntry(output)], pending := s.pending[id := Settled(Some(output))])
    ensures PendingOk(t)
  {
    assert id !in s.writes;
  }

  lemma DeliverKeepsInv(s: State, id: StepId)
    requires Inv(s)
    ensures Inv(Next(s, Deliver(id))) && Grows(s, Next(s, Deliver(id)))
  {
  }

  lemma ForgetKeepsInv(s: State, id: StepId)
    requires Inv(s)
    ensures Inv(Next(s, Forget(id))) && Grows(s, Next(s, Forget(id)))
  {
  }

  lemma OthersKeepInv(s: State, e: Event)
    requires Inv(s) && (e.Expires? || e.LosesLock? || e.NextAttempt?)
    ensures Inv(Next(s, e)) && Grows(s, Next(s, e))
  {
    if e.NextAttempt? { CacheRoundTrips(s.row); }
  }

  lemma NextKeepsInv(s: State, e: Event)
    requires Inv(s)
    ensures Inv(Next(s, e)) && Grows(s, Next(s, e))
  {
    match e
    case Call(id) => CallKeepsInv(s, id);
    case Returns(id, output) => ReturnsKeepsInv(s, id, output);
    case Throws(id) => ThrowsKeepsInv(s, id);
    case WaitFinishes(id, checkpoint) => WaitFinishesKeepsInv(s, id, checkpoint);
    case WriteStarts => WriteStartsKeepsInv(s);
    case WriteCommits => WriteCommitsKeepsInv(s);
    case WriteFails => WriteFailsKeepsInv(s);
    case WriteReturns(id) => WriteReturnsKeepsInv(s, id);
    case Deliver(id) => DeliverKeepsInv(s, id);
    case Forget(id) => ForgetKeepsInv(s, id);
    case _ => OthersKeepInv(s, e);
  }

  lemma {:induction false} AfterKeepsInv(s: State, events: seq<Event>)
    requires Inv(s)
    ensures Inv(After(s, events)) && Grows(s, After(s, events))
  {
    if events != [] {
      AfterKeepsInv(s, events[..|events| - 1]);
      NextKeepsInv(After(s, events[..|events| - 1]), events[|events| - 1]);
    }
  }

  lemma FreshIsOk()
    ensures Inv(FRESH)
  {
  }

  // Theorems ------------------------------------------------------------------------------

  /** However calls of one id overlap, one attempt never runs its function twice at once. */
  lemma {:induction false} OneExecutionAtATime(events: seq<Event>, id: StepId)
    ensures After(FRESH, events).running[id] <= 1
  {
    FreshIsOk();
    AfterKeepsInv(FRESH, events);
  }

  /** Once a checkpoint is stored it stays as it is and its function never starts again, in
      this attempt, in any replay, after any crash or failed write. */
  lemma {:induction false} StoredStepsNeverRunAgain(events: seq<Event>, later: seq<Event>, id: StepId)
    requires id in After(FRESH, events).row
    ensures var s, t := After(FRESH, events), After(After(FRESH, events), later);
            id in t.row && t.row[id] == s.row[id] && t.started[id] == s.started[id]
  {
    FreshIsOk();
    AfterKeepsInv(FRESH, events);
    AfterKeepsInv(After(FRESH, events), later);
  }

  /** Every call of one id that returns, in every attempt, returns the one stored value. */
  lemma {:induction false} RepliesAgree(events: seq<Event>, i: nat, j: nat)
    requires i < |After(FRESH, events).replies| && j < |After(FRESH, events).replies|
    requires After(FRESH, events).replies[i].id == After(FRESH, events).replies[j].id
    ensures var s := After(FRESH, events);
            && s.replies[i].value == s.replies[j].value
            && s.replies[i].id in s.row && s.replies[i].value == FromEntry(s.row[s.replies[i].id])
  {
    FreshIsOk();
    AfterKeepsInv(FRESH, events);
  }

  /** The cache holds nothing the row does not, and lags by exactly the works that committed and
      have not yet been told. */
  lemma {:induction false} CacheIsNeverAhead(events: seq<Event>, id: StepId)
    ensures var s := After(FRESH, events);
            && (id in s.cache ==> id in s.row && s.cache[id] == s.row[id])
            && (id in s.row <==> id in s.cache || (id in s.pending && s.pending[id].Committed?))
  {
    FreshIsOk();
    AfterKeepsInv(FRESH, events);
  }

  /** A function that threw or a checkpoint that could not be written leaves no trace: once its
      promise is forgotten, the next call runs the function anew. */
  lemma {:induction false} FailuresAreNotCached(events: seq<Event>, id: StepId)
    requires var s := After(FRESH, events); s.active && id != "" && id in s.pending && s.pending[id] == Settled(None)
    ensures var s := After(FRESH, events);
            && id !in s.cache && id !in s.row
            && Next(Next(s, Forget(id)), Call(id)).started[id] == s.started[id] + 1
  {
    FreshIsOk();
    AfterKeepsInv(FRESH, events);
  }

  /** A replay answers a stored step at once with the value the first run returned. */
  lemma {:induction false} ReplaysAnswerFromTheRow(events: seq<Event>, id: StepId)
    requires id != "" && id in After(FRESH, events).row
    ensures var s := After(FRESH, events);
            var t := Next(Next(s, NextAttempt), Call(id));
            t.started == s.started && t.replies == s.replies + [Reply(id, FromEntry(s.row[id]))]
  {
    FreshIsOk();
    AfterKeepsInv(FRESH, events);
    CacheRoundTrips(After(FRESH, events).row);
  }

  // What is stored is what was computed ------------------------------------------------------------

  /** The event hands the id's executing work its value: its function returned, or the backend
      finished its wait. */
  predicate Produces(s: State, e: Event, id: StepId) {
    id in s.pending && s.pending[id].Executing?
    && ((e.Returns? && e.id == id) || (e.WaitFinishes? && e.id == id && s.owns))
  }

  function Produced(e: Event): Value
    requires e.Returns? || e.WaitFinishes?
  {
    if e.Returns? then e.output else e.checkpoint
  }

  /** The value that the latest such event handed over. */
  function Latest(events: seq<Event>, id: StepId): Option<Value> {
    if events == [] then None else
    var n := |events| - 1;
    if Produces(After(FRESH, events[..n]), events[n], id) then Some(Produced(events[n])) else Latest(events[..n], id)
  }

  predicate Carries(work: Work, latest: Option<Value>) {
    match work
    case Queued(output) => latest == Some(output)
    case Writing(output) => latest == Some(output)
    case Committed(output) => latest == Some(output)
    case Settled(Some(output)) => latest == Some(output)
    case _ => true
  }

  /** Row and works hold the value of the latest such event. */
  predicate Traced(s: State, id: StepId, latest: Option<Value>) {
    && (id in s.row ==> latest == Some(FromEntry(s.row[id])))
    && (id in s.pending ==> Carries(s.pending[id], latest))
  }

  lemma NextIsTraced(s: State, e: Event, id: StepId, latest: Option<Value>)
    requires Inv(s) && Traced(s, id, latest)
    ensures Traced(Next(s, e), id, if Produces(s, e, id) then Some(Produced(e)) else latest)
  {
  }

  lemma {:induction false} RunsAreTraced(events: seq<Event>, id: StepId)
    ensures Traced(After(FRESH, events), id, Latest(events, id))
  {
    if events != [] {
      var n := |events| - 1;
      RunsAreTraced(events[..n], id);
      FreshIsOk();
      AfterKeepsInv(FRESH, events[..n]);
      NextIsTraced(After(FRESH, events[..n]), events[n], id, Latest(events[..n], id));
    }
  }

  /** Over every run and all its attempts, the row, the cache and every reply hold for an id the
      value that its function returned, or its wait finished with, when it last ran. */
  lemma {:induction false} OutputsAreStoredAndReturned(events: seq<Event>, id: StepId, i: nat)
    ensures var s := After(FRESH, events);
            && (id in s.row ==> Latest(events, id) == Some(FromEntry(s.row[id])))
            && (id in s.cache ==> Latest(events, id) == Some(FromEntry(s.cache[id])))
            && (i < |s.replies| && s.replies[i].id == id ==> Latest(events, id) == Some(s.replies[i].value))
  {
    RunsAreTraced(events, id);
    FreshIsOk();
    AfterKeepsInv(FRESH, events);
  }

  /** ... and there is such an event. */
  lemma {:induction false} LatestHappened(events: seq<Event>, id: StepId) returns (n: nat)
    requires Latest(events, id).Some?
    ensures n < |events| && Produces(After(FRESH, events[..n]), events[n], id)
    ensures Latest(events, id) == Some(Produced(events[n]))
  {
    n := |events| - 1;
    if !Produces(After(FRESH, events[..n]), events[n], id) {
      n := LatestHappened(events[..n], id);
      assert events[..|events| - 1][..n] == events[..n];
    }
  }

  /** From any reachable state of an attempt that owns its row, a call of a step that is neither
      stored nor running, behind no other write, runs the function, stores its output and returns
      it. */
  lemma {:induction false} StepsRunToTheirReply(events: seq<Event>, id: StepId, output: Value)
    requires var s := After(FRESH, events);
             s.active && s.owns && s.writes == [] && id != "" && id !in s.cache && id !in s.pending
    ensures var s := After(FRESH, events);
            var stored := Next(Next(Next(Next(s, Call(id)), Returns(id, output)), WriteStarts), WriteCommits);
            var t := Next(Next(stored, WriteReturns(id)), Deliver(id));
            && t.started == s.started + multiset{id} && t.running == s.running
            && id in t.row && FromEntry(t.row[id]) == output && id in t.cache && t.cache[id] == t.row[id]
            && t.replies == s.replies + [Reply(id, output)]
  {
    var s := After(FRESH, events);
    StepStores(s, id, output);
    StepReplies(Next(Next(Next(Next(s, Call(id)), Returns(id, output)), WriteStarts), WriteCommits), id, output);
  }

  lemma StepStores(s: State, id: StepId, output: Value)
    requires s.active && s.owns && s.writes == [] && id != "" && id !in s.cache && id !in s.pending
    ensures var t := Next(Next(Next(Next(s, Call(id)), Returns(id, output)), WriteStarts), WriteCommits);
            && t.started == s.started + multiset{id} && t.running == s.running && t.replies == s.replies
            && t.row == s.row[id := ToEntry(output)] && id in t.pending && t.pending[id] == Committed(output)
  {
    StepQueues(s, id, output);
    StepWrites(Next(Next(s, Call(id)), Returns(id, output)), id, output);
  }

  lemma StepQueues(s: State, id: StepId, output: Value)
    requires s.active && s.writes == [] && id != "" && id !in s.cache && id !in s.pending
    ensures var t := Next(Next(s, Call(id)), Returns(id, output));
            && t.started == s.started + multiset{id} && t.running == s.running && t.replies == s.replies
            && t.row == s.row && t.owns == s.owns && t.writes == [id]
            && id in t.pending && t.pending[id] == Queued(output)
  {
    var called := Next(s, Call(id));
    assert called.running - multiset{id} == s.running;
    assert [] + [id] == [id];
  }

  lemma StepWrites(s: State, id: StepId, output: Value)
    requires s.owns && s.writes == [id] && id in s.pending && s.pending[id] == Queued(output)
    ensures var t := Next(Next(s, WriteStarts), WriteCommits);
            && t.started == s.started && t.running == s.running && t.replies == s.replies
            && t.row == s.row[id := ToEntry(output)] && id in t.pending && t.pending[id] == Committed(output)
  {
    assert Next(s, WriteStarts) == s.(pending := s.pending[id := Writing(output)]);
  }

  lemma StepReplies(s: State, id: StepId, output: Value)
    requires id in s.pending && s.pending[id] == Committed(output) && id in s.row && s.row[id] == ToEntry(output)
    ensures var t := Next(Next(s, WriteReturns(id)), Deliver(id));
            && t.started == s.started && t.running == s.running && t.row == s.row
            && id in t.cache && t.cache[id] == s.row[id] && t.replies == s.replies + [Reply(id, output)]
  {
  }

  /** An attempt that ended starts no function any more, until the next one begins. */
  lemma {:induction false} EndedAttemptsStartNothing(s: State, events: seq<Event>)
    requires !s.active && forall n :: 0 <= n < |events| ==> !events[n].NextAttempt?
    ensures !After(s, events).active && After(s, events).started == s.started
  {
    if events != [] { EndedAttemptsStartNothing(s, events[..|events| - 1]); }
  }

  /** An attempt that lost its lock stores nothing any more. */
  lemma {:induction false} LostLocksStoreNothing(s: State, events: seq<Event>)
    requires !s.owns && forall n :: 0 <= n < |events| ==> !events[n].NextAttempt?
    ensures !After(s, events).owns && After(s, events).row == s.row
  {
    if events != [] { LostLocksStoreNothing(s, events[..|events| - 1]); }
  }

  /** A replay loads the entries that are objects with an output, each as what it means: undefined
      where marked, else its output. */
  lemma LoadsWhatEntriesMean(raw: map<StepId, Raw>, id: StepId)
    ensures id in Extract(raw) <==> id in raw && raw[id].Object? && raw[id].output.Some?
    ensures id in Extract(raw) ==>
              FromEntry(Extract(raw)[id]) == if raw[id].isVoid then Undefined else raw[id].output.value
  {
  }

  // The objects -----------------------------------------------------------------------------

  method ExtractStepCache(steps: map<StepId, Raw>) returns (cache: map<StepId, Entry>)
    ensures cache == Extract(steps)
  {
    cache := map[];
    var left := steps.Keys;
    while left != {}
      invariant left <= steps.Keys
      invariant forall id :: id in cache <==> id in Extract(steps) && id !in left
      invariant forall id :: id in cache ==> cache[id] == Extract(steps)[id]
    {
      var id :| id in left;
      left := left - {id};
      if steps[id].Object? && steps[id].output.Some? {
        cache := cache[id := if steps[id].isVoid then Entry(Null, true) else Entry(steps[id].output.value, false)];
      }
    }
  }

  /** The runner's `pending` map and its store's `cache` and chain, over one job row. */
  class StepRunner {
    var row: map<StepId, Entry>
    var owns: bool
    var active: bool
    var cache: map<StepId, Entry>
    var pending: map<StepId, Work>
    var writes: seq<StepId>
    ghost var running: multiset<StepId>
    ghost var started: multiset<StepId>
    ghost var replies: seq<Reply>

    ghost function View(): State
      reads this
    {
      State(row, owns, active, cache, pending, writes, running, started, replies)
    }

    /** The first attempt; `Replay` is each one after it. */
    constructor ()
      ensures View() == FRESH
    {
      row, owns, active, cache, pending, writes := map[], true, true, map[], map[], [];
      running, started, replies := multiset{}, multiset{}, [];
    }

    method Replay()
      modifies this
      ensures View() == Next(old(View()), NextAttempt)
    {
      var loaded := ExtractStepCache(Persist(row));
      Restart(loaded);
    }

    method Restart(loaded: map<StepId, Entry>)
      modifies this
      ensures View() == Restarted(old(View()), loaded)
    {
      owns, active, cache := true, true, loaded;
      pending, writes, running := map[], [], multiset{};
    }

    /** A cached value, or None: the caller awaits the work under `id`, started if there was none. */
    method Run(id: StepId) returns (hit: Option<Value>)
      requires active && id != ""
      modifies this
      ensures View() == Next(old(View()), Call(id))
      ensures hit == (if id in cache then Some(FromEntry(cache[id])) else None)
      ensures hit.None? ==> id in pending
    {
      if id in cache {
        hit := Some(FromEntry(cache[id]));
        replies := replies + [Reply(id, hit.value)];
        return;
      }
      hit := None;
      if id !in pending {
        pending := pending[id := Executing];
        running, started := running + multiset{id}, started + multiset{id};
      }
    }

    /** The step function settled; its output joins the chain of writes. */
    method FunctionSettled(id: StepId, output: Option<Value>)
      requires id in pending && pending[id].Executing?
      modifies this
      ensures View() == Next(old(View()), if output.Some? then Returns(id, output.value) else Throws(id))
    {
      running := running - multiset{id};
      if output.Some? {
        pending := pending[id := Queued(output.value)];
        writes := writes + [id];
      } else {
        pending := pending[id := Settled(None)];
      }
    }

    method Remember(id: StepId, checkpoint: Value)
      requires id in pending && pending[id].Executing? && owns
      modifies this
      ensures View() == Next(old(View()), WaitFinishes(id, checkpoint))
    {
      running := running - multiset{id};
      row := row[id := ToEntry(checkpoint)];
      pending := pending[id := Committed(checkpoint)];
    }

    method StartWrite()
      requires writes != [] && writes[0] in pending && pending[writes[0]].Queued?
      modifies this`pending
      ensures View() == Next(old(View()), WriteStarts)
    {
      pending := pending[writes[0] := Writing(pending[writes[0]].output)];
    }

    /** `writeCheckpoint` committed, or found the lock lost or the database failing. */
    method EndWrite(ok: bool)
      requires writes != [] && writes[0] in pending && pending[writes[0]].Writing? && (ok ==> owns)
      modifies this`pending, this`row, this`writes
      ensures View() == Next(old(View()), if ok then WriteCommits else WriteFails)
    {
      var id := writes[0];
      writes := writes[1..];
      if ok {
        row := row[id := ToEntry(pending[id].output)];
        pending := pending[id := Committed(pending[id].output)];
      } else {
        pending := pending[id := Settled(None)];
      }
    }

    method CacheWritten(id: StepId)
      requires id in pending && pending[id].Committed?
      modifies this`cache, this`pending
      ensures View() == Next(old(View()), Event.WriteReturns(id))
    {
      var output := pending[id].output;
      cache := cache[id := ToEntry(output)];
      pending := pending[id := Settled(Some(output))];
    }

    method ForgetWork(id: StepId)
      requires id in pending && pending[id].Settled?
      modifies this`pending
      ensures View() == Next(old(View()), Forget(id))
    {
      pending := pending - {id};
    }
  }
}
