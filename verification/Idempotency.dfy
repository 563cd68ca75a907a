/** Idempotency keys: the `bgw_add_jobs` loop and the pruning of expired keys
    (src/enqueue-sql.ts:144-213, 237-248), against "the first claim wins until its TTL". */
module Idempotency {
  import opened Wrappers

  type JobId = nat
  type Time = int

  datatype Key = Key(queue: string, key: string)

  /** One spec of a batch; the TTL counts only with a key. */
  datatype Item = Item(queue: string, idempotencyKey: Option<string>, ttl: nat, payload: string)

  /** `job` is NULL between claiming a key and enqueueing its job, inside one transaction. */
  datatype KeyRow = KeyRow(job: Option<JobId>, expiresAt: Time)

  datatype Answer = Answer(item: Item, at: Time, id: JobId, deduplicated: bool)

  /** The id that the n-th call of `add_job` returns; a job key may make it an old one. */
  type Ids = nat -> JobId

  datatype Store = Store(keys: map<Key, KeyRow>, calls: nat)

  datatype Op = Batch(items: seq<Item>, at: Time) | Prune(at: Time, skipped: set<Key>)

  function KeyOf(item: Item): Key
    requires item.idempotencyKey.Some?
  {
    Key(item.queue, item.idempotencyKey.value)
  }

  // The table --------------------------------------------------------------------------------

  /** INSERT ... ON CONFLICT: an unexpired row stays, an expired one is claimed again. */
  function ClaimKey(keys: map<Key, KeyRow>, key: Key, ttl: nat, now: Time): map<Key, KeyRow> {
    if key in keys && keys[key].expiresAt > now then keys else keys[key := KeyRow(None, now + ttl)]
  }

  function AddItem(s: Store, item: Item, now: Time, ids: Ids): (Store, Answer) {
    if item.idempotencyKey.None? then (s.(calls := s.calls + 1), Answer(item, now, ids(s.calls), false)) else
    var key := KeyOf(item);
    var claimed := ClaimKey(s.keys, key, item.ttl, now);
    if claimed[key].job.Some? then (s.(keys := claimed), Answer(item, now, claimed[key].job.value, true))
    else (Store(claimed[key := claimed[key].(job := Some(ids(s.calls)))], s.calls + 1), Answer(item, now, ids(s.calls), false))
  }

  function AddItems(s: Store, items: seq<Item>, now: Time, ids: Ids): (r: (Store, seq<Answer>))
    ensures |r.1| == |items|
  {
    if items == [] then (s, []) else
    var (before, answers) := AddItems(s, items[..|items| - 1], now, ids);
    var (after, answer) := AddItem(before, items[|items| - 1], now, ids);
    (after, answers + [answer])
  }

  function PruneKeys(s: Store, now: Time, skipped: set<Key>): Store {
    s.(keys := map key | key in s.keys && (s.keys[key].expiresAt > now || key in skipped) :: s.keys[key])
  }

  /** Every answer that a sequence of committed batches and sweeps gives. */
  function Run(ops: seq<Op>, ids: Ids): (Store, seq<Answer>) {
    if ops == [] then (Store(map[], 0), []) else
    var (s, answers) := Run(ops[..|ops| - 1], ids);
    match ops[|ops| - 1]
    case Batch(items, at) => var (t, more) := AddItems(s, items, at, ids); (t, answers + more)
    case Prune(at, skipped) => (PruneKeys(s, at, skipped), answers)
  }

  // The reference ------------------------------------------------------------------------------

  /** An answer that enqueued a job and holds its key at `at`. */
  predicate Claims(answer: Answer, key: Key, at: Time) {
    answer.item.idempotencyKey.Some? && KeyOf(answer.item) == key && !answer.deduplicated
    && at < answer.at + answer.item.ttl
  }

  function FirstClaim(history: seq<Answer>, key: Key, at: Time): Option<JobId> {
    if history == [] then None
    else if Claims(history[0], key, at) then Some(history[0].id)
    else FirstClaim(history[1..], key, at)
  }

  function Enqueued(history: seq<Answer>): nat {
    if history == [] then 0 else
    Enqueued(history[..|history| - 1]) + if history[|history| - 1].deduplicated then 0 else 1
  }

  function Reference(history: seq<Answer>, item: Item, at: Time, ids: Ids): Answer {
    var holder := if item.idempotencyKey.Some? then FirstClaim(history, KeyOf(item), at) else None;
    Answer(item, at, holder.GetOr(ids(Enqueued(history))), holder.Some?)
  }

  function ReferenceItems(history: seq<Answer>, items: seq<Item>, at: Time, ids: Ids): seq<Answer> {
    if items == [] then history else
    var before := ReferenceItems(history, items[..|items| - 1], at, ids);
    before + [Reference(before, items[|items| - 1], at, ids)]
  }

  /** No table, no pruning: each answer looks at the answers before it. */
  function RunReference(ops: seq<Op>, ids: Ids): seq<Answer> {
    if ops == [] then [] else
    var before := RunReference(ops[..|ops| - 1], ids);
    match ops[|ops| - 1]
    case Batch(items, at) => ReferenceItems(before, items, at, ids)
    case Prune(_, _) => before
  }

  // Refinement -----------------------------------------------------------------------------------

  predicate Ordered(ops: seq<Op>) { forall i, j :: 0 <= i < j < |ops| ==> ops[i].at <= ops[j].at }

  /** From `now` on the table answers as the history does. */
  ghost predicate Agrees(s: Store, history: seq<Answer>, now: Time) {
    && s.calls == Enqueued(history)
    && (forall key :: key in s.keys ==> s.keys[key].job.Some?)
    && forall key, t :: now <= t ==>
         FirstClaim(history, key, t) == if key in s.keys && t < s.keys[key].expiresAt then s.keys[key].job else None
  }

  lemma {:induction false} FirstClaimAppends(history: seq<Answer>, answer: Answer, key: Key, at: Time)
    ensures FirstClaim(history + [answer], key, at)
         == if FirstClaim(history, key, at).Some? then FirstClaim(history, key, at)
            else if Claims(answer, key, at) then Some(answer.id) else None
  {
    if history == [] {
      assert ([answer])[1..] == [];
    } else {
      FirstClaimAppends(history[1..], answer, key, at);
      assert (history + [answer])[1..] == history[1..] + [answer];
    }
  }

  lemma AddItemAgrees(s: Store, history: seq<Answer>, item: Item, now: Time, ids: Ids)
    requires Agrees(s, history, now)
    ensures var (t, answer) := AddItem(s, item, now, ids);
            answer == Reference(history, item, now, ids) && Agrees(t, history + [answer], now)
  {
    var (t, answer) := AddItem(s, item, now, ids);
    assert (history + [answer])[..|history|] == history;
    forall key, at | now <= at
      ensures FirstClaim(history + [answer], key, at)
           == if key in t.keys && at < t.keys[key].expiresAt then t.keys[key].job else None
    {
      FirstClaimAppends(history, answer, key, at);
    }
  }

  lemma {:induction false} AddItemsAgree(s: Store, history: seq<Answer>, items: seq<Item>, now: Time, ids: Ids)
    requires Agrees(s, history, now)
    ensures var (t, answers) := AddItems(s, items, now, ids);
            history + answers == ReferenceItems(history, items, now, ids) && Agrees(t, history + answers, now)
  {
    if items == [] {
      assert history + [] == history;
    } else {
      var (before, answers) := AddItems(s, items[..|items| - 1], now, ids);
      AddItemsAgree(s, history, items[..|items| - 1], now, ids);
      AddItemAgrees(before, history + answers, items[|items| - 1], now, ids);
      var answer := AddItem(before, items[|items| - 1], now, ids).1;
      assert history + (answers + [answer]) == history + answers + [answer];
    }
  }

  lemma PruneAgrees(s: Store, history: seq<Answer>, now: Time, skipped: set<Key>)
    requires Agrees(s, history, now)
    ensures Agrees(PruneKeys(s, now, skipped), history, now)
  {
  }

  /** A sweep deletes exactly the expired keys, but for rows another transaction holds. */
  lemma PrunesTheExpired(s: Store, now: Time, skipped: set<Key>, key: Key)
    ensures var after := PruneKeys(s, now, skipped);
            && (key in after.keys <==> key in s.keys && (now < s.keys[key].expiresAt || key in skipped))
            && (key in after.keys ==> after.keys[key] == s.keys[key]) && after.calls == s.calls
  {
  }

  /** Whatever is pruned in between, the table gives every answer the reference gives. */
  lemma {:induction false} TableRefinesFirstClaim(ops: seq<Op>, ids: Ids)
    requires Ordered(ops)
    ensures var (s, answers) := Run(ops, ids);
            answers == RunReference(ops, ids) && (ops != [] ==> Agrees(s, answers, ops[|ops| - 1].at))
  {
    if ops != [] {
      var n := |ops| - 1;
      TableRefinesFirstClaim(ops[..n], ids);
      var (s, answers) := Run(ops[..n], ids);
      assert Agrees(s, answers, ops[n].at);
      match ops[n]
      case Batch(items, at) => AddItemsAgree(s, answers, items, at, ids);
      case Prune(at, skipped) => PruneAgrees(s, answers, at, skipped);
    }
  }

  function Batches(ops: seq<Op>): seq<Op> {
    if ops == [] then [] else
    Batches(ops[..|ops| - 1]) + if ops[|ops| - 1].Batch? then [ops[|ops| - 1]] else []
  }

  lemma {:induction false} BatchesKeepOrder(ops: seq<Op>)
    requires Ordered(ops)
    ensures Ordered(Batches(ops)) && forall i :: 0 <= i < |Batches(ops)| ==> Batches(ops)[i] in ops
  {
    if ops != [] { BatchesKeepOrder(ops[..|ops| - 1]); }
  }

  lemma {:induction false} ReferenceIgnoresPrunes(ops: seq<Op>, ids: Ids)
    ensures RunReference(Batches(ops), ids) == RunReference(ops, ids)
  {
    if ops != [] {
      var before := Batches(ops[..|ops| - 1]);
      ReferenceIgnoresPrunes(ops[..|ops| - 1], ids);
      if ops[|ops| - 1].Batch? {
        assert Batches(ops)[..|before|] == before;
      } else {
        assert Batches(ops) == before;
      }
    }
  }

  /** Pruning expired keys, whenever and however much of them, changes no answer. */
  lemma {:induction false} PruningChangesNothing(ops: seq<Op>, ids: Ids)
    requires Ordered(ops)
    ensures Run(ops, ids).1 == Run(Batches(ops), ids).1
  {
    BatchesKeepOrder(ops);
    TableRefinesFirstClaim(ops, ids);
    TableRefinesFirstClaim(Batches(ops), ids);
    ReferenceIgnoresPrunes(ops, ids);
  }

  // What callers see -----------------------------------------------------------------------------

  /** Every answer is the reference's for the answers before it. */
  ghost predicate Faithful(answers: seq<Answer>, ids: Ids) {
    forall k :: 0 <= k < |answers| ==> answers[k] == Reference(answers[..k], answers[k].item, answers[k].at, ids)
  }

  lemma {:induction false} ItemsAreFaithful(history: seq<Answer>, items: seq<Item>, at: Time, ids: Ids)
    requires Faithful(history, ids)
    ensures Faithful(ReferenceItems(history, items, at, ids), ids)
  {
    if items != [] {
      var before := ReferenceItems(history, items[..|items| - 1], at, ids);
      ItemsAreFaithful(history, items[..|items| - 1], at, ids);
      var after := ReferenceItems(history, items, at, ids);
      forall k | 0 <= k < |after| ensures after[k] == Reference(after[..k], after[k].item, after[k].at, ids) {
        assert after[..k] == before[..k];
      }
    }
  }

  lemma {:induction false} RunsAreFaithful(ops: seq<Op>, ids: Ids)
    ensures Faithful(RunReference(ops, ids), ids)
  {
    if ops != [] {
      RunsAreFaithful(ops[..|ops| - 1], ids);
      if ops[|ops| - 1].Batch? {
        ItemsAreFaithful(RunReference(ops[..|ops| - 1], ids), ops[|ops| - 1].items, ops[|ops| - 1].at, ids);
      }
    }
  }

  lemma {:induction false} FirstClaimIsAClaim(history: seq<Answer>, key: Key, at: Time) returns (i: nat)
    requires FirstClaim(history, key, at).Some?
    ensures i < |history| && Claims(history[i], key, at) && FirstClaim(history, key, at) == Some(history[i].id)
    ensures forall j :: 0 <= j < i ==> !Claims(history[j], key, at)
  {
    if Claims(history[0], key, at) { return 0; }
    var rest := FirstClaimIsAClaim(history[1..], key, at);
    i := rest + 1;
  }

  lemma {:induction false} NoClaimNoHolder(history: seq<Answer>, key: Key, at: Time, i: nat)
    requires i < |history| && Claims(history[i], key, at)
    ensures FirstClaim(history, key, at).Some?
  {
    if !Claims(history[0], key, at) { NoClaimNoHolder(history[1..], key, at, i - 1); }
  }

  /** The earlier answer enqueued a job under the same queue and idempotency key, less than its TTL
      before. */
  predicate Precedes(earlier: Answer, later: Answer) {
    && earlier.item.queue == later.item.queue && earlier.item.idempotencyKey == later.item.idempotencyKey
    && later.item.idempotencyKey.Some? && !earlier.deduplicated && later.at < earlier.at + earlier.item.ttl
  }

  /** An answer is deduplicated exactly when an earlier one enqueued a job under its key and
      that claim has not expired; it then names that job, so one key gives one job per TTL. */
  lemma {:induction false} FirstClaimWins(ops: seq<Op>, ids: Ids, i: nat, k: nat)
    requires Ordered(ops) && i < k < |Run(ops, ids).1|
    ensures var answers := Run(ops, ids).1;
            Precedes(answers[i], answers[k]) ==> answers[k].deduplicated && answers[k].id == answers[i].id
  {
    var answers := Run(ops, ids).1;
    TableRefinesFirstClaim(ops, ids);
    RunsAreFaithful(ops, ids);
    if answers[k].item.idempotencyKey.Some? && Claims(answers[i], KeyOf(answers[k].item), answers[k].at) {
      var key := KeyOf(answers[k].item);
      NoClaimNoHolder(answers[..k], key, answers[k].at, i);
      var first := FirstClaimIsAClaim(answers[..k], key, answers[k].at);
      if first < i {
        // The earlier claim also held the key when answer i was given.
        TimesRise(ops, ids, i, k);
        NoClaimNoHolder(answers[..i], key, answers[i].at, first);
        assert false;
      }
    }
  }

  lemma {:induction false} DeduplicatedOnlyByAClaim(ops: seq<Op>, ids: Ids, k: nat) returns (i: nat)
    requires Ordered(ops) && k < |Run(ops, ids).1| && Run(ops, ids).1[k].deduplicated
    ensures var answers := Run(ops, ids).1;
            i < k && Precedes(answers[i], answers[k]) && answers[k].id == answers[i].id
  {
    TableRefinesFirstClaim(ops, ids);
    RunsAreFaithful(ops, ids);
    var answers := Run(ops, ids).1;
    i := FirstClaimIsAClaim(answers[..k], KeyOf(answers[k].item), answers[k].at);
  }

  lemma {:induction false} ReferenceTimes(history: seq<Answer>, items: seq<Item>, at: Time, ids: Ids)
    ensures var after := ReferenceItems(history, items, at, ids);
            && |after| == |history| + |items| && after[..|history|] == history
            && forall k :: |history| <= k < |after| ==> after[k].at == at && after[k].item == items[k - |history|]
  {
    if items != [] { ReferenceTimes(history, items[..|items| - 1], at, ids); }
  }

  lemma {:induction false} TimesRise(ops: seq<Op>, ids: Ids, i: nat, k: nat)
    requires Ordered(ops) && i < k < |RunReference(ops, ids)|
    ensures RunReference(ops, ids)[i].at <= RunReference(ops, ids)[k].at
  {
    var n := |ops| - 1;
    var before := RunReference(ops[..n], ids);
    if ops[n].Batch? { ReferenceTimes(before, ops[n].items, ops[n].at, ids); }
    if k < |before| {
      TimesRise(ops[..n], ids, i, k);
    } else if i < |before| {
      AnswersAreNotNewer(ops[..n], ids, i, ops[n].at);
    }
  }

  lemma {:induction false} AnswersAreNotNewer(ops: seq<Op>, ids: Ids, i: nat, at: Time)
    requires i < |RunReference(ops, ids)| && forall j :: 0 <= j < |ops| ==> ops[j].at <= at
    ensures RunReference(ops, ids)[i].at <= at
  {
    var n := |ops| - 1;
    var before := RunReference(ops[..n], ids);
    if ops[n].Batch? { ReferenceTimes(before, ops[n].items, ops[n].at, ids); }
    if i < |before| { AnswersAreNotNewer(ops[..n], ids, i, at); }
  }

  lemma {:induction false} AnswersFit(s: Store, items: seq<Item>, now: Time, ids: Ids, i: nat)
    requires i < |items|
    ensures AddItems(s, items, now, ids).1[i].item == items[i] && AddItems(s, items, now, ids).1[i].at == now
  {
    if i < |items| - 1 { AnswersFit(s, items[..|items| - 1], now, ids, i); }
  }

  /** A batch answers its items one for one and in their order, after all earlier answers. */
  lemma {:induction false} AnswersKeepOrder(ops: seq<Op>, ids: Ids, items: seq<Item>, at: Time)
    ensures var before := Run(ops, ids).1;
            var after := Run(ops + [Batch(items, at)], ids).1;
            && |after| == |before| + |items| && after[..|before|] == before
            && forall i :: 0 <= i < |items| ==> after[|before| + i].item == items[i] && after[|before| + i].at == at
  {
    assert (ops + [Batch(items, at)])[..|ops|] == ops;
    var s := Run(ops, ids).0;
    forall i | 0 <= i < |items|
      ensures AddItems(s, items, at, ids).1[i].item == items[i] && AddItems(s, items, at, ids).1[i].at == at
    {
      AnswersFit(s, items, at, ids, i);
    }
  }

  // The loop ---------------------------------------------------------------------------------------

  class KeyTable {
    var keys: map<Key, KeyRow>
    var calls: nat

    ghost function View(): Store
      reads this
    {
      Store(keys, calls)
    }

    constructor ()
      ensures View() == Store(map[], 0)
    {
      keys, calls := map[], 0;
    }

    /** One transaction: `now` is its start, for every item. */
    method AddJobs(specs: seq<Item>, now: Time, ids: Ids) returns (rows: seq<Answer>)
      modifies this
      ensures (View(), rows) == AddItems(old(View()), specs, now, ids)
    {
      rows := [];
      for ord := 0 to |specs|
        invariant (View(), rows) == AddItems(old(View()), specs[..ord], now, ids)
      {
        var item := specs[ord];
        assert specs[..ord + 1][..ord] == specs[..ord];
        var jobId: Option<JobId> := None;
        if item.idempotencyKey.Some? {
          var key := KeyOf(item);
          if key !in keys || keys[key].expiresAt <= now { keys := keys[key := KeyRow(None, now + item.ttl)]; }
          jobId := keys[key].job;
        }
        if jobId.Some? {
          rows := rows + [Answer(item, now, jobId.value, true)];
        } else {
          var added := ids(calls);
          calls := calls + 1;
          if item.idempotencyKey.Some? {
            keys := keys[KeyOf(item) := keys[KeyOf(item)].(job := Some(added))];
          }
          rows := rows + [Answer(item, now, added, false)];
        }
      }
      assert specs[..|specs|] == specs;
    }

    method PruneExpired(now: Time, skipped: set<Key>)
      modifies this`keys
      ensures View() == PruneKeys(old(View()), now, skipped)
    {
      keys := map key | key in keys && (keys[key].expiresAt > now || key in skipped) :: keys[key];
    }
  }
}
