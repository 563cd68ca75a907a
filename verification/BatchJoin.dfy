/** Batch enqueue: the join that returns `add_jobs` rows in the order of their specs
    (src/enqueue-sql.ts:48-105, 216-235) and the loop that establishes what it relies on
    (src/create-job.ts:161-171, 353-406).

    Specs are canonical: run_at is NULL or one spelling of a time, max_attempts and priority
    are explicit, flags are a set. */
module BatchJoin {
  import opened Wrappers

  type Json = string
  type Time = int

  /** What unkeyed rows are matched by. */
  datatype Content = Content(payload: Json, runAt: Option<Time>, maxAttempts: int, priority: int, flags: set<string>)

  datatype Target = Target(identifier: string, lane: Option<string>)

  datatype Spec = Spec(target: Target, key: Option<string>, content: Content)

  /** A row `add_jobs` returned. */
  datatype Row = Row(id: nat, target: Target, key: Option<string>, content: Content)

  /** The text of a content: a JSON array followed by the payload. */
  type Fingerprint = Content -> string

  ghost predicate Faithful(fp: Fingerprint) {
    && (forall c :: |fp(c)| > 0 && fp(c)[0] == '[')
    && forall c, d :: fp(c) == fp(d) ==> c == d
  }

  /** The row of each spec, inserted in any order or found by its key: ids are distinct, an
      unkeyed row holds what its spec asked for, a keyed one holds at least the key and target. */
  predicate AddedFor(specs: seq<Spec>, rows: seq<Row>) {
    && |rows| == |specs|
    && (forall i, j :: 0 <= i < j < |rows| ==> rows[i].id != rows[j].id)
    && forall i :: 0 <= i < |rows| ==>
         && rows[i].target == specs[i].target && rows[i].key == specs[i].key
         && (specs[i].key.None? ==> rows[i].content == specs[i].content)
  }

  predicate DistinctKeys(specs: seq<Spec>) {
    forall i, j :: 0 <= i < j < |specs| && specs[i].key.Some? ==> specs[i].key != specs[j].key
  }

  /** Unkeyed specs of one content go to one target. */
  predicate Distinguishable(specs: seq<Spec>) {
    forall i, j :: 0 <= i < j < |specs| && Unkeyed(specs[i]) && Unkeyed(specs[j]) && specs[i].content == specs[j].content ==>
      specs[i].target == specs[j].target
  }

  /** JavaScript treats an empty key as none; SQL matches it as a key. */
  predicate Unkeyed(spec: Spec) { spec.key.None? || spec.key.value == "" }

  /** The target that `seen` holds for a content is the one of every unkeyed spec so far. */
  method AssertDistinguishable(specs: seq<Spec>) returns (ok: bool)
    ensures ok <==> Distinguishable(specs)
  {
    var seen: map<Content, Target> := map[];
    for n := 0 to |specs|
      invariant forall i :: 0 <= i < n && Unkeyed(specs[i]) ==>
                  specs[i].content in seen && seen[specs[i].content] == specs[i].target
      invariant forall c :: c in seen ==> exists i :: 0 <= i < n && Unkeyed(specs[i]) && specs[i].content == c
    {
      var spec := specs[n];
      if Unkeyed(spec) {
        if spec.content in seen && seen[spec.content] != spec.target { return false; }
        seen := seen[spec.content := spec.target];
      }
    }
    ok := true;
  }

  // Ranks ------------------------------------------------------------------------------------

  function Below(s: set<nat>, x: nat): set<nat> { set y | y in s && y < x }

  /** `row_number()` of x in an ordered partition. */
  function Rank(s: set<nat>, x: nat): nat { |Below(s, x)| + 1 }

  lemma RanksRise(s: set<nat>, x: nat, y: nat)
    requires x in s && y in s && x < y
    ensures Rank(s, x) < Rank(s, y)
  {
    SubsetsAreSmaller(Below(s, x), Below(s, y), x);
  }

  lemma SubsetsAreSmaller(a: set<nat>, b: set<nat>, x: nat)
    requires a <= b && x in b && x !in a
    ensures |a| < |b|
  {
    FitsInside(a, b - {x});
  }

  lemma {:induction false} FitsInside(a: set<nat>, b: set<nat>)
    requires a <= b
    ensures |a| <= |b|
    decreases |a|
  {
    if a != {} {
      var x :| x in a;
      FitsInside(a - {x}, b - {x});
    }
  }

  lemma RanksFit(s: set<nat>, x: nat)
    requires x in s
    ensures 1 <= Rank(s, x) <= |s|
  {
    SubsetsAreSmaller(Below(s, x), s, x);
  }

  /** Ranks number a partition without gaps. */
  lemma {:induction false} SomeoneHasRank(s: set<nat>, rank: nat) returns (x: nat)
    requires 1 <= rank <= |s|
    ensures x in s && Rank(s, x) == rank
    decreases |s|
  {
    var top := Largest(s);
    assert Below(s, top) == s - {top};
    if rank == |s| { return top; }
    x := SomeoneHasRank(s - {top}, rank);
    assert Below(s - {top}, x) == Below(s, x);
  }

  lemma {:induction false} Largest(s: set<nat>) returns (top: nat)
    requires s != {}
    ensures top in s && forall y :: y in s ==> y <= top
    decreases |s|
  {
    var x :| x in s;
    if s == {x} { return x; }
    assert s == s - {x} + {x};
    var other := Largest(s - {x});
    top := if other < x then x else other;
    forall y | y in s ensures y <= top {
      if y != x { assert y in s - {x}; }
    }
  }

  // Matches ----------------------------------------------------------------------------------

  function Alike(specs: seq<Spec>, c: Content): set<nat> {
    set i: nat | i < |specs| && specs[i].key.None? && specs[i].content == c
  }

  function AlikeIds(rows: seq<Row>, c: Content): set<nat> {
    set i: nat | i < |rows| && rows[i].key.None? && rows[i].content == c :: rows[i].id
  }

  function Digit(d: nat): char
    requires d < 10
  {
    ("0123456789")[d]
  }

  function Decimal(n: nat): string {
    if n < 10 then [Digit(n)] else Decimal(n / 10) + [Digit(n % 10)]
  }

  function Match(key: Option<string>, rank: nat, content: Content, fp: Fingerprint): string {
    if key.Some? then "k" + key.value else "c" + Decimal(rank) + fp(content)
  }

  function Wanted(specs: seq<Spec>, i: nat, fp: Fingerprint): string
    requires i < |specs|
  {
    Match(specs[i].key, Rank(Alike(specs, specs[i].content), i), specs[i].content, fp)
  }

  function Added(rows: seq<Row>, j: nat, fp: Fingerprint): string
    requires j < |rows|
  {
    Match(rows[j].key, Rank(AlikeIds(rows, rows[j].content), rows[j].id), rows[j].content, fp)
  }

  lemma {:induction false} DecimalIsDigits(n: nat)
    ensures Decimal(n) != [] && forall i :: 0 <= i < |Decimal(n)| ==> '0' <= Decimal(n)[i] <= '9'
  {
    if n >= 10 { DecimalIsDigits(n / 10); }
  }

  lemma {:induction false} DecimalIsInjective(m: nat, n: nat)
    requires Decimal(m) == Decimal(n)
    ensures m == n
  {
    DecimalIsDigits(m / 10);
    DecimalIsDigits(n / 10);
    if m >= 10 && n >= 10 {
      var a, b := Decimal(m / 10), Decimal(n / 10);
      assert a == Decimal(m)[..|Decimal(m)| - 1] && b == Decimal(n)[..|Decimal(n)| - 1];
      DecimalIsInjective(m / 10, n / 10);
      assert Digit(m % 10) == Decimal(m)[|Decimal(m)| - 1] && Digit(n % 10) == Decimal(n)[|Decimal(n)| - 1];
    } else {
      assert |Decimal(m)| == 1 || |Decimal(n)| == 1;
    }
  }

  lemma PrefixEnds(a: string, b: string, s: string, t: string)
    requires a + s == b + t && |a| <= |b| && s != [] && s[0] == '['
    requires forall i :: 0 <= i < |b| ==> b[i] != '['
    ensures a == b && s == t
  {
    assert (a + s)[|a|] == s[0];
    if |a| < |b| { assert false; }
    assert a == (a + s)[..|a|] && b == (b + t)[..|b|] && s == (a + s)[|a|..] && t == (b + t)[|b|..];
  }

  /** The one text column the join compares tells keys, ranks and contents apart. */
  lemma MatchIsInjective(key: Option<string>, rank: nat, c: Content, key2: Option<string>, rank2: nat, c2: Content,
                         fp: Fingerprint)
    requires Faithful(fp) && Match(key, rank, c, fp) == Match(key2, rank2, c2, fp)
    ensures key == key2 && (key.None? ==> rank == rank2 && c == c2)
  {
    var m, n := Match(key, rank, c, fp), Match(key2, rank2, c2, fp);
    assert (key.Some? <==> m[0] == 'k') && (key2.Some? <==> n[0] == 'k');
    if key.Some? {
      assert m[1..] == key.value && n[1..] == key2.value;
    } else {
      assert m == "c" + (Decimal(rank) + fp(c)) && n == "c" + (Decimal(rank2) + fp(c2));
      assert m[1..] == Decimal(rank) + fp(c) && n[1..] == Decimal(rank2) + fp(c2);
      DecimalIsDigits(rank);
      DecimalIsDigits(rank2);
      if |Decimal(rank)| <= |Decimal(rank2)| {
        PrefixEnds(Decimal(rank), Decimal(rank2), fp(c), fp(c2));
      } else {
        PrefixEnds(Decimal(rank2), Decimal(rank), fp(c2), fp(c));
      }
      DecimalIsInjective(rank, rank2);
    }
  }

  // The join ---------------------------------------------------------------------------------

  lemma OneMoreAlike(specs: seq<Spec>, c: Content)
    requires specs != []
    ensures var n := |specs| - 1;
            Alike(specs, c) == Alike(specs[..n], c) + if specs[n].key.None? && specs[n].content == c then {n as nat} else {}
  {
  }

  lemma OneMoreId(rows: seq<Row>, c: Content)
    requires rows != []
    ensures var n := |rows| - 1;
            AlikeIds(rows, c) == AlikeIds(rows[..n], c) + if rows[n].key.None? && rows[n].content == c then {rows[n].id} else {}
  {
    var n := |rows| - 1;
    var more := if rows[n].key.None? && rows[n].content == c then {rows[n].id} else {};
    forall id | id in AlikeIds(rows, c) ensures id in AlikeIds(rows[..n], c) + more {
      var i: nat :| i < |rows| && rows[i].key.None? && rows[i].content == c && rows[i].id == id;
      if i < n { assert rows[..n][i] == rows[i]; }
    }
    forall id | id in AlikeIds(rows[..n], c) ensures id in AlikeIds(rows, c) {
      var i: nat :| i < n && rows[..n][i].key.None? && rows[..n][i].content == c && rows[..n][i].id == id;
      assert rows[i] == rows[..n][i];
    }
  }

  lemma LastIdIsNew(rows: seq<Row>, c: Content)
    requires rows != [] && forall i, j :: 0 <= i < j < |rows| ==> rows[i].id != rows[j].id
    ensures rows[|rows| - 1].id !in AlikeIds(rows[..|rows| - 1], c)
  {
  }

  lemma {:induction false} AsManyIds(specs: seq<Spec>, rows: seq<Row>, c: Content)
    requires AddedFor(specs, rows)
    ensures |Alike(specs, c)| == |AlikeIds(rows, c)|
  {
    if specs != [] {
      var n := |specs| - 1;
      AsManyIds(specs[..n], rows[..n], c);
      OneMoreAlike(specs, c);
      OneMoreId(rows, c);
      LastIdIsNew(rows, c);
      if specs[n].key.None? && specs[n].content == c {
        assert n !in Alike(specs[..n], c);
      }
    } else {
      assert Alike(specs, c) == {} && AlikeIds(rows, c) == {};
    }
  }

  /** One spec finds its row: by key, or the row of its content with its rank. */
  lemma FindRow(specs: seq<Spec>, rows: seq<Row>, i: nat, fp: Fingerprint) returns (j: nat)
    requires AddedFor(specs, rows) && i < |specs|
    ensures j < |rows| && Wanted(specs, i, fp) == Added(rows, j, fp)
    ensures rows[j].key == specs[i].key && (specs[i].key.None? ==> rows[j].content == specs[i].content)
  {
    if specs[i].key.Some? { return i; }
    var c := specs[i].content;
    RanksFit(Alike(specs, c), i);
    AsManyIds(specs, rows, c);
    var id := SomeoneHasRank(AlikeIds(rows, c), Rank(Alike(specs, c), i));
    j :| j < |rows| && rows[j].key.None? && rows[j].content == c && rows[j].id == id;
  }

  /** Two rows never share a match, nor do two specs. */
  lemma RowsDiffer(specs: seq<Spec>, rows: seq<Row>, j: nat, k: nat, fp: Fingerprint)
    requires AddedFor(specs, rows) && DistinctKeys(specs) && Faithful(fp)
    requires j < |rows| && k < |rows| && Added(rows, j, fp) == Added(rows, k, fp)
    ensures j == k
  {
    var a, b := rows[j], rows[k];
    var s := AlikeIds(rows, a.content);
    MatchIsInjective(a.key, Rank(s, a.id), a.content, b.key, Rank(AlikeIds(rows, b.content), b.id), b.content, fp);
    if j != k && a.key.None? {
      assert a.id in s && b.id in s;
      if a.id < b.id { RanksRise(s, a.id, b.id); } else { RanksRise(s, b.id, a.id); }
    }
  }

  lemma SpecsDiffer(specs: seq<Spec>, i: nat, k: nat, fp: Fingerprint)
    requires DistinctKeys(specs) && Faithful(fp)
    requires i < |specs| && k < |specs| && Wanted(specs, i, fp) == Wanted(specs, k, fp)
    ensures i == k
  {
    var a, b := specs[i], specs[k];
    var s := Alike(specs, a.content);
    MatchIsInjective(a.key, Rank(s, i), a.content, b.key, Rank(Alike(specs, b.content), k), b.content, fp);
    if i != k && a.key.None? {
      assert i in s && k in s;
      if i < k { RanksRise(s, i, k); } else { RanksRise(s, k, i); }
    }
  }

  /** `rowOf[i]` is the one row joined to spec i. */
  ghost predicate Joined(specs: seq<Spec>, rows: seq<Row>, rowOf: seq<nat>, fp: Fingerprint)
    requires |rows| == |specs|
  {
    && |rowOf| == |specs|
    && forall i :: 0 <= i < |specs| ==>
         rowOf[i] < |rows|
         && forall j :: 0 <= j < |rows| ==> (Wanted(specs, i, fp) == Added(rows, j, fp) <==> j == rowOf[i])
  }

  /** Row `j` meets spec `i`'s join condition and holds what the spec asked for. */
  ghost predicate Suits(specs: seq<Spec>, rows: seq<Row>, i: nat, j: nat, fp: Fingerprint)
    requires i < |specs| == |rows|
  {
    && j < |rows| && Wanted(specs, i, fp) == Added(rows, j, fp) && rows[j].key == specs[i].key
    && (specs[i].key.None? ==> rows[j].content == specs[i].content)
  }

  lemma {:induction false} FindRows(specs: seq<Spec>, rows: seq<Row>, fp: Fingerprint, n: nat) returns (rowOf: seq<nat>)
    requires AddedFor(specs, rows) && DistinctKeys(specs) && Distinguishable(specs) && Faithful(fp) && n <= |specs|
    ensures |rowOf| == n && forall i :: 0 <= i < n ==> Suits(specs, rows, i, rowOf[i], fp)
  {
    rowOf := [];
    if 0 < n {
      var before := FindRows(specs, rows, fp, n - 1);
      var j := FindRow(specs, rows, n - 1, fp);
      rowOf := before + [j];
    }
  }

  /** However Graphile orders its inserts and whatever existing rows the keys hit, the join
      gives every spec exactly one row and every row to one spec, in spec order, with the
      spec's key, content, task and lane. */
  lemma {:induction false} JoinIsABijection(specs: seq<Spec>, rows: seq<Row>, fp: Fingerprint) returns (rowOf: seq<nat>)
    requires AddedFor(specs, rows) && DistinctKeys(specs) && Distinguishable(specs) && Faithful(fp)
    ensures Joined(specs, rows, rowOf, fp)
    ensures forall i, k :: 0 <= i < k < |specs| ==> rowOf[i] != rowOf[k]
    ensures forall i :: 0 <= i < |specs| ==>
              var row := rows[rowOf[i]];
              && row.target == specs[i].target && row.key == specs[i].key
              && (specs[i].key.None? ==> row.content == specs[i].content)
              && (specs[i].key.Some? ==> rowOf[i] == i)
  {
    rowOf := FindRows(specs, rows, fp, |specs|);
    assert forall i :: 0 <= i < |specs| ==> Suits(specs, rows, i, rowOf[i], fp);
    forall i, j | 0 <= i < |specs| && 0 <= j < |rows|
                  && Wanted(specs, i, fp) == Added(rows, j, fp)
      ensures j == rowOf[i]
    {
      RowsDiffer(specs, rows, j, rowOf[i], fp);
    }
    forall i, k | 0 <= i < k < |specs| ensures rowOf[i] != rowOf[k] {
      if rowOf[i] == rowOf[k] { SpecsDiffer(specs, i, k, fp); }
    }
    forall i | 0 <= i < |specs|
      ensures rows[rowOf[i]].target == specs[i].target && (specs[i].key.Some? ==> rowOf[i] == i)
    {
      if specs[i].key.Some? {
        assert specs[rowOf[i]].key == specs[i].key;
      } else {
        assert specs[rowOf[i]].content == specs[i].content;
      }
    }
  }

  /** The check on keyless specs alone; `Distinguishable` also asks it of empty keys. */
  predicate Separable(specs: seq<Spec>) {
    forall i, j :: 0 <= i < j < |specs| && specs[i].key.None? && specs[j].key.None? && specs[i].content == specs[j].content ==>
      specs[i].target == specs[j].target
  }

  /** Joined rows go to the task and lane their spec asked for. */
  ghost predicate RespectsTargets(specs: seq<Spec>, rows: seq<Row>, fp: Fingerprint) {
    |rows| == |specs|
    && forall i, j :: 0 <= i < |specs| && 0 <= j < |rows| && Wanted(specs, i, fp) == Added(rows, j, fp) ==>
         rows[j].target == specs[i].target
  }

  /** The refused batches are the ones that some insertion order would hand the wrong job:
      every order respects tasks and lanes if and only if equal content implies equal target. */
  lemma {:induction false} SafeExactlyWhenSeparable(specs: seq<Spec>, fp: Fingerprint)
    requires DistinctKeys(specs) && Faithful(fp)
    ensures Separable(specs) <==> forall rows :: AddedFor(specs, rows) ==> RespectsTargets(specs, rows, fp)
  {
    if Separable(specs) {
      forall rows | AddedFor(specs, rows) ensures RespectsTargets(specs, rows, fp) {
        SeparableIsSafe(specs, rows, fp);
      }
    } else {
      var i, j :| 0 <= i < j < |specs| && specs[i].key.None? && specs[j].key.None?
                  && specs[i].content == specs[j].content && specs[i].target != specs[j].target;
      var rows := Swapped(specs, i, j);
      SwappedMisleads(specs, i, j, fp);
      assert AddedFor(specs, rows) && !RespectsTargets(specs, rows, fp);
    }
  }

  lemma SeparableIsSafe(specs: seq<Spec>, rows: seq<Row>, fp: Fingerprint)
    requires AddedFor(specs, rows) && DistinctKeys(specs) && Faithful(fp) && Separable(specs)
    ensures RespectsTargets(specs, rows, fp)
  {
    forall i, j | 0 <= i < |specs| && 0 <= j < |rows| && Wanted(specs, i, fp) == Added(rows, j, fp)
      ensures rows[j].target == specs[i].target
    {
      MatchIsInjective(specs[i].key, Rank(Alike(specs, specs[i].content), i), specs[i].content,
                       rows[j].key, Rank(AlikeIds(rows, rows[j].content), rows[j].id), rows[j].content, fp);
      if specs[i].key.None? { assert specs[j].content == specs[i].content; }
    }
  }

  /** Rows inserted in spec order, but for the two that trade places. */
  function Swapped(specs: seq<Spec>, i: nat, j: nat): (rows: seq<Row>)
    requires i < j < |specs|
  {
    seq(|specs|, k requires 0 <= k < |specs| =>
      Row(if k == i then j else if k == j then i else k, specs[k].target, specs[k].key, specs[k].content))
  }

  lemma SwappedMisleads(specs: seq<Spec>, i: nat, j: nat, fp: Fingerprint)
    requires i < j < |specs| && specs[i].key.None? && specs[j].key.None?
    requires specs[i].content == specs[j].content && specs[i].target != specs[j].target
    ensures AddedFor(specs, Swapped(specs, i, j)) && !RespectsTargets(specs, Swapped(specs, i, j), fp)
  {
    var rows, c := Swapped(specs, i, j), specs[i].content;
    forall k: nat | k in Alike(specs, c) ensures k in AlikeIds(rows, c) {
      var from := if k == i then j else if k == j then i else k;
      assert rows[from].id == k;
    }
    assert AlikeIds(rows, c) == Alike(specs, c);
    assert Wanted(specs, i, fp) == Added(rows, j, fp);
  }

  // resolveMany --------------------------------------------------------------------------------

  datatype Mode = Replace | PreserveRunAt | UnsafeDedupe

  /** One item after its options were derived. */
  datatype Item = Item(key: Option<string>, mode: Option<Mode>, idempotencyKey: Option<string>, payload: Json)

  /** A spec as the batch carries it; `mode` is set again for the idempotent path only. */
  datatype BatchSpec = BatchSpec(identifier: string, key: Option<string>, mode: Option<Mode>,
                                 idempotencyKey: Option<string>, payload: Json)

  datatype Many =
    | Accepted(specs: seq<BatchSpec>, preserveRunAt: bool, idempotent: bool)
    | BadMode(at: nat)
    | SharedKey(first: nat, at: nat)

  function ModeOf(item: Item): Mode { item.mode.GetOr(Replace) }

  /** Keyed items share one mode that `add_jobs` knows. */
  predicate OneMode(items: seq<Item>) {
    && (forall i :: 0 <= i < |items| && items[i].key.Some? ==> !ModeOf(items[i]).UnsafeDedupe?)
    && forall i, j :: 0 <= i < j < |items| && items[i].key.Some? && items[j].key.Some? ==> ModeOf(items[i]) == ModeOf(items[j])
  }

  predicate OwnKeys(items: seq<Item>) {
    forall i, j :: 0 <= i < j < |items| && items[i].key.Some? ==> items[i].key != items[j].key
  }

  predicate Carries(specs: seq<BatchSpec>, items: seq<Item>, name: string) {
    |specs| == |items| && forall i :: 0 <= i < |items| ==>
      specs[i] == BatchSpec(name, items[i].key, None, items[i].idempotencyKey, items[i].payload)
  }

  lemma OneMoreItem(items: seq<Item>, n: nat)
    requires n < |items| && OneMode(items[..n]) && OwnKeys(items[..n])
    ensures OneMode(items[..n + 1]) <==>
              items[n].key.None?
              || (!ModeOf(items[n]).UnsafeDedupe?
                  && forall i :: 0 <= i < n && items[i].key.Some? ==> ModeOf(items[i]) == ModeOf(items[n]))
    ensures OwnKeys(items[..n + 1]) <==>
              forall i :: 0 <= i < n && items[i].key.Some? ==> items[i].key != items[n].key
  {
    var more := items[..n + 1];
    assert forall i :: 0 <= i < n ==> more[i] == items[..n][i];
    assert more[n] == items[n];
  }

  lemma Refuses(items: seq<Item>, n: nat)
    requires n < |items| && !(OneMode(items[..n + 1]) && OwnKeys(items[..n + 1]))
    ensures !(OneMode(items) && OwnKeys(items))
  {
  }

  /** What the loop below knows of the first `n` items. */
  ghost predicate Seen(items: seq<Item>, n: nat, keys: map<string, nat>, keyMode: Option<Mode>)
    requires n <= |items|
  {
    && (forall i :: 0 <= i < n && items[i].key.Some? ==>
          && items[i].key.value in keys && keys[items[i].key.value] == i && keyMode == Some(ModeOf(items[i])))
    && (forall k :: k in keys ==> keys[k] < n && items[keys[k]].key == Some(k))
    && (keyMode.Some? ==> exists i :: 0 <= i < n && items[i].key.Some? && keyMode == Some(ModeOf(items[i])))
  }

  /** The loop's two checks of an item decide whether the prefix stays acceptable. */
  lemma ChecksDecide(items: seq<Item>, n: nat, keys: map<string, nat>, keyMode: Option<Mode>)
    requires n < |items| && OneMode(items[..n]) && OwnKeys(items[..n]) && Seen(items, n, keys, keyMode)
    ensures OneMode(items[..n + 1]) <==>
              items[n].key.Some? ==>
                !ModeOf(items[n]).UnsafeDedupe? && (keyMode.Some? ==> keyMode.value == ModeOf(items[n]))
    ensures OwnKeys(items[..n + 1]) <==> (items[n].key.Some? ==> items[n].key.value !in keys)
  {
    OneMoreItem(items, n);
  }

  lemma SeesOneMore(items: seq<Item>, n: nat, keys: map<string, nat>, keyMode: Option<Mode>)
    requires n < |items| && Seen(items, n, keys, keyMode)
    requires items[n].key.Some? ==>
               items[n].key.value !in keys && (keyMode.Some? ==> keyMode.value == ModeOf(items[n]))
    ensures if items[n].key.Some? then Seen(items, n + 1, keys[items[n].key.value := n], Some(ModeOf(items[n])))
            else Seen(items, n + 1, keys, keyMode)
  {
  }

  lemma CarriesOneMore(specs: seq<BatchSpec>, items: seq<Item>, n: nat, name: string)
    requires n < |items| && Carries(specs, items[..n], name)
    ensures Carries(specs + [BatchSpec(name, items[n].key, None, items[n].idempotencyKey, items[n].payload)], items[..n + 1], name)
  {
    assert forall i :: 0 <= i < n ==> items[..n][i] == items[i];
  }

  /** What the accepted specs say of their items. */
  lemma Resolves(specs: seq<BatchSpec>, items: seq<Item>, name: string, keys: map<string, nat>, keyMode: Option<Mode>)
    requires Carries(specs, items, name) && Seen(items, |items|, keys, keyMode)
    ensures forall i :: 0 <= i < |items| && items[i].key.Some? ==>
              (keyMode == Some(PreserveRunAt) <==> ModeOf(items[i]) == PreserveRunAt)
    ensures (exists i :: 0 <= i < |specs| && specs[i].idempotencyKey.Some?)
       <==> exists i :: 0 <= i < |items| && items[i].idempotencyKey.Some?
  {
    assert forall i :: 0 <= i < |items| ==> specs[i].idempotencyKey == items[i].idempotencyKey;
  }

  method AnyIdempotent(specs: seq<BatchSpec>) returns (idempotent: bool)
    ensures idempotent <==> exists i :: 0 <= i < |specs| && specs[i].idempotencyKey.Some?
  {
    idempotent := false;
    for i := 0 to |specs|
      invariant idempotent <==> exists k :: 0 <= k < i && specs[k].idempotencyKey.Some?
    {
      if specs[i].idempotencyKey.Some? { idempotent := true; }
    }
  }

  method ResolveMany(name: string, items: seq<Item>) returns (r: Many)
    ensures r.Accepted? <==> OneMode(items) && OwnKeys(items)
    ensures r.Accepted? ==>
              && Carries(r.specs, items, name)
              && (forall i :: 0 <= i < |items| && items[i].key.Some? ==>
                    (r.preserveRunAt <==> ModeOf(items[i]) == PreserveRunAt))
              && (r.idempotent <==> exists i :: 0 <= i < |items| && items[i].idempotencyKey.Some?)
    ensures r.SharedKey? ==> r.first < r.at < |items| && items[r.first].key.Some? && items[r.first].key == items[r.at].key
    ensures r.BadMode? ==> r.at < |items| && items[r.at].key.Some? && !OneMode(items[..r.at + 1])
    ensures !r.Accepted? ==> OneMode(items[..r.at]) && OwnKeys(items[..r.at])
  {
    var specs: seq<BatchSpec> := [];
    var keys: map<string, nat> := map[];
    var keyMode: Option<Mode> := None;
    for index := 0 to |items|
      invariant Carries(specs, items[..index], name)
      invariant OneMode(items[..index]) && OwnKeys(items[..index])
      invariant Seen(items, index, keys, keyMode)
    {
      var item := items[index];
      ChecksDecide(items, index, keys, keyMode);
      if item.key.Some? {
        var mode := ModeOf(item);
        if mode.UnsafeDedupe? || (keyMode.Some? && keyMode.value != mode) {
          Refuses(items, index);
          return BadMode(index);
        }
        if item.key.value in keys {
          Refuses(items, index);
          return SharedKey(keys[item.key.value], index);
        }
        SeesOneMore(items, index, keys, keyMode);
        keyMode := Some(mode);
        keys := keys[item.key.value := index];
      } else {
        SeesOneMore(items, index, keys, keyMode);
      }
      CarriesOneMore(specs, items, index, name);
      specs := specs + [BatchSpec(name, item.key, None, item.idempotencyKey, item.payload)];
    }
    assert items[..|items|] == items;
    var idempotent := AnyIdempotent(specs);
    Resolves(specs, items, name, keys, keyMode);
    r := Accepted(specs, keyMode == Some(PreserveRunAt), idempotent);
  }

  function WithBatchKeyMode(specs: seq<BatchSpec>, preserveRunAt: bool): seq<BatchSpec> {
    seq(|specs|, i requires 0 <= i < |specs| =>
      if preserveRunAt && specs[i].key.Some? then specs[i].(mode := Some(PreserveRunAt)) else specs[i])
  }

  /** Enqueued item by item, each keyed item of an accepted batch gets the mode it asked for, and an
      item without key is enqueued as it is. */
  lemma BatchKeepsItsModes(items: seq<Item>, specs: seq<BatchSpec>, name: string, preserveRunAt: bool, i: nat)
    requires OneMode(items) && Carries(specs, items, name) && i < |items|
    requires forall k :: 0 <= k < |items| && items[k].key.Some? ==> (preserveRunAt <==> ModeOf(items[k]) == PreserveRunAt)
    ensures |WithBatchKeyMode(specs, preserveRunAt)| == |items|
    ensures var spec := WithBatchKeyMode(specs, preserveRunAt)[i];
            && spec == specs[i].(mode := spec.mode)
            && if items[i].key.Some? then spec.mode.GetOr(Replace) == ModeOf(items[i]) else spec == specs[i]
  {
    assert items[i].key.Some? ==> !ModeOf(items[i]).UnsafeDedupe?;
  }
}
