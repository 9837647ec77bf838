/**
 * How many round trips `_save_batch` and `_save` make: one per batch when
 * nothing conflicts, and a number logarithmic in the batch size when a single
 * record of the batch conflicts with a stored row.
 */
module RoundTrips {
  import opened Chunks
  import opened Models
  import opened BatchWriter

  /** A sequence of `n` ones: one round trip for each of `n` batches. */
  function Ones(n: nat): (s: seq<nat>)
    ensures |s| == n && forall i :: 0 <= i < n ==> s[i] == 1
  {
    seq(n, _ => 1)
  }

  /**
   * A batch the store accepts whole, cut in two: the store accepts the first
   * part, and then the second part on top of the first.
   */
  lemma AcceptsAppend(table: ModelClass, rows: set<RowKey>, a: seq<Record>, b: seq<Record>)
    requires Accepts(table, rows, a + b)
    ensures Accepts(table, rows, a)
    ensures Accepts(table, rows + KeysOf(table, a), b)
  {
    var ab := a + b;
    DistinctAppend(table, a, b);
    forall i | 0 <= i < |a|
      ensures KeyOf(table, a[i]) !in rows
    {
      assert ab[i] == a[i];
    }
    forall j | 0 <= j < |b|
      ensures KeyOf(table, b[j]) !in rows
    {
      assert ab[|a| + j] == b[j];
    }
  }

  /** Sub-batches the store accepts: one round trip each, and every key stored. */
  lemma {:induction false} CleanSubBatches(table: ModelClass, ops: ModelOps, rows: set<RowKey>, subBatches: seq<seq<Record>>,
                                           bound: nat, roundTrips: nat)
    requires forall i :: 0 <= i < |subBatches| ==> |subBatches[i]| < bound
    requires Accepts(table, rows, Flatten(subBatches))
    ensures WriteSubBatches(table, ops, rows, subBatches, bound, roundTrips)
            == Written(Ok(roundTrips + |subBatches|), rows + KeysOf(table, Flatten(subBatches)))
    decreases |subBatches|
  {
    if subBatches != [] {
      AcceptsAppend(table, rows, subBatches[0], Flatten(subBatches[1..]));
      KeysOfFlatten(table, subBatches);
      CleanSubBatches(table, ops, rows + KeysOf(table, subBatches[0]), subBatches[1..], bound, roundTrips + 1);
    }
  }

  /** Batches the store accepts: `_save` logs one round trip for each. */
  lemma {:induction false} CleanChunks(table: ModelClass, ops: ModelOps, rows: set<RowKey>, batches: seq<seq<Record>>, trips: seq<nat>)
    requires Accepts(table, rows, Flatten(batches))
    ensures WriteChunks(table, ops, rows, batches, trips)
            == Written(Ok(trips + Ones(|batches|)), rows + KeysOf(table, Flatten(batches)))
    decreases |batches|
  {
    if batches != [] {
      AcceptsAppend(table, rows, batches[0], Flatten(batches[1..]));
      KeysOfFlatten(table, batches);
      var rows' := rows + KeysOf(table, batches[0]);
      assert WriteBatch(table, ops, rows, batches[0]) == Written(Ok(1), rows');
      assert WriteChunks(table, ops, rows, batches, trips) == WriteChunks(table, ops, rows', batches[1..], trips + [1]);
      CleanChunks(table, ops, rows', batches[1..], trips + [1]);
      assert [1] + Ones(|batches| - 1) == Ones(|batches|);
      assert trips + [1] + Ones(|batches| - 1) == trips + Ones(|batches|);
    } else {
      assert trips + Ones(0) == trips;
      assert rows + KeysOf(table, Flatten(batches)) == rows;
    }
  }

  /**
   * `_save` of N records none of which conflicts: exactly ceil(N / BATCH_SIZE)
   * batches, each written in one round trip, and all N keys stored.
   */
  lemma CleanSaveRoundTrips(table: ModelClass, ops: ModelOps, rows: set<RowKey>, items: seq<Record>)
    requires Accepts(table, rows, items)
    ensures WriteItems(table, ops, rows, items)
            == Written(Ok(Ones(CeilDiv(|items|, BatchSize))), rows + KeysOf(table, items))
  {
    var chunks := SplitEvery(BatchSize, items);
    SplitEveryFlatten(BatchSize, items);
    SplitEveryLengths(BatchSize, items);
    assert |chunks| == |Lengths(chunks)| == CeilDiv(|items|, BatchSize);
    CleanChunks(table, ops, rows, chunks, []);
    assert [] + Ones(|chunks|) == Ones(CeilDiv(|items|, BatchSize));
  }

  /**
   * `add_all` files a list under the class of its first record, so a bucket
   * can hold records of other classes; `_save_batch` inserts them all into
   * the table of the class being saved. A stored `Issue` row with the
   * unique values of an `Issue` record filed under `SharedText` is no
   * conflict: the batch goes in with one round trip.
   */
  lemma ForeignRecordJoinsTable(ops: ModelOps, a: Record, b: Record)
    requires a.model == SharedText && b.model == Issue && a.unique != b.unique
    ensures var rows := {RowKey(Issue, b.unique)};
            WriteBatch(SharedText, ops, rows, [a, b])
            == Written(Ok(1), rows + {RowKey(SharedText, a.unique), RowKey(SharedText, b.unique)})
  {
    var rows := {RowKey(Issue, b.unique)};
    assert KeysOf(SharedText, [a, b]) == {RowKey(SharedText, a.unique), RowKey(SharedText, b.unique)} by {
      assert [a, b][1..] == [b];
      assert KeysOf(SharedText, [b]) == {RowKey(SharedText, b.unique)} + KeysOf(SharedText, []);
    }
    assert Accepts(SharedText, rows, [a, b]);
  }

  /** 100000 records: batches of 30000, 30000, 30000 and 10000; without conflicts, four round trips. */
  lemma HundredThousandRecords(table: ModelClass, ops: ModelOps, rows: set<RowKey>, items: seq<Record>)
    requires |items| == 100000
    ensures Lengths(SplitEvery(BatchSize, items)) == [30000, 30000, 30000, 10000]
    ensures Accepts(table, rows, items) ==>
              WriteItems(table, ops, rows, items) == Written(Ok([1, 1, 1, 1]), rows + KeysOf(table, items))
  {
    SplitEveryLengths(BatchSize, items);
    assert ChunkSizes(BatchSize, 10000) == [10000];
    assert ChunkSizes(BatchSize, 40000) == [30000, 10000];
    assert ChunkSizes(BatchSize, 70000) == [30000, 30000, 10000];
    if Accepts(table, rows, items) {
      CleanSaveRoundTrips(table, ops, rows, items);
      assert CeilDiv(|items|, BatchSize) == |ChunkSizes(BatchSize, |items|)| == 4;
      assert Ones(4) == [1, 1, 1, 1];
    }
  }

  /** The record at index `d` is the only one of the batch whose key is already stored. */
  ghost predicate OnlyConflict(table: ModelClass, rows: set<RowKey>, batch: seq<Record>, d: nat)
  {
    && d < |batch|
    && KeyOf(table, batch[d]) in rows
    && (forall i :: 0 <= i < |batch| && i != d ==> KeyOf(table, batch[i]) !in rows)
  }

  /** `merge` resolves `r` against the store whenever a row with its key exists. */
  ghost predicate MergeResolves(table: ModelClass, ops: ModelOps, r: Record)
  {
    forall rows: set<RowKey> :: KeyOf(table, r) in rows ==> ops.merge(rows, [r]) == []
  }

  /**
   * The round trips of a batch of `n` records whose only conflicting record
   * sits at index `d`, when `merge` resolves it: the failed attempt, then
   * the sub-batches.
   */
  function OneConflictTrips(n: nat, d: nat): (t: nat)
    requires d < n
    decreases n, 1
  {
    if n == 1 then 1
    else 1 + ConflictInChunks(ChunkSizes(SubBatchSize(n), n), d, n)
  }

  /**
   * Sub-batches of the given sizes, the record at index `d` of their
   * concatenation being the conflicting one: one round trip for each clean
   * sub-batch, and `OneConflictTrips` for the one holding `d`.
   */
  function ConflictInChunks(sizes: seq<nat>, d: nat, bound: nat): (t: nat)
    requires forall i :: 0 <= i < |sizes| ==> sizes[i] < bound
    requires d < Sum(sizes)
    decreases bound, 0, |sizes|
  {
    if d < sizes[0] then OneConflictTrips(sizes[0], d) + (|sizes| - 1)
    else 1 + ConflictInChunks(sizes[1..], d - sizes[0], bound)
  }

  lemma FlattenLength(chunks: seq<seq<Record>>)
    ensures |Flatten(chunks)| == Sum(Lengths(chunks))
  {
    if chunks != [] {
      assert Lengths(chunks)[1..] == Lengths(chunks[1..]);
      FlattenLength(chunks[1..]);
    }
  }

  lemma DistinctAppend(table: ModelClass, a: seq<Record>, b: seq<Record>)
    requires DistinctKeys(table, a + b)
    ensures DistinctKeys(table, a) && DistinctKeys(table, b)
    ensures forall j :: 0 <= j < |b| ==> KeyOf(table, b[j]) !in KeysOf(table, a)
  {
    var ab := a + b;
    forall i, j | 0 <= i < j < |a|
      ensures KeyOf(table, a[i]) != KeyOf(table, a[j])
    {
      assert ab[i] == a[i] && ab[j] == a[j];
    }
    forall i, j | 0 <= i < j < |b|
      ensures KeyOf(table, b[i]) != KeyOf(table, b[j])
    {
      assert ab[|a| + i] == b[i] && ab[|a| + j] == b[j];
    }
    forall j | 0 <= j < |b|
      ensures KeyOf(table, b[j]) !in KeysOf(table, a)
    {
      KeysOfMembers(table, a, KeyOf(table, b[j]));
      forall i | 0 <= i < |a|
        ensures KeyOf(table, a[i]) != KeyOf(table, b[j])
      {
        assert ab[i] == a[i] && ab[|a| + j] == b[j];
      }
    }
  }

  /**
   * A batch with distinct keys whose only conflict is the record at `d`,
   * which `merge` resolves: `_save_batch` stores every key and makes exactly
   * `OneConflictTrips(|batch|, d)` round trips.
   */
  lemma {:induction false} OneConflictRoundTrips(table: ModelClass, ops: ModelOps, rows: set<RowKey>, batch: seq<Record>, d: nat)
    requires DistinctKeys(table, batch)
    requires OnlyConflict(table, rows, batch, d)
    requires MergeResolves(table, ops, batch[d])
    ensures WriteBatch(table, ops, rows, batch)
            == Written(Ok(OneConflictTrips(|batch|, d)), rows + KeysOf(table, batch))
    decreases |batch|, 2, 0, 0
  {
    if |batch| == 1 {
      SingleDuplicateMerged(table, ops, rows, batch);
    } else {
      SplitOnConflict(table, ops, rows, batch, d);
    }
  }

  /** A single record whose key is stored: one failed attempt, after which `merge` resolves it. */
  lemma SingleDuplicateMerged(table: ModelClass, ops: ModelOps, rows: set<RowKey>, batch: seq<Record>)
    requires |batch| == 1 && KeyOf(table, batch[0]) in rows
    requires MergeResolves(table, ops, batch[0])
    ensures WriteBatch(table, ops, rows, batch) == Written(Ok(1), rows + KeysOf(table, batch))
  {
    assert !Accepts(table, rows, batch);
    assert ops.merge(rows, [batch[0]]) == [];
    assert KeysOf(table, batch) == {KeyOf(table, batch[0])} + KeysOf(table, []);
  }

  /** A batch of two or more with one conflict: the failed attempt, then the sub-batches. */
  lemma {:induction false} SplitOnConflict(table: ModelClass, ops: ModelOps, rows: set<RowKey>, batch: seq<Record>, d: nat)
    requires |batch| >= 2
    requires DistinctKeys(table, batch)
    requires OnlyConflict(table, rows, batch, d)
    requires MergeResolves(table, ops, batch[d])
    ensures WriteBatch(table, ops, rows, batch)
            == Written(Ok(OneConflictTrips(|batch|, d)), rows + KeysOf(table, batch))
    decreases |batch|, 1, 0, 0
  {
    assert !Accepts(table, rows, batch);
    var size := SubBatchSize(|batch|);
    var chunks := SplitEvery(size, batch);
    SplitEveryFlatten(size, batch);
    SplitEveryLengths(size, batch);
    assert WriteBatch(table, ops, rows, batch) == WriteSubBatches(table, ops, rows, chunks, |batch|, 1);
    OneConflictInChunks(table, ops, rows, chunks, |batch|, 1, d);
    assert OneConflictTrips(|batch|, d) == 1 + ConflictInChunks(Lengths(chunks), d, |batch|);
  }

  lemma {:induction false} OneConflictInChunks(table: ModelClass, ops: ModelOps, rows: set<RowKey>, chunks: seq<seq<Record>>,
                                               bound: nat, roundTrips: nat, d: nat)
    requires forall i :: 0 <= i < |chunks| ==> |chunks[i]| < bound
    requires DistinctKeys(table, Flatten(chunks))
    requires OnlyConflict(table, rows, Flatten(chunks), d)
    requires MergeResolves(table, ops, Flatten(chunks)[d])
    ensures d < Sum(Lengths(chunks))
    ensures WriteSubBatches(table, ops, rows, chunks, bound, roundTrips)
            == Written(Ok(roundTrips + ConflictInChunks(Lengths(chunks), d, bound)),
                       rows + KeysOf(table, Flatten(chunks)))
    decreases bound, 0, |chunks|, 1
  {
    FlattenLength(chunks);
    if d < |chunks[0]| {
      ConflictInFirstSubBatch(table, ops, rows, chunks, bound, roundTrips, d);
      ConflictInChunksFirst(Lengths(chunks), d, bound);
    } else {
      ConflictInLaterSubBatch(table, ops, rows, chunks, bound, roundTrips, d);
    }
  }

  /** The first sub-batch holds the conflict: it costs `OneConflictTrips`, and each later one a single trip. */
  lemma {:induction false} ConflictInFirstSubBatch(table: ModelClass, ops: ModelOps, rows: set<RowKey>, chunks: seq<seq<Record>>,
                                                   bound: nat, roundTrips: nat, d: nat)
    requires forall i :: 0 <= i < |chunks| ==> |chunks[i]| < bound
    requires DistinctKeys(table, Flatten(chunks))
    requires OnlyConflict(table, rows, Flatten(chunks), d)
    requires MergeResolves(table, ops, Flatten(chunks)[d])
    requires chunks != [] && d < |chunks[0]|
    ensures WriteSubBatches(table, ops, rows, chunks, bound, roundTrips)
            == Written(Ok(roundTrips + OneConflictTrips(|chunks[0]|, d) + |chunks| - 1),
                       rows + KeysOf(table, Flatten(chunks)))
    decreases bound, 0, |chunks|, 0
  {
    var first, rest := chunks[0], Flatten(chunks[1..]);
    assert Flatten(chunks) == first + rest;
    ConflictInFirstChunk(table, rows, first, rest, d);
    var t := OneConflictTrips(|first|, d);
    var rows' := rows + KeysOf(table, first);
    OneConflictRoundTrips(table, ops, rows, first, d);
    WriteSubBatchesStep(table, ops, rows, chunks, bound, roundTrips, t, rows');
    CleanSubBatches(table, ops, rows', chunks[1..], bound, roundTrips + t);
    KeysOfFlatten(table, chunks);
  }

  /** A clean first sub-batch costs one trip; the conflict is then in the remaining ones. */
  lemma {:induction false} ConflictInLaterSubBatch(table: ModelClass, ops: ModelOps, rows: set<RowKey>, chunks: seq<seq<Record>>,
                                                   bound: nat, roundTrips: nat, d: nat)
    requires forall i :: 0 <= i < |chunks| ==> |chunks[i]| < bound
    requires DistinctKeys(table, Flatten(chunks))
    requires OnlyConflict(table, rows, Flatten(chunks), d)
    requires MergeResolves(table, ops, Flatten(chunks)[d])
    requires chunks != [] && |chunks[0]| <= d
    ensures d < Sum(Lengths(chunks))
    ensures WriteSubBatches(table, ops, rows, chunks, bound, roundTrips)
            == Written(Ok(roundTrips + ConflictInChunks(Lengths(chunks), d, bound)),
                       rows + KeysOf(table, Flatten(chunks)))
    decreases bound, 0, |chunks|, 0
  {
    FlattenLength(chunks);
    var first, rest := chunks[0], Flatten(chunks[1..]);
    assert Flatten(chunks) == first + rest;
    ConflictInLaterChunk(table, rows, first, rest, d);
    var rows' := rows + KeysOf(table, first);
    CleanSubBatchStep(table, ops, rows, chunks, bound, roundTrips);
    OneConflictInChunks(table, ops, rows', chunks[1..], bound, roundTrips + 1, d - |first|);
    var sizes := Lengths(chunks);
    assert sizes[0] == |first| && sizes[1..] == Lengths(chunks[1..]);
    ConflictInChunksLater(sizes, d, bound);
    KeysOfFlatten(table, chunks);
  }

  lemma WriteSubBatchesStep(table: ModelClass, ops: ModelOps, rows: set<RowKey>, chunks: seq<seq<Record>>,
                            bound: nat, roundTrips: nat, t: nat, rows': set<RowKey>)
    requires forall i :: 0 <= i < |chunks| ==> |chunks[i]| < bound
    requires chunks != [] && WriteBatch(table, ops, rows, chunks[0]) == Written(Ok(t), rows')
    ensures WriteSubBatches(table, ops, rows, chunks, bound, roundTrips)
            == WriteSubBatches(table, ops, rows', chunks[1..], bound, roundTrips + t)
  {
  }

  /** The first sub-batch is clean: it costs one round trip and stores its keys. */
  lemma CleanSubBatchStep(table: ModelClass, ops: ModelOps, rows: set<RowKey>, chunks: seq<seq<Record>>,
                          bound: nat, roundTrips: nat)
    requires forall i :: 0 <= i < |chunks| ==> |chunks[i]| < bound
    requires chunks != [] && Accepts(table, rows, chunks[0])
    ensures WriteSubBatches(table, ops, rows, chunks, bound, roundTrips)
            == WriteSubBatches(table, ops, rows + KeysOf(table, chunks[0]), chunks[1..], bound, roundTrips + 1)
  {
  }

  /** The conflict lies in the first part: the first part has it as its only conflict, and the rest is clean. */
  lemma ConflictInFirstChunk(table: ModelClass, rows: set<RowKey>, first: seq<Record>, rest: seq<Record>, d: nat)
    requires DistinctKeys(table, first + rest)
    requires OnlyConflict(table, rows, first + rest, d)
    requires d < |first|
    ensures DistinctKeys(table, first)
    ensures (first + rest)[d] == first[d]
    ensures OnlyConflict(table, rows, first, d)
    ensures Accepts(table, rows + KeysOf(table, first), rest)
  {
    var all := first + rest;
    DistinctAppend(table, first, rest);
    forall i | 0 <= i < |first| && i != d
      ensures KeyOf(table, first[i]) !in rows
    {
      assert all[i] == first[i];
    }
    forall j | 0 <= j < |rest|
      ensures KeyOf(table, rest[j]) !in rows + KeysOf(table, first)
    {
      assert all[|first| + j] == rest[j];
    }
  }

  /** The conflict lies in the rest: the first part is clean, and the rest has it as its only conflict. */
  lemma ConflictInLaterChunk(table: ModelClass, rows: set<RowKey>, first: seq<Record>, rest: seq<Record>, d: nat)
    requires DistinctKeys(table, first + rest)
    requires OnlyConflict(table, rows, first + rest, d)
    requires |first| <= d
    ensures Accepts(table, rows, first)
    ensures DistinctKeys(table, rest)
    ensures (first + rest)[d] == rest[d - |first|]
    ensures OnlyConflict(table, rows + KeysOf(table, first), rest, d - |first|)
  {
    var all := first + rest;
    DistinctAppend(table, first, rest);
    forall i | 0 <= i < |first|
      ensures KeyOf(table, first[i]) !in rows
    {
      assert all[i] == first[i];
    }
    forall i | 0 <= i < |rest| && i != d - |first|
      ensures KeyOf(table, rest[i]) !in rows + KeysOf(table, first)
    {
      assert all[|first| + i] == rest[i];
    }
    assert all[d] == rest[d - |first|];
  }

  lemma ConflictInChunksFirst(sizes: seq<nat>, d: nat, bound: nat)
    requires forall i :: 0 <= i < |sizes| ==> sizes[i] < bound
    requires sizes != [] && d < sizes[0]
    ensures d < Sum(sizes)
    ensures ConflictInChunks(sizes, d, bound) == OneConflictTrips(sizes[0], d) + |sizes| - 1
  {
  }

  lemma ConflictInChunksLater(sizes: seq<nat>, d: nat, bound: nat)
    requires forall i :: 0 <= i < |sizes| ==> sizes[i] < bound
    requires sizes != [] && sizes[0] <= d < Sum(sizes)
    ensures ConflictInChunks(sizes, d, bound) == 1 + ConflictInChunks(sizes[1..], d - sizes[0], bound)
  {
  }

  /** How many times a batch of `n` records can be split before its sub-batches hold one record. */
  function Depth(n: nat): nat
    decreases n
  {
    if n <= 1 then 0 else 1 + Depth(SubBatchSize(n))
  }

  function Pow4(k: nat): nat
  {
    if k == 0 then 1 else 4 * Pow4(k - 1)
  }

  /** `Depth(n)` is the ceiling of the base-4 logarithm of n: 4^(Depth(n)-1) < n <= 4^Depth(n). */
  lemma {:induction false} DepthIsLogarithmic(n: nat)
    requires n >= 1
    ensures n <= Pow4(Depth(n))
    ensures n >= 2 ==> Pow4(Depth(n) - 1) < n
    decreases n
  {
    if n >= 2 {
      var c := SubBatchSize(n);
      CeilDivByFour(n);
      DepthIsLogarithmic(c);
    }
  }

  lemma {:induction false} DepthMonotone(a: nat, b: nat)
    requires a <= b
    ensures Depth(a) <= Depth(b)
    decreases b
  {
    if a >= 2 {
      CeilDivByFour(a);
      CeilDivByFour(b);
      DepthMonotone(SubBatchSize(a), SubBatchSize(b));
    }
  }

  /**
   * A single conflicting record among n costs at most 4 * Depth(n) + 1 round
   * trips: each split level adds the failed attempt and at most three clean
   * sub-batches.
   */
  lemma {:induction false} OneConflictTripsBound(n: nat, d: nat)
    requires d < n
    ensures OneConflictTrips(n, d) <= 4 * Depth(n) + 1
    decreases n, 1
  {
    if n > 1 {
      var size := SubBatchSize(n);
      SubBatchSizeIsCeiling(n);
      ConflictInChunksBound(ChunkSizes(size, n), d, n, size);
    }
  }

  lemma {:induction false} ConflictInChunksBound(sizes: seq<nat>, d: nat, bound: nat, size: nat)
    requires forall i :: 0 <= i < |sizes| ==> sizes[i] <= size < bound
    requires d < Sum(sizes)
    ensures ConflictInChunks(sizes, d, bound) <= |sizes| - 1 + 4 * Depth(size) + 1
    decreases bound, 0, |sizes|
  {
    if d < sizes[0] {
      OneConflictTripsBound(sizes[0], d);
      DepthMonotone(sizes[0], size);
    } else {
      ConflictInChunksBound(sizes[1..], d - sizes[0], bound, size);
    }
  }

  /**
   * One conflicting record among distinct others, which `merge` resolves:
   * `_save_batch` succeeds in O(log4 n) round trips, not O(n).
   */
  lemma OneConflictIsLogarithmic(table: ModelClass, ops: ModelOps, rows: set<RowKey>, batch: seq<Record>, d: nat)
    requires DistinctKeys(table, batch)
    requires OnlyConflict(table, rows, batch, d)
    requires MergeResolves(table, ops, batch[d])
    ensures var w := WriteBatch(table, ops, rows, batch);
            && w.outcome.Ok?
            && w.outcome.value <= 4 * Depth(|batch|) + 1
            && Pow4(Depth(|batch|)) < 4 * |batch|
  {
    OneConflictRoundTrips(table, ops, rows, batch, d);
    OneConflictTripsBound(|batch|, d);
    DepthIsLogarithmic(|batch|);
  }

  /** Two records, one of which conflicts: the failed attempt and two single-record attempts. */
  lemma TwoRecordsOneConflict(d: nat)
    requires d < 2
    ensures OneConflictTrips(2, d) == 3
  {
    assert SubBatchSize(2) == 1;
    assert ChunkSizes(1, 2) == [1, 1] by {
      assert ChunkSizes(1, 1) == [1];
    }
    var sizes := [1, 1];
    assert sizes[1..] == [1];
    assert ConflictInChunks(sizes, d, 2) == 2;
  }

  /** Eight records are cut into four sub-batches of two. */
  lemma EightRecordsSplit()
    ensures SubBatchSize(8) == 2
    ensures ChunkSizes(2, 8) == [2, 2, 2, 2]
  {
    assert ChunkSizes(2, 2) == [2];
    assert ChunkSizes(2, 4) == [2, 2];
    assert ChunkSizes(2, 6) == [2, 2, 2];
  }

  /** Four sub-batches of two with one conflict: three trips for its pair and one for each other pair. */
  lemma FourPairsOneConflict(d: nat)
    requires d < 8
    ensures ConflictInChunks([2, 2, 2, 2], d, 8) == 6
  {
    TwoRecordsOneConflict(d % 2);
    var s := [2, 2, 2, 2];
    if d >= 2 {
      assert s[1..] == [2, 2, 2];
      if d >= 4 {
        assert s[1..][1..] == [2, 2];
        if d >= 6 {
          assert s[1..][1..][1..] == [2];
        }
      }
    }
  }

  /** With eight records one conflict costs seven round trips, wherever it sits. */
  lemma OneConflictTripsOfEight(d: nat)
    requires d < 8
    ensures OneConflictTrips(8, d) == 7
  {
    EightRecordsSplit();
    FourPairsOneConflict(d);
  }

  /**
   * Eight records, one of which conflicts: four sub-batches of two; the
   * conflicting one costs an attempt and two single-record attempts, the
   * other three one attempt each: 1 + 3 + 3 = 7 round trips.
   */
  lemma EightRecordsOneConflict(table: ModelClass, ops: ModelOps, rows: set<RowKey>, batch: seq<Record>, d: nat)
    requires |batch| == 8
    requires DistinctKeys(table, batch)
    requires OnlyConflict(table, rows, batch, d)
    requires MergeResolves(table, ops, batch[d])
    ensures WriteBatch(table, ops, rows, batch) == Written(Ok(7), rows + KeysOf(table, batch))
  {
    OneConflictRoundTrips(table, ops, rows, batch, d);
    OneConflictTripsOfEight(d);
  }
}
