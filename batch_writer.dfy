/**
 * What `_save_batch` and `_save` do to the store, as functions of the store's
 * unique keys: one insert attempt per batch, and on a uniqueness conflict a
 * split into sub-batches (or, for a single record, a fresh `merge`).
 */
module BatchWriter {
  import opened Chunks
  import opened Models

  /** `BATCH_SIZE`: the most records `_save` hands to one `_save_batch` call. */
  const BatchSize: nat := 30000

  /** `BATCH_SPLIT_FACTOR`: how many sub-batches a conflicting batch is cut into. */
  const BatchSplitFactor: nat := 4

  /** A write either completes, or stops at a record `merge` could not resolve (the `ValueError`). */
  datatype Outcome<T> = Ok(value: T) | Unresolved(duplicate: Record)

  /** The outcome of a write together with the store's unique keys afterwards. */
  datatype Written<T> = Written(outcome: Outcome<T>, rows: set<RowKey>)

  /** The unique keys the records of a batch take in the table of `table`. */
  function KeysOf(table: ModelClass, batch: seq<Record>): set<RowKey>
  {
    if batch == [] then {} else {KeyOf(table, batch[0])} + KeysOf(table, batch[1..])
  }

  /** A key belongs to a batch exactly when some record of the batch has it. */
  lemma {:induction false} KeysOfMembers(table: ModelClass, batch: seq<Record>, k: RowKey)
    ensures k in KeysOf(table, batch) <==> exists i :: 0 <= i < |batch| && KeyOf(table, batch[i]) == k
    decreases |batch|
  {
    if batch != [] {
      KeysOfMembers(table, batch[1..], k);
      if k in KeysOf(table, batch[1..]) {
        var i :| 0 <= i < |batch[1..]| && KeyOf(table, batch[1..][i]) == k;
        assert KeyOf(table, batch[i + 1]) == k;
      }
      if exists i :: 0 <= i < |batch| && KeyOf(table, batch[i]) == k {
        var i :| 0 <= i < |batch| && KeyOf(table, batch[i]) == k;
        if i > 0 {
          assert KeyOf(table, batch[1..][i - 1]) == k;
        }
      }
    }
  }

  predicate DistinctKeys(table: ModelClass, batch: seq<Record>)
  {
    forall i, j :: 0 <= i < j < |batch| ==> KeyOf(table, batch[i]) != KeyOf(table, batch[j])
  }

  /**
   * The store takes a batch in one `bulk_insert_mappings(table, ...)` and
   * `commit` exactly when no record's key in that table is already stored and no two records share a key;
   * otherwise it raises `IntegrityError` and keeps nothing of the batch.
   */
  predicate Accepts(table: ModelClass, rows: set<RowKey>, batch: seq<Record>)
  {
    && (forall i :: 0 <= i < |batch| ==> KeyOf(table, batch[i]) !in rows)
    && DistinctKeys(table, batch)
  }

  /** A record the store still refuses and that `merge` reports as unresolved. */
  ghost predicate Unresolvable(table: ModelClass, ops: ModelOps, rows: set<RowKey>, r: Record)
  {
    KeyOf(table, r) in rows && |ops.merge(rows, [r])| != 0
  }

  lemma CeilDivByFour(n: nat)
    ensures CeilDiv(n, 4) == (n + 3) / 4
  {
    CeilDivClosedForm(n, 4);
  }

  lemma CeilDivAtMostFour(n: nat, size: nat)
    requires size >= 1 && n <= 4 * size
    ensures CeilDiv(n, size) <= 4
  {
    if n > size {
      if n - size > size {
        if n - 2 * size > size {
          assert CeilDiv(n - 3 * size, size) <= 1;
          assert CeilDiv(n - 2 * size, size) <= 2;
        }
      }
    }
  }

  /**
   * `-(len(batch) // -BATCH_SPLIT_FACTOR)`: at least 1 and, for two records
   * or more, below n, so the recursion terminates.
   */
  function SubBatchSize(n: nat): (size: nat)
    ensures n >= 1 ==> 1 <= size
    ensures n >= 2 ==> size < n
  {
    -FloorDiv(n, -(BatchSplitFactor as int))
  }

  /** The negated floor division is the ceiling of n / 4, and it cuts n records into at most four sub-batches. */
  lemma SubBatchSizeIsCeiling(n: nat)
    ensures SubBatchSize(n) == CeilDiv(n, BatchSplitFactor)
    ensures n >= 1 ==> CeilDiv(n, SubBatchSize(n)) <= BatchSplitFactor
  {
    CeilDivByFour(n);
    if n >= 1 {
      CeilDivAtMostFour(n, SubBatchSize(n));
    }
  }

  lemma {:induction false} KeysOfAppend(table: ModelClass, a: seq<Record>, b: seq<Record>)
    ensures KeysOf(table, a + b) == KeysOf(table, a) + KeysOf(table, b)
    decreases |a|
  {
    if a != [] {
      assert (a + b)[1..] == a[1..] + b;
      KeysOfAppend(table, a[1..], b);
    } else {
      assert a + b == b;
    }
  }

  lemma KeysOfFlatten(table: ModelClass, chunks: seq<seq<Record>>)
    requires chunks != []
    ensures KeysOf(table, Flatten(chunks)) == KeysOf(table, chunks[0]) + KeysOf(table, Flatten(chunks[1..]))
  {
    KeysOfAppend(table, chunks[0], Flatten(chunks[1..]));
  }

  /**
   * What a write leaves behind. On success every record of the batch is
   * either inserted or already stored (merged), so the store gains exactly
   * the batch's keys; on the error the offending record is one of the
   * batch, it still conflicts, `merge` still leaves it unresolved, and the
   * store holds at most the batch's keys on top of what it held.
   */
  ghost predicate Effect<T>(table: ModelClass, ops: ModelOps, rows: set<RowKey>, batch: seq<Record>, w: Written<T>)
  {
    && (w.outcome.Ok? ==> w.rows == rows + KeysOf(table, batch))
    && (w.outcome.Unresolved? ==>
          && w.outcome.duplicate in batch
          && Unresolvable(table, ops, w.rows, w.outcome.duplicate)
          && rows <= w.rows <= rows + KeysOf(table, batch))
  }

  /** `_save_batch(database, cls, batch)`: the round trips it makes and the store it leaves. */
  function WriteBatch(table: ModelClass, ops: ModelOps, rows: set<RowKey>, batch: seq<Record>): Written<nat>
    decreases |batch|, 1
  {
    if Accepts(table, rows, batch) then Written(Ok(1), rows + KeysOf(table, batch))
    else if |batch| == 1 then
      if |ops.merge(rows, [batch[0]])| == 0 then Written(Ok(1), rows)
      else Written(Unresolved(batch[0]), rows)
    else
      WriteSubBatches(table, ops, rows, SplitEvery(SubBatchSize(|batch|), batch), |batch|, 1)
  }

  /**
   * The loop `round_trips += self._save_batch(database, cls, sub_batch)`
   * over the sub-batches, from `roundTrips` attempts so far; it stops at
   * the first error.
   */
  function WriteSubBatches(table: ModelClass, ops: ModelOps, rows: set<RowKey>, subBatches: seq<seq<Record>>,
                           bound: nat, roundTrips: nat): Written<nat>
    requires forall i :: 0 <= i < |subBatches| ==> |subBatches[i]| < bound
    decreases bound, 0, |subBatches|
  {
    if subBatches == [] then Written(Ok(roundTrips), rows)
    else
      var first := WriteBatch(table, ops, rows, subBatches[0]);
      match first.outcome
      case Unresolved(_) => first
      case Ok(t) => WriteSubBatches(table, ops, first.rows, subBatches[1..], bound, roundTrips + t)
  }

  /**
   * `_save_batch` makes at least one round trip, and either stores exactly
   * the batch's keys or stops at a record `merge` cannot resolve.
   */
  lemma {:induction false} WriteBatchEffect(table: ModelClass, ops: ModelOps, rows: set<RowKey>, batch: seq<Record>)
    ensures var w := WriteBatch(table, ops, rows, batch);
            && (w.outcome.Ok? ==> w.outcome.value >= 1)
            && Effect(table, ops, rows, batch, w)
    decreases |batch|, 1
  {
    if !Accepts(table, rows, batch) && |batch| > 1 {
      var chunks := SplitEvery(SubBatchSize(|batch|), batch);
      WriteSubBatchesEffect(table, ops, rows, chunks, |batch|, 1);
      SplitEveryFlatten(SubBatchSize(|batch|), batch);
    }
  }

  /** The sub-batch loop adds at least one round trip per sub-batch and has the effect of their concatenation. */
  lemma {:induction false} WriteSubBatchesEffect(table: ModelClass, ops: ModelOps, rows: set<RowKey>, subBatches: seq<seq<Record>>,
                                                 bound: nat, roundTrips: nat)
    requires forall i :: 0 <= i < |subBatches| ==> |subBatches[i]| < bound
    ensures var w := WriteSubBatches(table, ops, rows, subBatches, bound, roundTrips);
            && (w.outcome.Ok? ==> w.outcome.value >= roundTrips + |subBatches|)
            && Effect(table, ops, rows, Flatten(subBatches), w)
    decreases bound, 0, |subBatches|
  {
    if subBatches != [] {
      KeysOfFlatten(table, subBatches);
      WriteBatchEffect(table, ops, rows, subBatches[0]);
      var first := WriteBatch(table, ops, rows, subBatches[0]);
      if first.outcome.Ok? {
        WriteSubBatchesEffect(table, ops, first.rows, subBatches[1..], bound, roundTrips + first.outcome.value);
      }
    }
  }

  /**
   * The loop of `_save` over `split_every(BATCH_SIZE, items)`, after the
   * batches that gave the round-trip counts `trips`; it stops at the first
   * error.
   */
  function WriteChunks(table: ModelClass, ops: ModelOps, rows: set<RowKey>, batches: seq<seq<Record>>,
                       trips: seq<nat>): Written<seq<nat>>
    decreases |batches|
  {
    if batches == [] then Written(Ok(trips), rows)
    else
      var first := WriteBatch(table, ops, rows, batches[0]);
      match first.outcome
      case Unresolved(d) => Written(Unresolved(d), first.rows)
      case Ok(t) => WriteChunks(table, ops, first.rows, batches[1..], trips + [t])
  }

  /** `_save`'s loop appends one round-trip count of at least 1 per batch and has the effect of all batches. */
  lemma {:induction false} WriteChunksEffect(table: ModelClass, ops: ModelOps, rows: set<RowKey>, batches: seq<seq<Record>>,
                                             trips: seq<nat>)
    ensures var w := WriteChunks(table, ops, rows, batches, trips);
            && (w.outcome.Ok? ==>
                  && |w.outcome.value| == |trips| + |batches|
                  && w.outcome.value[..|trips|] == trips
                  && (forall i :: |trips| <= i < |w.outcome.value| ==> w.outcome.value[i] >= 1))
            && Effect(table, ops, rows, Flatten(batches), w)
    decreases |batches|
  {
    if batches != [] {
      KeysOfFlatten(table, batches);
      WriteBatchEffect(table, ops, rows, batches[0]);
      var first := WriteBatch(table, ops, rows, batches[0]);
      if first.outcome.Ok? {
        var t := first.outcome.value;
        WriteChunksEffect(table, ops, first.rows, batches[1..], trips + [t]);
        var w := WriteChunks(table, ops, first.rows, batches[1..], trips + [t]);
        if w.outcome.Ok? {
          var v := w.outcome.value;
          assert v[..|trips|] == (trips + [t])[..|trips|] == trips;
          assert v[|trips|] == (trips + [t])[|trips|] == t;
        }
      }
    }
  }

  /** `_save` of the records `items`: the round trips of each batch, in order. */
  function WriteItems(table: ModelClass, ops: ModelOps, rows: set<RowKey>, items: seq<Record>): Written<seq<nat>>
  {
    WriteChunks(table, ops, rows, SplitEvery(BatchSize, items), [])
  }

  /**
   * `_save` sends ceil(N / BATCH_SIZE) batches, each taking at least one
   * round trip, and stores exactly the items' keys unless a duplicate
   * stays unresolved.
   */
  lemma WriteItemsEffect(table: ModelClass, ops: ModelOps, rows: set<RowKey>, items: seq<Record>)
    ensures var w := WriteItems(table, ops, rows, items);
            && (w.outcome.Ok? ==>
                  && |w.outcome.value| == CeilDiv(|items|, BatchSize)
                  && (forall i :: 0 <= i < |w.outcome.value| ==> w.outcome.value[i] >= 1))
            && Effect(table, ops, rows, items, w)
  {
    var chunks := SplitEvery(BatchSize, items);
    WriteChunksEffect(table, ops, rows, chunks, []);
    SplitEveryFlatten(BatchSize, items);
    SplitEveryLengths(BatchSize, items);
  }
}
