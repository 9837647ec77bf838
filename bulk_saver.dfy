/**
 * `BulkSaver`: buffers new records per model class and writes them in
 * `SAVING_CLASSES_ORDER`, reserving keys once, preparing every class, then
 * inserting each class in batches and retrying conflicting batches in
 * smaller pieces.
 */
module BulkSaving {
  import opened Chunks
  import opened Models
  import opened BatchWriter
  import opened SaverSpec
  import opened Stats

  /** The store (`DB`), reduced to the unique keys of the rows it holds. */
  class Database {
    var rows: set<RowKey>

    constructor (rows: set<RowKey>)
      ensures this.rows == rows
    {
      this.rows := rows;
    }
  }

  class BulkSaver {
    /** `primary_key_generator.reserve(session, saving_classes, item_counts)`, given the store it reads. */
    const reserve: (set<RowKey>, seq<ModelClass>, map<ModelClass, nat>) -> KeyAllocator

    /** `self.saving`: the pending records of each buffered class. */
    var saving: Buckets

    /** The steps `save_all` has taken so far, in order. */
    ghost var steps: seq<Step>

    ghost predicate Valid()
      reads this
    {
      HasAllBuckets(saving)
    }

    /** Every buffered class starts with an empty bucket, and no other class has one. */
    constructor (reserve: (set<RowKey>, seq<ModelClass>, map<ModelClass, nat>) -> KeyAllocator)
      ensures Valid()
      ensures forall c :: c in saving ==> saving[c] == []
      ensures this.reserve == reserve && steps == []
    {
      this.reserve := reserve;
      var buckets: Buckets := map[];
      var i := 0;
      while i < |SavingClassesOrder|
        invariant 0 <= i <= |SavingClassesOrder|
        invariant forall c :: c in buckets <==> c in SavingClassesOrder[..i]
        invariant forall c :: c in buckets ==> buckets[c] == []
      {
        assert SavingClassesOrder[..i + 1] == SavingClassesOrder[..i] + [SavingClassesOrder[i]];
        buckets := buckets[SavingClassesOrder[i] := []];
        i := i + 1;
      }
      assert SavingClassesOrder[..i] == SavingClassesOrder;
      saving := buckets;
      steps := [];
    }

    /**
     * `add`: appends the record to its class's bucket and leaves every other
     * bucket alone; a record of a class the saver does not buffer fails the
     * assertion and changes nothing.
     */
    method Add(item: Record) returns (ok: bool)
      requires Valid()
      modifies this`saving
      ensures Valid()
      ensures ok <==> item.model in SavingClassesOrder
      ensures ok ==> saving == old(saving)[item.model := old(saving)[item.model] + [item]]
      ensures !ok ==> saving == old(saving)
    {
      if item.model !in SavingClassesOrder {
        return false;
      }
      saving := saving[item.model := saving[item.model] + [item]];
      return true;
    }

    /**
     * `add_all`: an empty list changes nothing; otherwise the whole list goes
     * to the bucket of the first record's class, whatever the classes of the
     * others, and that class must be buffered.
     */
    method AddAll(items: seq<Record>) returns (ok: bool)
      requires Valid()
      modifies this`saving
      ensures Valid()
      ensures ok <==> items == [] || items[0].model in SavingClassesOrder
      ensures ok && items != [] ==> saving == old(saving)[items[0].model := old(saving)[items[0].model] + items]
      ensures !ok || items == [] ==> saving == old(saving)
    {
      if items == [] {
        return true;
      }
      var c := items[0].model;
      if c !in SavingClassesOrder {
        return false;
      }
      saving := saving[c := saving[c] + items];
      return true;
    }

    /** `get_items_to_add`: the bucket of a buffered class; any other class has none (the `KeyError`). */
    function ItemsToAdd(c: ModelClass): (items: Option<seq<Record>>)
      reads this
      requires Valid()
      ensures items.Some? <==> c in SavingClassesOrder
      ensures items.Some? ==> items.value == saving[c]
    {
      if c in saving then Some(saving[c]) else None
    }

    /** `_prepare`: the bucket becomes what `cls.prepare` returns, grouped by column list. */
    method Prepare(db: Database, c: ModelClass, ops: ModelOps, pk: KeyAllocator)
      requires Valid() && c in saving
      modifies this`saving, this`steps
      ensures Valid()
      ensures saving == old(saving)[c := PrepareBucket(ops, db.rows, pk, old(saving)[c])]
      ensures steps == old(steps) + [Prepared(c)]
    {
      saving := saving[c := PrepareBucket(ops, db.rows, pk, saving[c])];
      steps := steps + [Prepared(c)];
    }

    /**
     * `_save`: empties the bucket before writing anything, then writes its
     * records in batches of `BATCH_SIZE`, stopping at the first record
     * `merge` cannot resolve; returns the round trips of each batch.
     */
    method Save(db: Database, c: ModelClass, ops: ModelOps) returns (outcome: Outcome<seq<nat>>)
      requires Valid() && c in saving
      modifies this`saving, this`steps, db
      ensures Valid()
      ensures saving == old(saving)[c := []]
      ensures steps == old(steps) + [Saved(c)]
      ensures Written(outcome, db.rows) == WriteItems(c, ops, old(db.rows), old(saving)[c])
    {
      var items := saving[c];
      saving := saving[c := []];
      steps := steps + [Saved(c)];
      var batches := SplitEvery(BatchSize, items);
      var trips: seq<nat> := [];
      var i := 0;
      while i < |batches|
        invariant 0 <= i <= |batches|
        invariant saving == old(saving)[c := []] && steps == old(steps) + [Saved(c)]
        invariant WriteChunks(c, ops, db.rows, batches[i..], trips) == WriteItems(c, ops, old(db.rows), items)
      {
        assert batches[i..][0] == batches[i] && batches[i..][1..] == batches[i + 1..];
        var t := SaveBatch(db, c, ops, batches[i]);
        if t.Unresolved? {
          return Unresolved(t.duplicate);
        }
        trips := trips + [t.value];
        i := i + 1;
      }
      return Ok(trips);
    }

    /**
     * `_save_batch`: one insert of the whole batch into the table of `c`; on a conflict, a single
     * record is merged again and a larger batch is cut into sub-batches of
     * `-(n // -BATCH_SPLIT_FACTOR)` records, each saved the same way, their
     * round trips added to the first attempt.
     */
    method SaveBatch(db: Database, c: ModelClass, ops: ModelOps, batch: seq<Record>) returns (outcome: Outcome<nat>)
      modifies db
      ensures Written(outcome, db.rows) == WriteBatch(c, ops, old(db.rows), batch)
      decreases |batch|, 1
    {
      if Accepts(c, db.rows, batch) {
        db.rows := db.rows + KeysOf(c, batch);
        return Ok(1);
      }
      if |batch| == 1 {
        var duplicate := batch[0];
        if |ops.merge(db.rows, [duplicate])| == 0 {
          return Ok(1);
        }
        return Unresolved(duplicate);
      }
      var subBatchSize := SubBatchSize(|batch|);
      outcome := SaveSubBatches(db, c, ops, SplitEvery(subBatchSize, batch), |batch|);
    }

    /**
     * The loop of `_save_batch` over the sub-batches: each is saved with
     * `_save_batch` and its round trips are added to the one of the first
     * attempt; the loop stops at the first error.
     */
    method SaveSubBatches(db: Database, c: ModelClass, ops: ModelOps, subBatches: seq<seq<Record>>, bound: nat)
      returns (outcome: Outcome<nat>)
      requires forall i :: 0 <= i < |subBatches| ==> |subBatches[i]| < bound
      modifies db
      ensures Written(outcome, db.rows) == WriteSubBatches(c, ops, old(db.rows), subBatches, bound, 1)
      decreases bound, 0
    {
      var roundTrips: nat := 1;
      var i := 0;
      while i < |subBatches|
        invariant 0 <= i <= |subBatches|
        invariant WriteSubBatches(c, ops, db.rows, subBatches[i..], bound, roundTrips)
                  == WriteSubBatches(c, ops, old(db.rows), subBatches, bound, 1)
      {
        assert subBatches[i..][0] == subBatches[i] && subBatches[i..][1..] == subBatches[i + 1..];
        var t := SaveBatch(db, c, ops, subBatches[i]);
        if t.Unresolved? {
          return Unresolved(t.duplicate);
        }
        roundTrips := roundTrips + t.value;
        i := i + 1;
      }
      return Ok(roundTrips);
    }

    /**
     * `save_all`: reserves keys once for the classes with pending records,
     * prepares each of them in order, runs the hook, then saves each in
     * order, stopping at the first error. The store, the buckets and the
     * steps taken are those of the specification functions.
     */
    method SaveAll(db: Database, models: ModelClass -> ModelOps,
                   beforeSave: Option<set<RowKey> -> set<RowKey>>) returns (result: SaveAllResult)
      requires Valid()
      modifies this`saving, this`steps, db
      ensures Valid()
      ensures var run := SaveAllRun(reserve, models, old(db.rows), old(saving), beforeSave);
              && result == run.result
              && db.rows == run.rows
              && saving == run.buckets
              && steps == old(steps) + run.steps
    {
      ListedAreBuffered();
      var classes := SavingClasses(saving, SavingClassesOrder);
      var counts := ItemCounts(saving, classes);
      var pk := reserve(db.rows, classes, counts);
      steps := steps + [Reserved(classes, counts)];
      PrepareClasses(db, models, pk, classes);
      ghost var prepared := saving;
      ghost var hookSteps: seq<Step> := if beforeSave.Some? then [HookRan] else [];
      if beforeSave.Some? {
        db.rows := beforeSave.value(db.rows);
      }
      steps := steps + hookSteps;
      ghost var store := db.rows;
      result := SaveClasses(db, models, classes);
      ghost var swept := SaveEach(models, store, prepared, classes);
      SaveAllRunOf(reserve, models, old(db.rows), old(saving), beforeSave, classes, counts, pk, prepared, store, swept);
      SaveAllLog(old(steps), classes, counts, hookSteps, beforeSave.Some?, swept.attempted);
    }

    /** The first loop of `save_all`: `_prepare` for each class in turn. */
    method PrepareClasses(db: Database, models: ModelClass -> ModelOps, pk: KeyAllocator, classes: seq<ModelClass>)
      requires Valid()
      requires forall i :: 0 <= i < |classes| ==> classes[i] in saving
      modifies this`saving, this`steps
      ensures Valid()
      ensures saving == PrepareEach(models, db.rows, pk, old(saving), classes)
      ensures steps == old(steps) + PrepareSteps(classes)
    {
      var i := 0;
      while i < |classes|
        invariant 0 <= i <= |classes|
        invariant Valid()
        invariant PrepareEach(models, db.rows, pk, saving, classes[i..]) == PrepareEach(models, db.rows, pk, old(saving), classes)
        invariant steps == old(steps) + PrepareSteps(classes[..i])
      {
        PrepareEachStep(models, db.rows, pk, saving, classes, i);
        PrepareLogNext(steps, old(steps), classes, i);
        Prepare(db, classes[i], models(classes[i]), pk);
        i := i + 1;
      }
      assert classes[..i] == classes;
    }

    /** The second loop of `save_all`: `_save` for each class in turn, until one fails. */
    method SaveClasses(db: Database, models: ModelClass -> ModelOps, classes: seq<ModelClass>) returns (result: SaveAllResult)
      requires Valid()
      requires forall i :: 0 <= i < |classes| ==> classes[i] in saving
      modifies this`saving, this`steps, db
      ensures Valid()
      ensures var swept := SaveEach(models, old(db.rows), old(saving), classes);
              && result == swept.result
              && db.rows == swept.rows
              && saving == swept.buckets
              && steps == old(steps) + SaveSteps(classes[..swept.attempted])
    {
      var i := 0;
      while i < |classes|
        invariant 0 <= i <= |classes|
        invariant Valid() && saving.Keys == old(saving).Keys
        invariant steps == old(steps) + SaveSteps(classes[..i])
        invariant SaveEach(models, old(db.rows), old(saving), classes)
                  == var rest := SaveEach(models, db.rows, saving, classes[i..]); rest.(attempted := rest.attempted + i)
      {
        var c := classes[i];
        SaveLogNext(steps, old(steps), classes, i);
        ghost var rows := db.rows;
        ghost var buckets := saving;
        var outcome := Save(db, c, models(c));
        SaveEachNext(models, old(db.rows), old(saving), rows, buckets, classes, i, Written(outcome, db.rows));
        if outcome.Unresolved? {
          return Failed(c, outcome.duplicate);
        }
        i := i + 1;
      }
      return AllSaved;
    }

    /** `dump_stats`: one `name: count` line per buffered class, in `SAVING_CLASSES_ORDER` order. */
    method DumpStats() returns (stats: string)
      requires Valid()
      ensures stats == Render(Counts(saving, SavingClassesOrder))
    {
      ListedAreBuffered();
      stats := "";
      var i := 0;
      while i < |SavingClassesOrder|
        invariant 0 <= i <= |SavingClassesOrder|
        invariant stats == Render(Counts(saving, SavingClassesOrder[..i]))
      {
        var c := SavingClassesOrder[i];
        RenderAppend(Counts(saving, SavingClassesOrder[..i]), (Name(c), |saving[c]|));
        CountsAppend(saving, SavingClassesOrder, i);
        stats := stats + StatLine(Name(c), |saving[c]|);
        i := i + 1;
      }
      assert SavingClassesOrder[..i] == SavingClassesOrder;
    }
  }
}
