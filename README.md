# BulkSaver, modelled in Dafny

This project models the bulk saver of SAPP (`sapp/bulk_saver.py`): the
component that buffers the records of an analysis run and then writes them
to the database in bulk.

It has three parts:

- **Buffering.** `self.saving` maps each class of the fixed
  `SAVING_CLASSES_ORDER` list to its pending records. `add`, `add_all`,
  `get_items_to_add` and `dump_stats` act on this map.
- **`save_all`.** It takes the classes with pending records, in list order.
  It asks the primary-key generator to reserve ids for all of them at once.
  It then runs `_prepare` on every class: `cls.prepare`, then a sort by
  column list. The optional `before_save` hook runs next. Last, it runs
  `_save` on every class: `_save` empties the bucket, then writes it in
  batches of `BATCH_SIZE` (30000).
- **The duplicate-key retry in `_save_batch`.** A batch that hits a
  uniqueness conflict is cut into sub-batches of `-(n // -4)` records, each
  retried the same way. A single conflicting record goes through
  `cls.merge` again. If `merge` still cannot resolve it, `_save_batch`
  raises `ValueError`.

The database is reduced to the set of unique keys it holds (`Database.rows`).
An insert is accepted exactly when no key of the batch is already stored and
no two records of the batch share a key (`BatchWriter.Accepts`). `_save_batch`
inserts every record of a bucket into the table of the class being saved, so
a key is that class paired with the record's unique values (`Models.KeyOf`),
whatever class the record itself belongs to.

Files:

| File | Module | Contents |
|---|---|---|
| `models.dfy` | `Models` | Model classes, records, row keys, and `prepare`/`merge` as function values |
| `chunks.dfy` | `Chunks` | `split_every`, ceiling division and Python's floor division |
| `ordering.dfy` | `Ordering` | Python's `<` on lists of strings, and `sorted` with a key |
| `decimal.dfy` | `Decimal` | The `%d` conversion |
| `batch_writer.dfy` | `BatchWriter` | `_save_batch` and `_save` as functions of the store |
| `round_trips.dfy` | `RoundTrips` | Round-trip counts, with and without a conflict |
| `saver_spec.dfy` | `SaverSpec` | `save_all` as functions: classes handled, buckets, writes, step order |
| `stats.dfy` | `Stats` | The `dump_stats` text and a reader for it |
| `bulk_saver.dfy` | `BulkSaving` | The `BulkSaver` class: methods with loops, proved against the functions above |

The methods of `BulkSaving.BulkSaver` update the `saving` field in place.
Records and buckets are values, not shared objects. The store is a `Database` object whose `rows` field
the write methods update. Each method's `ensures` ties its result and the new
state to a specification function. The lemmas in `SaverSpec`, `BatchWriter`,
`RoundTrips` and `Stats` state what those functions guarantee.

## Model

| member | source | states |
|---|---|---|
| BulkSaving.BulkSaver.constructor | sapp/bulk_saver.py:70-78 | Every class of `SAVING_CLASSES_ORDER` gets an empty bucket, and no other class has one. |
| BulkSaving.BulkSaver.Add | sapp/bulk_saver.py:81-85 | Succeeds iff the record's class is buffered. On success it appends the record to the end of exactly that class's bucket. On failure (the assertion) nothing changes. |
| BulkSaving.BulkSaver.AddAll | sapp/bulk_saver.py:88-93 | An empty list succeeds and changes nothing. Otherwise it succeeds iff the first record's class is buffered, and the whole list then extends that one bucket. |
| BulkSaving.BulkSaver.ItemsToAdd | sapp/bulk_saver.py:97-98 | Returns a bucket iff the class is buffered, and then it is that class's current bucket. Any other class has no entry (the `KeyError`). |
| BulkSaving.BulkSaver.Prepare | sapp/bulk_saver.py:132-140 | Replaces only this class's bucket, with the sorted output of `prepare`, and logs one `Prepared` step. |
| BulkSaving.BulkSaver.Save | sapp/bulk_saver.py:144-157 | Empties the class's bucket, then writes the old records batch by batch. Its outcome and final store equal `WriteItems` on the old bucket. |
| BulkSaving.BulkSaver.SaveBatch | sapp/bulk_saver.py:168-201 | The round trips, or the unresolved duplicate, and the final store equal `WriteBatch` for the class's table on the store before the call. |
| BulkSaving.BulkSaver.SaveSubBatches | sapp/bulk_saver.py:198-201 | The loop over the sub-batches: its round trips, or the unresolved duplicate, and its final store equal `WriteSubBatches` on the store before the loop, counting the first attempt. |
| BulkSaving.BulkSaver.PrepareClasses | sapp/bulk_saver.py:118-120 | After the loop the buckets equal `PrepareEach` on the old buckets, and the log holds one `Prepared` step per class, in order. |
| BulkSaving.BulkSaver.SaveClasses | sapp/bulk_saver.py:126-128 | Result, store and buckets equal `SaveEach` on the old store and buckets. The log holds one `Saved` step for each class handed to `_save`, in order. |
| BulkSaving.BulkSaver.SaveAll | sapp/bulk_saver.py:100-128 | Result, store, buckets and appended steps equal `SaveAllRun` on the old store and buckets. That run selects the non-empty classes (`SavingClasses`), reserves keys for their counts (`ItemCounts`), and prepares them (`PreparedBuckets`). It then applies the hook and writes them (`WriteClasses`) until the first error. It leaves the handled classes `Drained`, with the steps of `SaveAllSteps`. |
| BulkSaving.BulkSaver.DumpStats | sapp/bulk_saver.py:242-246 | The text is `Render(Counts(...))`: one line per listed class, in list order. |
| Chunks.SplitEvery | sapp/bulk_saver.py:151 | Every chunk holds between 1 and n records. |
| Chunks.SplitEveryFlatten | sapp/bulk_saver.py:151 | The chunks of `split_every` concatenate back to the input. |
| Chunks.SplitEveryLengths | sapp/bulk_saver.py:151 | Every chunk holds n records except the last, so there are ceil(N/n) chunks. |
| Chunks.CeilDivClosedForm | sapp/bulk_saver.py:197-198 | The count of chunks, `CeilDiv(a, n)`, is the ceiling (a + n - 1) / n, the quantity the negated floor division computes. |
| Chunks.FloorDiv | sapp/bulk_saver.py:198 | Python's `//` for either sign of divisor: the quotient rounds toward minus infinity. |
| Ordering.KeysLessIsStrictTotal | sapp/bulk_saver.py:138 | Python's `<` on lists of strings is irreflexive, transitive and total, so it can order the records. |
| Ordering.InsertKeepsSorted | sapp/bulk_saver.py:136-139 | Inserting into a sequence sorted by key keeps it sorted. |
| Ordering.SortByKeySorts | sapp/bulk_saver.py:136-139 | `sorted(..., key=...)` returns a permutation of its input in non-decreasing key order. |
| Decimal.ParseDecimalString | sapp/bulk_saver.py:245 | The digits `%d` prints denote exactly the number printed. |
| BatchWriter.SubBatchSize | sapp/bulk_saver.py:198 | The sub-batch size is at least 1, and below n once n >= 2, so the recursion terminates. |
| BatchWriter.SubBatchSizeIsCeiling | sapp/bulk_saver.py:197-199 | `-(n // -4)` equals ceil(n/4), and it cuts n records into at most four sub-batches. |
| BatchWriter.WriteBatchEffect | sapp/bulk_saver.py:168-201 | `_save_batch` takes at least one round trip. On success the store gains exactly the batch's keys. On error the duplicate is in the batch, still stored and unresolved by `merge`, and at most the batch's keys were added. |
| BatchWriter.WriteSubBatchesEffect | sapp/bulk_saver.py:199-200 | The sub-batch loop adds at least one round trip per sub-batch and has the store effect of the whole batch. |
| BatchWriter.WriteChunksEffect | sapp/bulk_saver.py:151-152 | `_save`'s loop records one count of at least 1 per batch, in order, and has the store effect of all batches. |
| BatchWriter.WriteItemsEffect | sapp/bulk_saver.py:144-152 | `_save` sends ceil(N/BATCH_SIZE) batches, each taking at least one round trip, and stores exactly the items' keys unless it stops at an unresolved duplicate. |
| RoundTrips.CleanSubBatches | sapp/bulk_saver.py:199-200 | Conflict-free sub-batches take one round trip each and store every key. |
| RoundTrips.CleanChunks | sapp/bulk_saver.py:151-152 | Conflict-free batches each log one round trip and store every key. |
| RoundTrips.CleanSaveRoundTrips | sapp/bulk_saver.py:145-152 | With no conflict, `_save` of N records makes exactly ceil(N/BATCH_SIZE) calls, each returning 1, and stores all N keys. |
| RoundTrips.ForeignRecordJoinsTable | sapp/bulk_saver.py:168-176 | A `SharedText` bucket that `add_all` gave an `Issue` record goes into `SharedText`'s table whole: a stored `Issue` row with the same unique values is no conflict, so one round trip stores both records under `SharedText`. |
| RoundTrips.HundredThousandRecords | sapp/bulk_saver.py:151-152 | 100000 records go in batches of 30000, 30000, 30000 and 10000. Without a conflict that is four round trips. |
| RoundTrips.SingleDuplicateMerged | sapp/bulk_saver.py:179-187 | A single stored record that `merge` resolves costs exactly one round trip, with no error. |
| RoundTrips.OneConflictRoundTrips | sapp/bulk_saver.py:168-201 | One conflicting record among distinct others, resolved by `merge`: every key is stored, in exactly `OneConflictTrips(n, d)` round trips. |
| RoundTrips.SplitOnConflict | sapp/bulk_saver.py:193-200 | A conflicting batch of two or more costs the failed attempt plus the trips of its sub-batches. |
| RoundTrips.OneConflictInChunks | sapp/bulk_saver.py:199-200 | Over the sub-batches, the one holding the conflict costs `OneConflictTrips` and each of the others one trip. |
| RoundTrips.ConflictInFirstSubBatch | sapp/bulk_saver.py:199-200 | When the first sub-batch holds the conflict, each later sub-batch takes one trip. |
| RoundTrips.ConflictInLaterSubBatch | sapp/bulk_saver.py:199-200 | A clean first sub-batch takes one trip, and the count continues over the rest. |
| RoundTrips.DepthIsLogarithmic | sapp/bulk_saver.py:198 | The number of split levels is ceil(log4 n). |
| RoundTrips.OneConflictTripsBound | sapp/bulk_saver.py:168-201 | One conflict among n records costs at most 4·Depth(n)+1 round trips. |
| RoundTrips.OneConflictIsLogarithmic | sapp/bulk_saver.py:57-68 | With one conflict, `_save_batch` succeeds in O(log4 n) round trips, not O(n). |
| RoundTrips.TwoRecordsOneConflict | sapp/bulk_saver.py:179-200 | Two records with one conflict take three round trips. |
| RoundTrips.EightRecordsSplit | sapp/bulk_saver.py:198-199 | Eight records split into four sub-batches of two. |
| RoundTrips.FourPairsOneConflict | sapp/bulk_saver.py:199-200 | Over four pairs with one conflict: three trips for its pair and one for each other pair. |
| RoundTrips.OneConflictTripsOfEight | sapp/bulk_saver.py:168-201 | One conflict among eight records costs seven round trips, wherever it sits. |
| RoundTrips.EightRecordsOneConflict | sapp/bulk_saver.py:168-201 | `_save_batch` on eight records with one resolvable conflict stores all keys in 1 + 3 + 3 = 7 round trips. |
| SaverSpec.RankIsPosition | sapp/bulk_saver.py:40-53 | `Rank` is the position in `SAVING_CLASSES_ORDER`, and it is below 12 exactly for the listed classes. |
| SaverSpec.InOrderRanks | sapp/bulk_saver.py:39-53 | In a list in order, every class ranks below every later one, so no class appears twice. |
| SaverSpec.RanksInOrder | sapp/bulk_saver.py:39-53 | Conversely, a list in which every class ranks below every later one is in order. |
| SaverSpec.OrderIsInOrder | sapp/bulk_saver.py:39-53 | `SAVING_CLASSES_ORDER` itself is in order. |
| SaverSpec.BufferedIsListed | sapp/bulk_saver.py:40-53 | A class is buffered iff it is listed in `SAVING_CLASSES_ORDER`. |
| SaverSpec.SavingClasses | sapp/bulk_saver.py:103-107 | Every class selected has a bucket, and that bucket is non-empty. |
| SaverSpec.SavingClassesMembers | sapp/bulk_saver.py:103-107 | A class is selected iff it is in the order and its bucket is non-empty. |
| SaverSpec.SavingClassesInOrder | sapp/bulk_saver.py:103-107 | The selection keeps the order of `SAVING_CLASSES_ORDER`, each class once. |
| SaverSpec.SavingClassesOrdered | sapp/bulk_saver.py:103-107 | The classes `save_all` selects are in list order. |
| SaverSpec.SavingClassesOfSaver | sapp/bulk_saver.py:103-107 | For the saver's buckets, `saving_classes` is in list order and holds exactly the classes with pending records. |
| SaverSpec.ItemCountsOfSaver | sapp/bulk_saver.py:109-111 | `item_counts` covers exactly the classes with pending records, each count being that bucket's length, at least 1. |
| SaverSpec.PrepareBucketSorted | sapp/bulk_saver.py:136-139 | The prepared bucket is a permutation of what `prepare` returned, in non-decreasing order of each record's column list (`Models.FieldNames`, the keys of `cls.to_dict(r)`). |
| SaverSpec.PrepareEach | sapp/bulk_saver.py:118-120 | The first loop, each class prepared from its bucket as the loop left it, keeps the set of buckets. |
| SaverSpec.PrepareEachIsPrepared | sapp/bulk_saver.py:118-120 | Since each class is listed once, the first loop prepares exactly the raw bucket of each listed class and leaves the others alone (`PreparedBuckets`). |
| SaverSpec.WriteClasses | sapp/bulk_saver.py:126-128 | The write loop reaches at most every class, and reaches all of them when nothing fails. |
| SaverSpec.SaveEach | sapp/bulk_saver.py:126-128 | The second loop as it runs: each bucket is emptied, then written, until one fails. It never reaches more classes than there are. |
| SaverSpec.WriteClassesSkips | sapp/bulk_saver.py:126-128 | The write loop never reads the bucket of a class it does not handle. |
| SaverSpec.SaveEachIsWritten | sapp/bulk_saver.py:126-128 | Since each class is listed once, the loop as it runs has the result, store and class count of `WriteClasses` over the buckets as they were. It drains exactly the classes it handed to `_save`. |
| SaverSpec.WriteClassesSaved | sapp/bulk_saver.py:126-128 | After a clean pass the store gains exactly the keys of every class's bucket. |
| SaverSpec.WriteClassesFailed | sapp/bulk_saver.py:126-128 | On the `ValueError`, the failing class is the last one reached and its duplicate is one of its records, still unresolvable. The earlier classes are fully stored, the failing one in part, and the later ones not at all. |
| SaverSpec.SaveAllRunOf | sapp/bulk_saver.py:100-128 | `SaveAllRun` is the result, store, buckets and steps of the two loops as they run, applied to the selected classes and the reserved keys. |
| SaverSpec.SaveAllPhases | sapp/bulk_saver.py:113-128 | Keys are reserved first and once, and every class is prepared before any is saved. The hook runs between the two phases, and classes are saved in list order, each once. |
| SaverSpec.AllSavedEmptiesBuckets | sapp/bulk_saver.py:118-128 | When `SaveAllRun` saves every selected class, every bucket is empty afterwards. |
| SaverSpec.DrainingSelectionEmpties | sapp/bulk_saver.py:118-128 | Preparing and then draining every class with pending records leaves every bucket empty. |
| SaverSpec.FailedRunKeepsLaterBuckets | sapp/bulk_saver.py:113-128 | When a `save_all` run fails, the failing class's bucket is empty. Any bucket that still holds records belongs to a class ranked after the failing one and holds exactly that class's prepared records. Every class that had pending records and ranks after the failing one keeps its prepared records. |
| SaverSpec.FailedDrainKeepsLater | sapp/bulk_saver.py:126-128 | When the write loop fails over classes in order, the failing class is drained. Any non-empty bucket is untouched and, if its class was selected, ranks after the failing class. Every selected class ranked after the failing one is untouched. |
| SaverSpec.NothingPendingIsNoOp | sapp/bulk_saver.py:103-128 | With every bucket empty, no class is selected and the whole `save_all` run ends `AllSaved`: the store is the one the hook leaves (untouched without a hook), the buckets are unchanged, and the log holds only an empty reservation followed by the hook, if any. |
| Stats.RenderAppend | sapp/bulk_saver.py:244-245 | `stat_str += ...` appends exactly one line per class. |
| Stats.CountsAppend | sapp/bulk_saver.py:244-245 | One more class adds its own entry, the class's name and bucket length, at the end. |
| Stats.ReadStatsLine | sapp/bulk_saver.py:244-245 | The reader takes exactly one rendered line off the front, with its count, and reads the rest against the remaining names. |
| Stats.ReadRender | sapp/bulk_saver.py:242-246 | The rendered lines, read back against their names, give back every name and count. |
| Stats.StatsReadBack | sapp/bulk_saver.py:242-246 | The `dump_stats` text, rendered from `Counts` (one entry per class of `SAVING_CLASSES_ORDER`), names the classes in list order and, read back, gives each class's pending count. |
| Stats.SavedClassShowsZero | sapp/bulk_saver.py:146 | Right after `_save` empties a class's bucket, its stats line shows 0 and every other line is unchanged. |
| Stats.CountsUpdate | sapp/bulk_saver.py:244-245 | Replacing one bucket changes the entry of that class only, to the new length. |

## Left out

- Sessions, `bulk_insert_mappings`, `commit` and `IntegrityError` are not modelled. An insert is an operation on the store's key set that is accepted or refused whole. Transport errors and other exceptions are not modelled.
- `PrimaryKeyGenerator` is not part of this model, nor is the default generator the constructor builds. `reserve` is a function field of the saver, given the store's keys, the classes and their counts.
- `cls.prepare`, `cls.merge` and `cls.to_dict` are function values in `ModelOps`. `to_dict` appears only through the column list (`Record.fields`) the sort key uses.
- `sapp/iterutil.py` is not part of this model. `split_every` is modelled as the greedy split: consecutive chunks of exactly n elements, except a shorter last one, that concatenate back to the input. The batch counts of ceil(N/n), including `RoundTrips.HundredThousandRecords`, rest on this assumption.
- `before_save` is modelled as an optional transformation of the store between the two phases. That is the effect it has in the race it simulates.
- Logging and the `@log_time` decorator are left out. They only report; the round-trip log line of `_save` is replaced by the list of round-trip counts that `Save` returns.
- The `add_*_assoc` helpers (sapp/bulk_saver.py:203-240) are left out. Each builds one record and calls `add`, which is modelled.
- The `assert` in `add` and `add_all` is modelled as a `false` result with the buckets unchanged. The `ValueError` of `_save_batch` is modelled as the `Unresolved` outcome, and `SaveAll` stops at it with `Failed`.
- Other writers running at the same time are outside the code. Keys they stored before the run, or inside the `before_save` hook, are part of the starting store. During the write phase the store changes only by the saver's own inserts. Rows other writers insert between two insert attempts are not modelled. The store-effect and round-trip results (`BatchWriter.WriteBatchEffect`, `SaverSpec.WriteClassesSaved`, `RoundTrips.OneConflictRoundTrips`, `RoundTrips.CleanSaveRoundTrips`) assume there are none.
- The two loops of `save_all` are helper methods, `PrepareClasses` and `SaveClasses`, that `SaveAll` calls in turn. Each is proved against a function that runs the loop the same way (`PrepareEach`, `SaveEach`). Lemmas relate those functions to the per-class definitions (`PreparedBuckets`, `WriteClasses`, `Drained`).
- Ordering.SortByKeySorts: states that the result is a sorted permutation, not that Python's sort is stable. `SortByKey` is an insertion sort that keeps records with equal keys in input order, but no lemma proves that.
- BulkSaving.BulkSaver.ItemsToAdd: buckets are keyed by the class itself, whereas the code keys `self.saving` by `cls.__name__`. An unlisted class that shares its name with a listed one (an `OtherModel` named `"Issue"`, say) gets no bucket in the model, where the code would hand it `Issue`'s bucket.
- Records and buckets are values, so the model leaves out two effects of sharing Python objects. First, `merge` in the code may resolve a duplicate's id to the id of the existing row by changing the record in place, and later classes' records see that id; the model's `merge` reports only the records it leaves unresolved. Second, `get_items_to_add` returns the live list, which later calls to `add` and `add_all` extend; `ItemsToAdd` returns the bucket's contents at the time of the call.
- Stats.ReadRender: reads each line against the expected class name instead of splitting on `": "`, since names do not contain it.

Three consequences of the code that a reader might not expect:

- A conflicting batch of 8 records is cut into sub-batches of `-(8 // -4)` = 2 records, so four sub-batches of two, not two of four. With one conflict that is still 1 + 3 + 3 = 7 round trips (`RoundTrips.EightRecordsOneConflict`).
- `save_all` prepares every selected class before it saves any (`SaverSpec.SaveAllPhases`).
- When `_save_batch` raises, the buckets of the classes not yet saved keep their prepared records (`SaverSpec.FailedRunKeepsLaterBuckets`). The bucket of the failing class is already empty, so its records that were not written are gone.
