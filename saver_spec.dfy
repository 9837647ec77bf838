/**
 * What `save_all` does, as functions of the saver's buckets and the store:
 * which classes it handles, what `_prepare` leaves in a bucket, which buckets
 * `_save` has drained, how far the writes get, and the order of the steps.
 */
module SaverSpec {
  import opened Models
  import opened Ordering
  import opened BatchWriter

  datatype Option<T> = None | Some(value: T)

  /** `SAVING_CLASSES_ORDER`: a class may refer to rows of the classes before it. */
  const SavingClassesOrder: seq<ModelClass> := [
    SharedText,
    Issue,
    IssueInstanceFixInfo,
    IssueInstance,
    IssueInstanceSharedTextAssoc,
    TraceFrame,
    IssueInstanceTraceFrameAssoc,
    TraceFrameAnnotation,
    TraceFrameLeafAssoc,
    TraceFrameAnnotationTraceFrameAssoc,
    ClassTypeInterval,
    MetaRunIssueInstanceIndex
  ]

  /** The pending records of each class, `self.saving`. */
  type Buckets = map<ModelClass, seq<Record>>

  /** The position of a class in `SAVING_CLASSES_ORDER`; every class the saver refuses comes last. */
  function Rank(c: ModelClass): nat
  {
    match c
    case SharedText => 0
    case Issue => 1
    case IssueInstanceFixInfo => 2
    case IssueInstance => 3
    case IssueInstanceSharedTextAssoc => 4
    case TraceFrame => 5
    case IssueInstanceTraceFrameAssoc => 6
    case TraceFrameAnnotation => 7
    case TraceFrameLeafAssoc => 8
    case TraceFrameAnnotationTraceFrameAssoc => 9
    case ClassTypeInterval => 10
    case MetaRunIssueInstanceIndex => 11
    case OtherModel(_) => 12
  }

  /** `Rank` is the index in `SAVING_CLASSES_ORDER`, and below 12 exactly for the buffered classes. */
  lemma RankIsPosition()
    ensures forall i :: 0 <= i < |SavingClassesOrder| ==> Rank(SavingClassesOrder[i]) == i
    ensures forall c :: c in SavingClassesOrder <==> Rank(c) < |SavingClassesOrder|
  {
  }

  /** Ranks strictly increase along `classes`, so it lists each class once, in dependency order. */
  predicate InOrder(classes: seq<ModelClass>)
    decreases |classes|
  {
    |classes| < 2 || (Rank(classes[0]) < Rank(classes[1]) && InOrder(classes[1..]))
  }

  /** In a list in order, every class ranks below every class after it. */
  lemma {:induction false} InOrderRanks(classes: seq<ModelClass>)
    requires InOrder(classes)
    ensures forall i, j :: 0 <= i < j < |classes| ==> Rank(classes[i]) < Rank(classes[j])
    decreases |classes|
  {
    if 2 <= |classes| {
      var rest := classes[1..];
      InOrderRanks(rest);
      forall i, j | 0 <= i < j < |classes|
        ensures Rank(classes[i]) < Rank(classes[j])
      {
        if 0 < i {
          assert classes[i] == rest[i - 1] && classes[j] == rest[j - 1];
        } else if 1 < j {
          assert classes[1] == rest[0] && classes[j] == rest[j - 1];
        }
      }
    }
  }

  /** A class of a list in order comes after none of its own copies. */
  lemma InOrderFresh(classes: seq<ModelClass>, i: nat)
    requires i < |classes| && InOrder(classes)
    ensures forall k :: 0 <= k < i ==> classes[k] != classes[i]
  {
    InOrderRanks(classes);
  }

  /** A list in which every class ranks below every class after it is in order. */
  lemma {:induction false} RanksInOrder(classes: seq<ModelClass>)
    requires forall i, j :: 0 <= i < j < |classes| ==> Rank(classes[i]) < Rank(classes[j])
    ensures InOrder(classes)
    decreases |classes|
  {
    if 2 <= |classes| {
      var rest := classes[1..];
      forall i, j | 0 <= i < j < |rest|
        ensures Rank(rest[i]) < Rank(rest[j])
      {
        assert rest[i] == classes[i + 1] && rest[j] == classes[j + 1];
      }
      RanksInOrder(rest);
    }
  }

  /** A class the saver buffers, that is, one listed in `SAVING_CLASSES_ORDER`. */
  predicate Buffered(c: ModelClass)
  {
    !c.OtherModel?
  }

  /** The buffered classes are exactly those of `SAVING_CLASSES_ORDER`. */
  lemma BufferedIsListed(c: ModelClass)
    ensures c in SavingClassesOrder <==> Buffered(c)
  {
    RankIsPosition();
  }

  lemma ListedAreBuffered()
    ensures forall i :: 0 <= i < |SavingClassesOrder| ==> Buffered(SavingClassesOrder[i])
  {
    RankIsPosition();
  }

  /** Every buffered class has a bucket, and no other class has one. */
  ghost predicate HasAllBuckets(saving: Buckets)
  {
    forall c :: c in saving <==> Buffered(c)
  }

  /** The `saving_classes` comprehension: the classes of `order` whose bucket is not empty. */
  function SavingClasses(saving: Buckets, order: seq<ModelClass>): (classes: seq<ModelClass>)
    requires forall i :: 0 <= i < |order| ==> order[i] in saving
    ensures forall i :: 0 <= i < |classes| ==> classes[i] in saving && |saving[classes[i]]| != 0
  {
    if order == [] then []
    else (if |saving[order[0]]| != 0 then [order[0]] else []) + SavingClasses(saving, order[1..])
  }

  /** A class is handled exactly when it is in the order and has pending records. */
  lemma {:induction false} SavingClassesMembers(saving: Buckets, order: seq<ModelClass>, c: ModelClass)
    requires forall i :: 0 <= i < |order| ==> order[i] in saving
    ensures c in SavingClasses(saving, order) <==> c in order && |saving[c]| != 0
    decreases |order|
  {
    if order != [] {
      SavingClassesMembers(saving, order[1..], c);
      assert c in order <==> c == order[0] || c in order[1..];
    }
  }

  /** The handled classes keep the order of `order`. */
  lemma {:induction false} SavingClassesInOrder(saving: Buckets, order: seq<ModelClass>)
    requires forall i :: 0 <= i < |order| ==> order[i] in saving
    requires InOrder(order)
    ensures InOrder(SavingClasses(saving, order))
    decreases |order|
  {
    if order != [] {
      var rest := SavingClasses(saving, order[1..]);
      SavingClassesInOrder(saving, order[1..]);
      var result := SavingClasses(saving, order);
      if |saving[order[0]]| == 0 {
        assert result == rest;
      } else if rest != [] {
        InOrderRanks(order);
        SavingClassesMembers(saving, order[1..], rest[0]);
        var k :| 0 <= k < |order[1..]| && order[1..][k] == rest[0];
        assert order[k + 1] == rest[0];
        assert result == [order[0]] + rest;
        assert result[1..] == rest && result[1] == rest[0];
      } else {
        assert result == [order[0]];
      }
    }
  }

  /** `SAVING_CLASSES_ORDER` itself is in order. */
  lemma OrderIsInOrder()
    ensures InOrder(SavingClassesOrder)
  {
    RankIsPosition();
    RanksInOrder(SavingClassesOrder);
  }

  /** The classes `save_all` handles are in order. */
  lemma SavingClassesOrdered(saving: Buckets)
    requires HasAllBuckets(saving)
    ensures InOrder(SavingClasses(saving, SavingClassesOrder))
  {
    ListedAreBuffered();
    OrderIsInOrder();
    SavingClassesInOrder(saving, SavingClassesOrder);
  }

  /** `save_all` handles each class with pending records once, and in `SAVING_CLASSES_ORDER` order. */
  lemma SavingClassesOfSaver(saving: Buckets, c: ModelClass)
    requires HasAllBuckets(saving)
    ensures InOrder(SavingClasses(saving, SavingClassesOrder))
    ensures c in SavingClasses(saving, SavingClassesOrder) <==> c in saving && |saving[c]| != 0
  {
    ListedAreBuffered();
    BufferedIsListed(c);
    SavingClassesOrdered(saving);
    SavingClassesMembers(saving, SavingClassesOrder, c);
  }

  /** The `item_counts` comprehension handed to `reserve`. */
  function ItemCounts(saving: Buckets, classes: seq<ModelClass>): map<ModelClass, nat>
    requires forall i :: 0 <= i < |classes| ==> classes[i] in saving
  {
    map c | c in classes :: |saving[c]|
  }

  /** `reserve` is asked for keys for exactly the classes with pending records, at least one each. */
  lemma ItemCountsOfSaver(saving: Buckets)
    requires HasAllBuckets(saving)
    ensures var counts := ItemCounts(saving, SavingClasses(saving, SavingClassesOrder));
            && (forall c :: c in counts <==> c in saving && |saving[c]| != 0)
            && (forall c :: c in counts ==> 1 <= counts[c] == |saving[c]|)
  {
    forall c
      ensures c in SavingClasses(saving, SavingClassesOrder) <==> c in saving && |saving[c]| != 0
    {
      SavingClassesOfSaver(saving, c);
    }
  }

  /**
   * `_prepare`'s new bucket: what `cls.prepare` returns, reordered so that
   * records with the same column list sit next to each other.
   */
  function PrepareBucket(ops: ModelOps, rows: set<RowKey>, pk: KeyAllocator, items: seq<Record>): seq<Record>
  {
    SortByKey(ops.prepare(rows, pk, items), FieldNames)
  }

  /**
   * The prepared bucket holds exactly the records `cls.prepare` returned,
   * as many times each, in non-decreasing order of their column lists.
   */
  lemma PrepareBucketSorted(ops: ModelOps, rows: set<RowKey>, pk: KeyAllocator, items: seq<Record>)
    ensures var prepared := PrepareBucket(ops, rows, pk, items);
            && multiset(prepared) == multiset(ops.prepare(rows, pk, items))
            && SortedBy(prepared, FieldNames)
  {
    SortByKeySorts(ops.prepare(rows, pk, items), FieldNames);
  }

  /** The buckets once every class of `classes` has been prepared. */
  function PreparedBuckets(models: ModelClass -> ModelOps, rows: set<RowKey>, pk: KeyAllocator,
                           saving: Buckets, classes: seq<ModelClass>): Buckets
  {
    map c | c in saving :: if c in classes then PrepareBucket(models(c), rows, pk, saving[c]) else saving[c]
  }

  /** The buckets once every class of `classes` has been handed to `_save`. */
  function Drained(buckets: Buckets, classes: seq<ModelClass>): Buckets
  {
    map c | c in buckets :: if c in classes then [] else buckets[c]
  }

  /** The first loop of `save_all`: `_prepare` for each class in turn, each reading its bucket as the loop has left it. */
  function PrepareEach(models: ModelClass -> ModelOps, rows: set<RowKey>, pk: KeyAllocator,
                       buckets: Buckets, classes: seq<ModelClass>): (prepared: Buckets)
    requires forall i :: 0 <= i < |classes| ==> classes[i] in buckets
    ensures prepared.Keys == buckets.Keys
    decreases |classes|
  {
    if classes == [] then buckets
    else
      var c := classes[0];
      PrepareEach(models, rows, pk, buckets[c := PrepareBucket(models(c), rows, pk, buckets[c])], classes[1..])
  }

  /** The first loop from the `i`-th class on: that class's `_prepare`, then the rest. */
  lemma PrepareEachStep(models: ModelClass -> ModelOps, rows: set<RowKey>, pk: KeyAllocator,
                        buckets: Buckets, classes: seq<ModelClass>, i: nat)
    requires i < |classes| && forall k :: 0 <= k < |classes| ==> classes[k] in buckets
    ensures var c := classes[i];
            PrepareEach(models, rows, pk, buckets, classes[i..])
            == PrepareEach(models, rows, pk, buckets[c := PrepareBucket(models(c), rows, pk, buckets[c])], classes[i + 1..])
  {
    assert classes[i..][0] == classes[i] && classes[i..][1..] == classes[i + 1..];
  }

  /** Preparing one class first and then the others, none of them that class, prepares them all. */
  lemma PreparedBucketsCons(models: ModelClass -> ModelOps, rows: set<RowKey>, pk: KeyAllocator,
                            saving: Buckets, c: ModelClass, rest: seq<ModelClass>)
    requires c in saving && c !in rest
    ensures PreparedBuckets(models, rows, pk, saving[c := PrepareBucket(models(c), rows, pk, saving[c])], rest)
            == PreparedBuckets(models, rows, pk, saving, [c] + rest)
  {
    var after := PreparedBuckets(models, rows, pk, saving[c := PrepareBucket(models(c), rows, pk, saving[c])], rest);
    var spec := PreparedBuckets(models, rows, pk, saving, [c] + rest);
    forall d | d in spec
      ensures d in after && after[d] == spec[d]
    {
      assert d in [c] + rest <==> d == c || d in rest;
    }
    assert after.Keys == spec.Keys;
  }

  /**
   * Since each class is listed once, preparing them one after the other
   * prepares exactly the raw bucket of each listed class and leaves every
   * other bucket alone.
   */
  lemma {:induction false} PrepareEachIsPrepared(models: ModelClass -> ModelOps, rows: set<RowKey>, pk: KeyAllocator,
                                                 saving: Buckets, classes: seq<ModelClass>)
    requires forall i :: 0 <= i < |classes| ==> classes[i] in saving
    requires InOrder(classes)
    ensures PrepareEach(models, rows, pk, saving, classes) == PreparedBuckets(models, rows, pk, saving, classes)
    decreases |classes|
  {
    if classes != [] {
      var c := classes[0];
      var rest := classes[1..];
      InOrderFirst(classes);
      PrepareEachIsPrepared(models, rows, pk, saving[c := PrepareBucket(models(c), rows, pk, saving[c])], rest);
      PreparedBucketsCons(models, rows, pk, saving, c, rest);
      assert classes == [c] + rest;
    }
  }

  /** The first class of a list in order is not repeated, and the rest is in order. */
  lemma InOrderFirst(classes: seq<ModelClass>)
    requires classes != [] && InOrder(classes)
    ensures classes[0] !in classes[1..] && InOrder(classes[1..])
  {
    InOrderRanks(classes);
    forall j | 0 <= j < |classes[1..]|
      ensures classes[1..][j] != classes[0]
    {
      assert classes[1..][j] == classes[j + 1];
    }
  }

  /** Draining no class changes nothing. */
  lemma PreparedNone(models: ModelClass -> ModelOps, rows: set<RowKey>, pk: KeyAllocator, saving: Buckets)
    ensures PreparedBuckets(models, rows, pk, saving, []) == saving
  {
    var prepared := PreparedBuckets(models, rows, pk, saving, []);
    assert prepared.Keys == saving.Keys;
    forall d | d in prepared
      ensures prepared[d] == saving[d]
    {
    }
  }

  lemma DrainedNone(buckets: Buckets)
    ensures Drained(buckets, []) == buckets
  {
    var after := Drained(buckets, []);
    assert after.Keys == buckets.Keys;
    forall d | d in after
      ensures after[d] == buckets[d]
    {
    }
  }

  /** Emptying one class's bucket and then draining others drains them all. */
  lemma DrainedCons(buckets: Buckets, c: ModelClass, rest: seq<ModelClass>)
    requires c in buckets
    ensures Drained(buckets[c := []], rest) == Drained(buckets, [c] + rest)
  {
    var after := Drained(buckets[c := []], rest);
    var spec := Drained(buckets, [c] + rest);
    forall d | d in spec
      ensures d in after && after[d] == spec[d]
    {
      assert d in [c] + rest <==> d == c || d in rest;
    }
    assert after.Keys == spec.Keys;
  }

  /** How `save_all` ends: all classes written, or the `ValueError` of `_save_batch` for one class. */
  datatype SaveAllResult = AllSaved | Failed(cls: ModelClass, duplicate: Record)

  /** The end of `save_all`'s write loop: its result, the store, and how many classes reached `_save`. */
  datatype Flushed = Flushed(result: SaveAllResult, rows: set<RowKey>, attempted: nat)

  /** The unique keys of the buckets of `classes`. */
  function AllKeys(buckets: Buckets, classes: seq<ModelClass>): set<RowKey>
    requires forall i :: 0 <= i < |classes| ==> classes[i] in buckets
  {
    if classes == [] then {} else KeysOf(classes[0], buckets[classes[0]]) + AllKeys(buckets, classes[1..])
  }

  /** The keys of a nonempty prefix of `classes`: those of its first class, then those of the rest. */
  lemma AllKeysPrefix(buckets: Buckets, classes: seq<ModelClass>, n: nat)
    requires 1 <= n <= |classes| && forall i :: 0 <= i < |classes| ==> classes[i] in buckets
    ensures AllKeys(buckets, classes[..n]) == KeysOf(classes[0], buckets[classes[0]]) + AllKeys(buckets, classes[1..][..n - 1])
  {
    assert classes[..n][1..] == classes[1..][..n - 1];
  }

  /** The write loop of `save_all`: `_save` for each class in turn, stopping at the first error. */
  function WriteClasses(models: ModelClass -> ModelOps, rows: set<RowKey>, buckets: Buckets,
                        classes: seq<ModelClass>): (f: Flushed)
    requires forall i :: 0 <= i < |classes| ==> classes[i] in buckets
    ensures f.attempted <= |classes|
    ensures f.result.AllSaved? ==> f.attempted == |classes|
    decreases |classes|
  {
    if classes == [] then Flushed(AllSaved, rows, 0)
    else
      var c := classes[0];
      var w := WriteItems(c, models(c), rows, buckets[c]);
      match w.outcome
      case Unresolved(d) => Flushed(Failed(c, d), w.rows, 1)
      case Ok(_) =>
        var rest := WriteClasses(models, w.rows, buckets, classes[1..]);
        rest.(attempted := rest.attempted + 1)
  }

  /** The end of `save_all`'s write loop as it runs, with the buckets it leaves. */
  datatype Sweep = Sweep(result: SaveAllResult, rows: set<RowKey>, buckets: Buckets, attempted: nat)

  /**
   * The write loop of `save_all` as it runs: `_save` takes each class's
   * bucket as the loop has left it, empties it, then writes its records,
   * until one class fails.
   */
  function SaveEach(models: ModelClass -> ModelOps, rows: set<RowKey>, buckets: Buckets,
                    classes: seq<ModelClass>): (s: Sweep)
    requires forall i :: 0 <= i < |classes| ==> classes[i] in buckets
    ensures s.attempted <= |classes|
    decreases |classes|
  {
    if classes == [] then Sweep(AllSaved, rows, buckets, 0)
    else
      var c := classes[0];
      var w := WriteItems(c, models(c), rows, buckets[c]);
      match w.outcome
      case Unresolved(d) => Sweep(Failed(c, d), w.rows, buckets[c := []], 1)
      case Ok(_) =>
        var rest := SaveEach(models, w.rows, buckets[c := []], classes[1..]);
        rest.(attempted := rest.attempted + 1)
  }

  /**
   * The write loop resumed at the `i`-th class, given that class's own
   * write: an unresolved duplicate ends the loop there, otherwise it resumes
   * at the next class.
   */
  lemma SaveEachNext(models: ModelClass -> ModelOps, start: set<RowKey>, original: Buckets,
                     rows: set<RowKey>, buckets: Buckets, classes: seq<ModelClass>, i: nat, w: Written<seq<nat>>)
    requires i < |classes|
    requires forall k :: 0 <= k < |classes| ==> classes[k] in original && classes[k] in buckets
    requires SaveEach(models, start, original, classes)
             == var rest := SaveEach(models, rows, buckets, classes[i..]); rest.(attempted := rest.attempted + i)
    requires w == WriteItems(classes[i], models(classes[i]), rows, buckets[classes[i]])
    ensures w.outcome.Unresolved? ==>
              SaveEach(models, start, original, classes)
              == Sweep(Failed(classes[i], w.outcome.duplicate), w.rows, buckets[classes[i] := []], i + 1)
    ensures w.outcome.Ok? ==>
              SaveEach(models, start, original, classes)
              == var rest := SaveEach(models, w.rows, buckets[classes[i] := []], classes[i + 1..]);
                 rest.(attempted := rest.attempted + (i + 1))
  {
    assert classes[i..][0] == classes[i] && classes[i..][1..] == classes[i + 1..];
  }

  /** The write loop never reads the bucket of a class it does not handle. */
  lemma {:induction false} WriteClassesSkips(models: ModelClass -> ModelOps, rows: set<RowKey>, buckets: Buckets,
                                             c: ModelClass, items: seq<Record>, classes: seq<ModelClass>)
    requires c !in classes && forall i :: 0 <= i < |classes| ==> classes[i] in buckets
    ensures WriteClasses(models, rows, buckets[c := items], classes) == WriteClasses(models, rows, buckets, classes)
    decreases |classes|
  {
    if classes != [] {
      var w := WriteItems(classes[0], models(classes[0]), rows, buckets[classes[0]]);
      WriteClassesSkips(models, w.rows, buckets, c, items, classes[1..]);
    }
  }

  /**
   * The loop as it runs agrees with `WriteClasses` over the buckets as they
   * were: same result, same store, as many classes handed to `_save`, and
   * exactly those classes drained.
   */
  ghost predicate Agrees(s: Sweep, f: Flushed, buckets: Buckets, classes: seq<ModelClass>)
  {
    && s.result == f.result && s.rows == f.rows && s.attempted == f.attempted
    && f.attempted <= |classes|
    && s.buckets == Drained(buckets, classes[..f.attempted])
  }

  /** Since each class is listed once, the loop as it runs agrees with `WriteClasses`. */
  lemma {:induction false} SaveEachIsWritten(models: ModelClass -> ModelOps, rows: set<RowKey>, buckets: Buckets,
                                             classes: seq<ModelClass>)
    requires forall i :: 0 <= i < |classes| ==> classes[i] in buckets
    requires InOrder(classes)
    ensures Agrees(SaveEach(models, rows, buckets, classes), WriteClasses(models, rows, buckets, classes), buckets, classes)
    decreases |classes|
  {
    if classes == [] {
      DrainedNone(buckets);
    } else {
      var c := classes[0];
      var w := WriteItems(c, models(c), rows, buckets[c]);
      InOrderFirst(classes);
      if w.outcome.Ok? {
        SaveEachIsWritten(models, w.rows, buckets[c := []], classes[1..]);
        SaveEachAfterOk(models, rows, buckets, classes);
      } else {
        DrainedNone(buckets[c := []]);
        DrainedCons(buckets, c, []);
        assert classes[..1] == [c] + [];
      }
    }
  }

  /** A class written in full, followed by a sweep of the rest that agrees, gives a sweep that agrees. */
  lemma SaveEachAfterOk(models: ModelClass -> ModelOps, rows: set<RowKey>, buckets: Buckets, classes: seq<ModelClass>)
    requires classes != [] && classes[0] !in classes[1..]
    requires forall i :: 0 <= i < |classes| ==> classes[i] in buckets
    requires var c := classes[0];
             var w := WriteItems(c, models(c), rows, buckets[c]);
             && w.outcome.Ok?
             && Agrees(SaveEach(models, w.rows, buckets[c := []], classes[1..]),
                       WriteClasses(models, w.rows, buckets[c := []], classes[1..]), buckets[c := []], classes[1..])
    ensures Agrees(SaveEach(models, rows, buckets, classes), WriteClasses(models, rows, buckets, classes), buckets, classes)
  {
    var c := classes[0];
    var rest := classes[1..];
    var w := WriteItems(c, models(c), rows, buckets[c]);
    WriteClassesSkips(models, w.rows, buckets, c, [], rest);
    var f := WriteClasses(models, w.rows, buckets, rest);
    DrainedCons(buckets, c, rest[..f.attempted]);
    assert classes[..f.attempted + 1] == [c] + rest[..f.attempted];
  }

  /** After a clean pass every class's keys are stored, and nothing else was added. */
  lemma {:induction false} WriteClassesSaved(models: ModelClass -> ModelOps, rows: set<RowKey>, buckets: Buckets,
                                             classes: seq<ModelClass>)
    requires forall i :: 0 <= i < |classes| ==> classes[i] in buckets
    requires WriteClasses(models, rows, buckets, classes).result.AllSaved?
    ensures WriteClasses(models, rows, buckets, classes).rows == rows + AllKeys(buckets, classes)
    decreases |classes|
  {
    if classes != [] {
      var c := classes[0];
      var w := WriteItems(c, models(c), rows, buckets[c]);
      ItemsStored(c, models(c), rows, buckets[c]);
      WriteClassesSaved(models, w.rows, buckets, classes[1..]);
    }
  }

  /**
   * When a class fails, it is the last one handed to `_save`, its duplicate
   * is one of its records and cannot be resolved against the store, the
   * classes before it are fully stored and it is stored in part.
   */
  lemma {:induction false} WriteClassesFailed(models: ModelClass -> ModelOps, rows: set<RowKey>, buckets: Buckets,
                                              classes: seq<ModelClass>)
    requires forall i :: 0 <= i < |classes| ==> classes[i] in buckets
    requires WriteClasses(models, rows, buckets, classes).result.Failed?
    ensures var f := WriteClasses(models, rows, buckets, classes);
            && 1 <= f.attempted
            && f.result.cls == classes[f.attempted - 1]
            && f.result.duplicate in buckets[f.result.cls]
            && Unresolvable(f.result.cls, models(f.result.cls), f.rows, f.result.duplicate)
            && rows + AllKeys(buckets, classes[..f.attempted - 1]) <= f.rows
            && f.rows <= rows + AllKeys(buckets, classes[..f.attempted])
    decreases |classes|
  {
    var c := classes[0];
    var w := WriteItems(c, models(c), rows, buckets[c]);
    ItemsStored(c, models(c), rows, buckets[c]);
    if w.outcome.Ok? {
      WriteClassesFailed(models, w.rows, buckets, classes[1..]);
      var f := WriteClasses(models, w.rows, buckets, classes[1..]);
      assert classes[1..][f.attempted - 1] == classes[f.attempted];
      FailedStoreBounds(buckets, classes, rows, w.rows, f.rows, f.attempted);
    } else {
      AllKeysPrefix(buckets, classes, 1);
    }
  }

  /** The store bounds of a failure in the rest of the classes, once the first class was stored. */
  lemma FailedStoreBounds(buckets: Buckets, classes: seq<ModelClass>, rows: set<RowKey>, written: set<RowKey>,
                          failed: set<RowKey>, n: nat)
    requires 1 <= n < |classes| && forall i :: 0 <= i < |classes| ==> classes[i] in buckets
    requires written == rows + KeysOf(classes[0], buckets[classes[0]])
    requires written + AllKeys(buckets, classes[1..][..n - 1]) <= failed <= written + AllKeys(buckets, classes[1..][..n])
    ensures rows + AllKeys(buckets, classes[..n]) <= failed <= rows + AllKeys(buckets, classes[..n + 1])
  {
    AllKeysPrefix(buckets, classes, n + 1);
    AllKeysPrefix(buckets, classes, n);
  }

  /** The store effect of one class's `_save`, without its round-trip count. */
  lemma ItemsStored(table: ModelClass, ops: ModelOps, rows: set<RowKey>, items: seq<Record>)
    ensures Effect(table, ops, rows, items, WriteItems(table, ops, rows, items))
  {
    WriteItemsEffect(table, ops, rows, items);
  }

  /** What `save_all` does, step by step, for the instrumented run of the model. */
  datatype Step =
    | Reserved(classes: seq<ModelClass>, counts: map<ModelClass, nat>)
    | Prepared(cls: ModelClass)
    | HookRan
    | Saved(cls: ModelClass)

  function PrepareSteps(classes: seq<ModelClass>): seq<Step>
  {
    seq(|classes|, i requires 0 <= i < |classes| => Prepared(classes[i]))
  }

  function SaveSteps(classes: seq<ModelClass>): seq<Step>
  {
    seq(|classes|, i requires 0 <= i < |classes| => Saved(classes[i]))
  }

  lemma PrepareLogNext(log: seq<Step>, prefix: seq<Step>, classes: seq<ModelClass>, i: nat)
    requires i < |classes| && log == prefix + PrepareSteps(classes[..i])
    ensures log + [Prepared(classes[i])] == prefix + PrepareSteps(classes[..i + 1])
  {
    var a := PrepareSteps(classes[..i + 1]);
    var b := PrepareSteps(classes[..i]) + [Prepared(classes[i])];
    assert |a| == |b|;
    assert forall k :: 0 <= k < |a| ==> a[k] == b[k];
    assert a == b;
  }

  lemma SaveLogNext(log: seq<Step>, prefix: seq<Step>, classes: seq<ModelClass>, i: nat)
    requires i < |classes| && log == prefix + SaveSteps(classes[..i])
    ensures log + [Saved(classes[i])] == prefix + SaveSteps(classes[..i + 1])
  {
    var a := SaveSteps(classes[..i + 1]);
    var b := SaveSteps(classes[..i]) + [Saved(classes[i])];
    assert |a| == |b|;
    assert forall k :: 0 <= k < |a| ==> a[k] == b[k];
    assert a == b;
  }

  /** The steps of one `save_all` that reached `_save` for `attempted` classes. */
  function SaveAllSteps(classes: seq<ModelClass>, counts: map<ModelClass, nat>, hook: bool, attempted: nat): seq<Step>
    requires attempted <= |classes|
  {
    [Reserved(classes, counts)] + PrepareSteps(classes) + (if hook then [HookRan] else []) + SaveSteps(classes[..attempted])
  }

  /** The log of one `save_all`, appended piece by piece, is its steps appended at once. */
  lemma SaveAllLog(log: seq<Step>, classes: seq<ModelClass>, counts: map<ModelClass, nat>,
                   hookSteps: seq<Step>, hook: bool, attempted: nat)
    requires attempted <= |classes| && hookSteps == (if hook then [HookRan] else [])
    ensures log + [Reserved(classes, counts)] + PrepareSteps(classes) + hookSteps + SaveSteps(classes[..attempted])
            == log + SaveAllSteps(classes, counts, hook, attempted)
  {
    var tail := [Reserved(classes, counts)] + PrepareSteps(classes) + hookSteps + SaveSteps(classes[..attempted]);
    assert log + [Reserved(classes, counts)] + PrepareSteps(classes) + hookSteps + SaveSteps(classes[..attempted])
           == log + tail;
  }

  /** Everything one `save_all` leaves: its result, the store, the buckets, and the steps it took. */
  datatype Run = Run(result: SaveAllResult, rows: set<RowKey>, buckets: Buckets, steps: seq<Step>)

  /**
   * One `save_all` from the buckets `saving` and the store `rows`: keys
   * reserved for the non-empty classes, each prepared, the hook applied to
   * the store, then each written until the first error.
   */
  ghost function SaveAllRun(reserve: (set<RowKey>, seq<ModelClass>, map<ModelClass, nat>) -> KeyAllocator,
                            models: ModelClass -> ModelOps, rows: set<RowKey>, saving: Buckets,
                            beforeSave: Option<set<RowKey> -> set<RowKey>>): Run
    requires HasAllBuckets(saving)
  {
    ListedAreBuffered();
    var classes := SavingClasses(saving, SavingClassesOrder);
    var counts := ItemCounts(saving, classes);
    var pk := reserve(rows, classes, counts);
    var prepared := PreparedBuckets(models, rows, pk, saving, classes);
    var store := if beforeSave.Some? then beforeSave.value(rows) else rows;
    var flushed := WriteClasses(models, store, prepared, classes);
    Run(flushed.result, flushed.rows, Drained(prepared, classes[..flushed.attempted]),
        SaveAllSteps(classes, counts, beforeSave.Some?, flushed.attempted))
  }

  /** `SaveAllRun` in terms of the values `save_all` computes on its way. */
  lemma SaveAllRunOf(reserve: (set<RowKey>, seq<ModelClass>, map<ModelClass, nat>) -> KeyAllocator,
                     models: ModelClass -> ModelOps, rows: set<RowKey>, saving: Buckets,
                     beforeSave: Option<set<RowKey> -> set<RowKey>>,
                     classes: seq<ModelClass>, counts: map<ModelClass, nat>, pk: KeyAllocator,
                     prepared: Buckets, store: set<RowKey>, swept: Sweep)
    requires HasAllBuckets(saving)
    requires classes == SavingClasses(saving, SavingClassesOrder)
    requires counts == ItemCounts(saving, classes) && pk == reserve(rows, classes, counts)
    requires prepared == PrepareEach(models, rows, pk, saving, classes)
    requires store == (if beforeSave.Some? then beforeSave.value(rows) else rows)
    requires swept == SaveEach(models, store, prepared, classes)
    ensures SaveAllRun(reserve, models, rows, saving, beforeSave)
            == Run(swept.result, swept.rows, swept.buckets, SaveAllSteps(classes, counts, beforeSave.Some?, swept.attempted))
  {
    SavingClassesOrdered(saving);
    PrepareEachIsPrepared(models, rows, pk, saving, classes);
    SaveEachIsWritten(models, store, prepared, classes);
  }

  /**
   * Keys are reserved first and once; every class is prepared before any is
   * saved; the hook runs between the two phases; classes are saved in
   * dependency order, each once.
   */
  lemma SaveAllPhases(classes: seq<ModelClass>, counts: map<ModelClass, nat>, hook: bool, attempted: nat)
    requires attempted <= |classes| && InOrder(classes)
    ensures var steps := SaveAllSteps(classes, counts, hook, attempted);
            && steps[0] == Reserved(classes, counts)
            && (forall i :: 0 < i < |steps| ==> !steps[i].Reserved?)
            && (forall i, j :: 0 <= i < |steps| && 0 <= j < |steps| && steps[i].Prepared? && steps[j].Saved? ==> i < j)
            && (forall i, j :: 0 <= i < |steps| && 0 <= j < |steps| && steps[i].Prepared? && steps[j].HookRan? ==> i < j)
            && (forall i, j :: 0 <= i < |steps| && 0 <= j < |steps| && steps[i].HookRan? && steps[j].Saved? ==> i < j)
            && (forall i, j :: 0 <= i < j < |steps| && steps[i].Saved? && steps[j].Saved? ==> Rank(steps[i].cls) < Rank(steps[j].cls))
  {
    InOrderRanks(classes);
    var steps := SaveAllSteps(classes, counts, hook, attempted);
    var p := 1 + |classes|;
    var h := p + (if hook then 1 else 0);
    assert forall i :: 1 <= i < p ==> steps[i] == Prepared(classes[i - 1]);
    assert hook ==> steps[p] == HookRan;
    assert |steps| == h + attempted;
    assert forall i :: h <= i < |steps| ==> steps[i] == Saved(classes[i - h]);
  }

  /** A `save_all` that writes every class leaves every bucket empty. */
  lemma AllSavedEmptiesBuckets(reserve: (set<RowKey>, seq<ModelClass>, map<ModelClass, nat>) -> KeyAllocator,
                               models: ModelClass -> ModelOps, rows: set<RowKey>, saving: Buckets,
                               beforeSave: Option<set<RowKey> -> set<RowKey>>)
    requires HasAllBuckets(saving)
    ensures var run := SaveAllRun(reserve, models, rows, saving, beforeSave);
            run.result.AllSaved? ==> HasAllBuckets(run.buckets) && forall c :: c in run.buckets ==> run.buckets[c] == []
  {
    var classes := SavingClasses(saving, SavingClassesOrder);
    var counts := ItemCounts(saving, classes);
    var prepared := PreparedBuckets(models, rows, reserve(rows, classes, counts), saving, classes);
    var store := if beforeSave.Some? then beforeSave.value(rows) else rows;
    var flushed := WriteClasses(models, store, prepared, classes);
    if flushed.result.AllSaved? {
      assert classes[..flushed.attempted] == classes;
      DrainingSelectionEmpties(models, rows, reserve(rows, classes, counts), saving);
    }
  }

  /** Preparing and then draining every class with pending records leaves every bucket empty. */
  lemma DrainingSelectionEmpties(models: ModelClass -> ModelOps, rows: set<RowKey>, pk: KeyAllocator, saving: Buckets)
    requires HasAllBuckets(saving)
    ensures var classes := SavingClasses(saving, SavingClassesOrder);
            var after := Drained(PreparedBuckets(models, rows, pk, saving, classes), classes);
            && HasAllBuckets(after)
            && forall c :: c in after ==> after[c] == []
  {
    var classes := SavingClasses(saving, SavingClassesOrder);
    forall c | c in saving
      ensures c in classes || saving[c] == []
    {
      SavingClassesOfSaver(saving, c);
    }
  }

  /** The classes a `save_all` run selects. */
  ghost function RunClasses(saving: Buckets): seq<ModelClass>
    requires HasAllBuckets(saving)
  {
    ListedAreBuffered();
    SavingClasses(saving, SavingClassesOrder)
  }

  /** The buckets of a `save_all` run once every selected class is prepared. */
  ghost function RunPrepared(reserve: (set<RowKey>, seq<ModelClass>, map<ModelClass, nat>) -> KeyAllocator,
                             models: ModelClass -> ModelOps, rows: set<RowKey>, saving: Buckets): Buckets
    requires HasAllBuckets(saving)
  {
    ListedAreBuffered();
    var classes := RunClasses(saving);
    PreparedBuckets(models, rows, reserve(rows, classes, ItemCounts(saving, classes)), saving, classes)
  }

  /**
   * When `save_all` fails, the failing class's bucket is already empty. A
   * bucket that still holds records belongs to a class ranked after the
   * failing one and holds exactly its prepared records. Every class with
   * pending records ranked after the failing one keeps its prepared records.
   */
  lemma FailedRunKeepsLaterBuckets(reserve: (set<RowKey>, seq<ModelClass>, map<ModelClass, nat>) -> KeyAllocator,
                                   models: ModelClass -> ModelOps, rows: set<RowKey>, saving: Buckets,
                                   beforeSave: Option<set<RowKey> -> set<RowKey>>, c: ModelClass)
    requires HasAllBuckets(saving)
    ensures var run := SaveAllRun(reserve, models, rows, saving, beforeSave);
            var prepared := RunPrepared(reserve, models, rows, saving);
            run.result.Failed? ==>
              && run.result.cls in run.buckets && run.buckets[run.result.cls] == []
              && (c in run.buckets && run.buckets[c] != [] ==>
                    Rank(run.result.cls) < Rank(c) && c in prepared && run.buckets[c] == prepared[c])
              && (c in saving && saving[c] != [] && Rank(run.result.cls) < Rank(c) ==>
                    c in run.buckets && c in prepared && run.buckets[c] == prepared[c])
  {
    var classes := RunClasses(saving);
    RunWritesPrepared(reserve, models, rows, saving, beforeSave);
    FailedWriteKeepsLater(models, rows, reserve(rows, classes, ItemCounts(saving, classes)), saving,
                          if beforeSave.Some? then beforeSave.value(rows) else rows, c);
  }

  /**
   * The write loop over the prepared buckets of the selected classes
   * failed: the failing class is drained, and a bucket still holding
   * records belongs to a class ranked after it and is its prepared bucket.
   */
  lemma FailedWriteKeepsLater(models: ModelClass -> ModelOps, rows: set<RowKey>, pk: KeyAllocator, saving: Buckets,
                              store: set<RowKey>, c: ModelClass)
    requires HasAllBuckets(saving)
    ensures var classes := RunClasses(saving);
            var prepared := PreparedBuckets(models, rows, pk, saving, classes);
            var f := WriteClasses(models, store, prepared, classes);
            var after := Drained(prepared, classes[..f.attempted]);
            f.result.Failed? ==>
              && f.result.cls in after && after[f.result.cls] == []
              && (c in after && after[c] != [] ==> Rank(f.result.cls) < Rank(c) && c in prepared && after[c] == prepared[c])
              && (c in saving && saving[c] != [] && Rank(f.result.cls) < Rank(c) ==>
                    c in after && c in prepared && after[c] == prepared[c])
  {
    var classes := RunClasses(saving);
    var prepared := PreparedBuckets(models, rows, pk, saving, classes);
    var f := WriteClasses(models, store, prepared, classes);
    if f.result.Failed? {
      SavingClassesOfSaver(saving, c);
      FailedDrainKeepsLater(models, store, prepared, classes, c);
      if c in saving && c !in classes {
        assert prepared[c] == saving[c] == [];
      }
    }
  }

  /** A `save_all` run ends as the write loop over its prepared buckets leaves them. */
  lemma RunWritesPrepared(reserve: (set<RowKey>, seq<ModelClass>, map<ModelClass, nat>) -> KeyAllocator,
                          models: ModelClass -> ModelOps, rows: set<RowKey>, saving: Buckets,
                          beforeSave: Option<set<RowKey> -> set<RowKey>>)
    requires HasAllBuckets(saving)
    ensures var classes := RunClasses(saving);
            var prepared := RunPrepared(reserve, models, rows, saving);
            var store := if beforeSave.Some? then beforeSave.value(rows) else rows;
            var flushed := WriteClasses(models, store, prepared, classes);
            var run := SaveAllRun(reserve, models, rows, saving, beforeSave);
            run.result == flushed.result && run.buckets == Drained(prepared, classes[..flushed.attempted])
  {
    ListedAreBuffered();
  }

  /**
   * The write loop failed: the failing class is drained, and every other
   * bucket still holding records belongs to a class it never reached, which
   * ranks after the failing one when the classes are in order.
   */
  lemma FailedDrainKeepsLater(models: ModelClass -> ModelOps, rows: set<RowKey>, buckets: Buckets,
                              classes: seq<ModelClass>, c: ModelClass)
    requires InOrder(classes)
    requires forall i :: 0 <= i < |classes| ==> classes[i] in buckets
    requires WriteClasses(models, rows, buckets, classes).result.Failed?
    ensures var f := WriteClasses(models, rows, buckets, classes);
            var after := Drained(buckets, classes[..f.attempted]);
            && f.result.cls in after && after[f.result.cls] == []
            && (c in after && after[c] != [] ==> after[c] == buckets[c] && (c in classes ==> Rank(f.result.cls) < Rank(c)))
            && (c in classes && Rank(f.result.cls) < Rank(c) ==> c in after && after[c] == buckets[c])
  {
    WriteClassesFailed(models, rows, buckets, classes);
    DrainedPrefixRanks(buckets, classes, WriteClasses(models, rows, buckets, classes).attempted, c);
  }

  /**
   * Draining the first `a` classes of a list in order empties the last of
   * them and leaves untouched exactly the buckets of the classes ranked
   * after it, and those of classes not in the list.
   */
  lemma DrainedPrefixRanks(buckets: Buckets, classes: seq<ModelClass>, a: nat, c: ModelClass)
    requires InOrder(classes) && 1 <= a <= |classes|
    requires forall i :: 0 <= i < |classes| ==> classes[i] in buckets
    ensures var after := Drained(buckets, classes[..a]);
            && classes[a - 1] in after && after[classes[a - 1]] == []
            && (c in after && after[c] != [] ==> after[c] == buckets[c] && (c in classes ==> Rank(classes[a - 1]) < Rank(c)))
            && (c in classes && Rank(classes[a - 1]) < Rank(c) ==> c in after && after[c] == buckets[c])
  {
    var done := classes[..a];
    assert done[a - 1] == classes[a - 1];
    if c in done {
      RankInPrefix(classes, a, c);
    } else if c in classes {
      RankAfterPrefix(classes, a, c);
    }
  }

  /** A class among the first `a` of a list in order ranks no higher than the `a`-th. */
  lemma RankInPrefix(classes: seq<ModelClass>, a: nat, c: ModelClass)
    requires InOrder(classes) && 1 <= a <= |classes| && c in classes[..a]
    ensures Rank(c) <= Rank(classes[a - 1])
  {
    var j :| 0 <= j < a && classes[..a][j] == c;
    assert classes[j] == c;
    if j < a - 1 {
      InOrderRanks(classes);
    }
  }

  /** A class of a list in order that is not among its first `a` ranks above the `a`-th. */
  lemma RankAfterPrefix(classes: seq<ModelClass>, a: nat, c: ModelClass)
    requires InOrder(classes) && 1 <= a <= |classes| && c in classes && c !in classes[..a]
    ensures Rank(classes[a - 1]) < Rank(c)
  {
    var k :| 0 <= k < |classes| && classes[k] == c;
    if k < a {
      assert false;
    }
    InOrderRanks(classes);
  }

  lemma NothingSelected(saving: Buckets)
    requires HasAllBuckets(saving)
    requires forall c :: c in saving ==> saving[c] == []
    ensures SavingClasses(saving, SavingClassesOrder) == []
  {
    var classes := SavingClasses(saving, SavingClassesOrder);
    if classes != [] {
      SavingClassesOfSaver(saving, classes[0]);
      assert false;
    }
  }

  /**
   * With every bucket empty, `save_all` handles no class, writes nothing and
   * cannot fail: the store is the hook's, the buckets are untouched, and the
   * log holds only the empty reservation and the hook.
   */
  lemma NothingPendingIsNoOp(reserve: (set<RowKey>, seq<ModelClass>, map<ModelClass, nat>) -> KeyAllocator,
                             models: ModelClass -> ModelOps, rows: set<RowKey>, saving: Buckets,
                             beforeSave: Option<set<RowKey> -> set<RowKey>>)
    requires HasAllBuckets(saving)
    requires forall c :: c in saving ==> saving[c] == []
    ensures SavingClasses(saving, SavingClassesOrder) == []
    ensures WriteClasses(models, rows, saving, []) == Flushed(AllSaved, rows, 0)
    ensures var store := if beforeSave.Some? then beforeSave.value(rows) else rows;
            SaveAllRun(reserve, models, rows, saving, beforeSave)
            == Run(AllSaved, store, saving, [Reserved([], map[])] + (if beforeSave.Some? then [HookRan] else []))
  {
    NothingSelected(saving);
    var classes := SavingClasses(saving, SavingClassesOrder);
    assert ItemCounts(saving, classes) == map[];
    PreparedNone(models, rows, reserve(rows, classes, map[]), saving);
    DrainedNone(saving);
    assert classes[..0] == [];
    assert SaveAllSteps(classes, map[], beforeSave.Some?, 0)
        == [Reserved([], map[])] + (if beforeSave.Some? then [HookRan] else []);
  }
}
