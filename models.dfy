/**
 * The values the bulk saver handles: model classes, pending records, the
 * unique keys the store enforces, and the per-class capabilities (`prepare`,
 * `merge`, `to_dict`) it calls without knowing what they do.
 */
module Models {

  /**
   * A model class. The first twelve are the classes the bulk saver buffers;
   * `OtherModel` stands for every model it refuses (those are added to the
   * session directly).
   */
  datatype ModelClass =
    | SharedText
    | Issue
    | IssueInstanceFixInfo
    | IssueInstance
    | IssueInstanceSharedTextAssoc
    | TraceFrame
    | IssueInstanceTraceFrameAssoc
    | TraceFrameAnnotation
    | TraceFrameLeafAssoc
    | TraceFrameAnnotationTraceFrameAssoc
    | ClassTypeInterval
    | MetaRunIssueInstanceIndex
    | OtherModel(name: string)

  /** `cls.__name__`. */
  function Name(c: ModelClass): string
  {
    match c
    case SharedText => "SharedText"
    case Issue => "Issue"
    case IssueInstanceFixInfo => "IssueInstanceFixInfo"
    case IssueInstance => "IssueInstance"
    case IssueInstanceSharedTextAssoc => "IssueInstanceSharedTextAssoc"
    case TraceFrame => "TraceFrame"
    case IssueInstanceTraceFrameAssoc => "IssueInstanceTraceFrameAssoc"
    case TraceFrameAnnotation => "TraceFrameAnnotation"
    case TraceFrameLeafAssoc => "TraceFrameLeafAssoc"
    case TraceFrameAnnotationTraceFrameAssoc => "TraceFrameAnnotationTraceFrameAssoc"
    case ClassTypeInterval => "ClassTypeInterval"
    case MetaRunIssueInstanceIndex => "MetaRunIssueInstanceIndex"
    case OtherModel(name) => name
  }

  /**
   * A pending record: the model it belongs to (`item.model`), the values of
   * the columns its table declares unique, and the column/value pairs
   * `to_dict` returns, in the dictionary's order.
   */
  datatype Record = Record(model: ModelClass, unique: seq<string>, fields: seq<(string, string)>)

  /** A value of a unique constraint of one table; the store refuses a second row with it. */
  datatype RowKey = RowKey(model: ModelClass, values: seq<string>)

  /**
   * The unique key the store checks when `r` is inserted into the table of
   * `table`, the class being saved: the key belongs to that table whatever
   * `r.model` says.
   */
  function KeyOf(table: ModelClass, r: Record): (k: RowKey)
    ensures k.model == table
  {
    RowKey(table, r.unique)
  }

  /** `list(cls.to_dict(r).keys())`: the record's column names, in order. */
  function FieldNames(r: Record): (names: seq<string>)
    ensures |names| == |r.fields|
    ensures forall i :: 0 <= i < |names| ==> names[i] == r.fields[i].0
  {
    seq(|r.fields|, i requires 0 <= i < |r.fields| => r.fields[i].0)
  }

  /** What `PrimaryKeyGenerator.reserve` hands back: the first id reserved for each class. */
  type KeyAllocator = map<ModelClass, int>

  /**
   * The two class methods the bulk saver calls without knowing what they do:
   * `prepare(store, pk_gen, items)` returns the records to insert, and
   * `merge(store, items)` returns the items it could not resolve against
   * existing rows.
   */
  datatype ModelOps = ModelOps(
    prepare: (set<RowKey>, KeyAllocator, seq<Record>) -> seq<Record>,
    merge: (set<RowKey>, seq<Record>) -> seq<Record>)
}
