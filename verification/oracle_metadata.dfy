/**
 * The native catalog queries of `OracleMetadataRepository`, each modelled as
 * a pure selection over an abstract sequence of catalog rows: keep the rows
 * the WHERE clause admits, order them by the ORDER BY key, and project each
 * onto an `OracleObject` descriptor.
 *
 * Rows of ALL_OBJECTS carry CREATED and LAST_DDL_TIME already rendered by
 * TO_CHAR(.., 'YYYY-MM-DD HH24:MI:SS'); the rendering itself is not modelled.
 */
module OracleMetadata {
  import opened Wrappers
  import opened Seqs
  import opened Collation
  import opened DatabaseObjects

  datatype ObjectRow = ObjectRow(objectName: string, objectType: string, owner: string, status: string,
                                 created: string, lastDdlTime: string)

  datatype IndexRow = IndexRow(indexName: string, owner: string, status: string)

  datatype ConstraintRow = ConstraintRow(constraintName: string, constraintType: string, owner: string,
                                         status: string)

  /** The object kinds with a query of their own over ALL_OBJECTS. */
  datatype ObjectKind = Table | View | Procedure | Function | Sequence
  {
    function Label(): string {
      match this
      case Table => "TABLE"
      case View => "VIEW"
      case Procedure => "PROCEDURE"
      case Function => "FUNCTION"
      case Sequence => "SEQUENCE"
    }
  }

  /** What every returned descriptor looks like for the `:owner` argument. */
  predicate OwnedDescriptor(o: DatabaseObject, owner: string) {
    && o.schema == owner
    && o.details.OracleDetails?
    && o.details.owner == owner
    && o.details.id == QualifiedId(owner, o.name)
  }

  predicate HasTimestamps(o: DatabaseObject) {
    o.details.OracleDetails? && o.details.created.Some? && o.details.lastDdlTime.Some?
  }

  predicate WithoutTimestamps(o: DatabaseObject) {
    o.details.OracleDetails? && o.details.created.None? && o.details.lastDdlTime.None?
  }

  // ---------------------------------------------------------------------
  // ALL_OBJECTS

  function OwnedBy(owner: string): ObjectRow -> bool {
    (row: ObjectRow) => row.owner == owner
  }

  function OwnedOfType(owner: string, objectType: string): ObjectRow -> bool {
    (row: ObjectRow) => row.owner == owner && row.objectType == objectType
  }

  function TypeThenName(row: ObjectRow): seq<string> {
    [row.objectType, row.objectName]
  }

  function ObjectName(row: ObjectRow): seq<string> {
    [row.objectName]
  }

  function Describe(row: ObjectRow, objectType: string): DatabaseObject {
    DatabaseObject(row.objectName, objectType, row.owner,
                   OracleDetails(QualifiedId(row.owner, row.objectName), row.owner, row.status,
                                 Some(row.created), Some(row.lastDdlTime)))
  }

  function DescribeAsListed(row: ObjectRow): DatabaseObject {
    Describe(row, row.objectType)
  }

  function DescribeAs(objectType: string): ObjectRow -> DatabaseObject {
    (row: ObjectRow) => Describe(row, objectType)
  }

  /** Descriptor sort key matching ORDER BY OBJECT_TYPE, OBJECT_NAME. */
  function TypeThenNameKey(o: DatabaseObject): seq<string> {
    [o.kind, o.name]
  }

  /** `findAllObjectsByOwner`: every object of the owner, ordered by type and then name. */
  function FindAllObjectsByOwner(allObjects: seq<ObjectRow>, owner: string): (r: seq<DatabaseObject>)
    ensures forall i | 0 <= i < |r| :: OwnedDescriptor(r[i], owner) && HasTimestamps(r[i])
    ensures SortedBy(r, TypeThenNameKey)
    ensures multiset(r) == multiset(Map(DescribeAsListed, Filter(allObjects, OwnedBy(owner))))
  {
    var rows := SelectOrderBy(allObjects, OwnedBy(owner), TypeThenName);
    MapPreservesPermutation(DescribeAsListed, rows, Filter(allObjects, OwnedBy(owner)));
    ProjectionKeepsOrder(rows, DescribeAsListed, TypeThenName, TypeThenNameKey);
    Map(DescribeAsListed, rows)
  }

  /**
   * `findAllTablesByOwner`, `findAllViewsByOwner`, `findAllProceduresByOwner`,
   * `findAllFunctionsByOwner` and `findAllSequencesByOwner`: the owner's objects
   * of one OBJECT_TYPE, labelled with that type's constant, ordered by name.
   */
  function FindObjectsOfKindByOwner(allObjects: seq<ObjectRow>, owner: string, kind: ObjectKind)
    : (r: seq<DatabaseObject>)
    ensures forall i | 0 <= i < |r| :: OwnedDescriptor(r[i], owner) && HasTimestamps(r[i])
    ensures forall i | 0 <= i < |r| :: r[i].kind == kind.Label()
    ensures SortedBy(r, NameKey)
    ensures multiset(r) ==
            multiset(Map(DescribeAs(kind.Label()), Filter(allObjects, OwnedOfType(owner, kind.Label()))))
  {
    var objectType := kind.Label();
    var admit := OwnedOfType(owner, objectType);
    var project := DescribeAs(objectType);
    var rows := SelectOrderBy(allObjects, admit, ObjectName);
    MapPreservesPermutation(project, rows, Filter(allObjects, admit));
    ProjectionKeepsOrder(rows, project, ObjectName, NameKey);
    TypedListingShape(rows, owner, objectType);
    Map(project, rows)
  }

  /** Rows of one owner, described under one type, give owned, timestamped descriptors of that type. */
  lemma TypedListingShape(rows: seq<ObjectRow>, owner: string, objectType: string)
    requires forall i | 0 <= i < |rows| :: OwnedOfType(owner, objectType)(rows[i])
    ensures var r := Map(DescribeAs(objectType), rows);
            forall i | 0 <= i < |r| ::
              OwnedDescriptor(r[i], owner) && HasTimestamps(r[i]) && r[i].kind == objectType
  {
  }

  /** Each descriptor of a per-kind query comes from an ALL_OBJECTS row of that OBJECT_TYPE. */
  lemma KindQueryRowsHaveThatType(allObjects: seq<ObjectRow>, owner: string, kind: ObjectKind)
    ensures var r := FindObjectsOfKindByOwner(allObjects, owner, kind);
            forall i | 0 <= i < |r| ::
              exists row | row in allObjects ::
                row.owner == owner && row.objectType == kind.Label() && r[i] == Describe(row, kind.Label())
  {
    var r := FindObjectsOfKindByOwner(allObjects, owner, kind);
    ImageProvenance(r, DescribeAs(kind.Label()), allObjects, OwnedOfType(owner, kind.Label()));
  }

  // ---------------------------------------------------------------------
  // ALL_INDEXES

  function IndexOwnedBy(owner: string): IndexRow -> bool {
    (row: IndexRow) => row.owner == owner
  }

  function IndexName(row: IndexRow): seq<string> {
    [row.indexName]
  }

  function DescribeIndex(row: IndexRow): DatabaseObject {
    DatabaseObject(row.indexName, "INDEX", row.owner,
                   OracleDetails(QualifiedId(row.owner, row.indexName), row.owner, row.status, None, None))
  }

  /** `findAllIndexesByOwner`: the owner's indexes, typed INDEX, without timestamps, ordered by name. */
  function FindAllIndexesByOwner(indexes: seq<IndexRow>, owner: string): (r: seq<DatabaseObject>)
    ensures forall i | 0 <= i < |r| :: OwnedDescriptor(r[i], owner) && WithoutTimestamps(r[i])
    ensures forall i | 0 <= i < |r| :: r[i].kind == "INDEX"
    ensures SortedBy(r, NameKey)
    ensures multiset(r) == multiset(Map(DescribeIndex, Filter(indexes, IndexOwnedBy(owner))))
  {
    var rows := SelectOrderBy(indexes, IndexOwnedBy(owner), IndexName);
    MapPreservesPermutation(DescribeIndex, rows, Filter(indexes, IndexOwnedBy(owner)));
    ProjectionKeepsOrder(rows, DescribeIndex, IndexName, NameKey);
    Map(DescribeIndex, rows)
  }

  // ---------------------------------------------------------------------
  // ALL_CONSTRAINTS

  const ConstraintLabels: set<string> := {"PRIMARY KEY", "UNIQUE", "CHECK", "FOREIGN KEY", "CONSTRAINT"}

  /** The CASE over CONSTRAINT_TYPE; every code outside P, U, C and R becomes CONSTRAINT. */
  function ConstraintTypeLabel(code: string): (name: string)
    ensures name in ConstraintLabels
  {
    if code == "P" then "PRIMARY KEY"
    else if code == "U" then "UNIQUE"
    else if code == "C" then "CHECK"
    else if code == "R" then "FOREIGN KEY"
    else "CONSTRAINT"
  }

  /** Reads a constraint label back to the code it was mapped from, when that code is determined. */
  function ConstraintCodeOf(name: string): Option<string> {
    if name == "PRIMARY KEY" then Some("P")
    else if name == "UNIQUE" then Some("U")
    else if name == "CHECK" then Some("C")
    else if name == "FOREIGN KEY" then Some("R")
    else None
  }

  /**
   * The four named codes survive the mapping (distinct labels, read back to
   * the code); every other code collapses onto the one label CONSTRAINT.
   */
  lemma ConstraintLabelRoundTrip(code: string)
    ensures code in {"P", "U", "C", "R"} ==> ConstraintCodeOf(ConstraintTypeLabel(code)) == Some(code)
    ensures code !in {"P", "U", "C", "R"} <==> ConstraintTypeLabel(code) == "CONSTRAINT"
    ensures ConstraintCodeOf(ConstraintTypeLabel(code)).None? <==> ConstraintTypeLabel(code) == "CONSTRAINT"
  {
  }

  function ConstraintOwnedBy(owner: string): ConstraintRow -> bool {
    (row: ConstraintRow) => row.owner == owner
  }

  function ConstraintName(row: ConstraintRow): seq<string> {
    [row.constraintName]
  }

  function DescribeConstraint(row: ConstraintRow): DatabaseObject {
    DatabaseObject(row.constraintName, ConstraintTypeLabel(row.constraintType), row.owner,
                   OracleDetails(QualifiedId(row.owner, row.constraintName), row.owner, row.status, None, None))
  }

  /**
   * `findAllConstraintsByOwner`: the owner's constraints, typed by the label
   * of their constraint code, without timestamps, ordered by name.
   */
  function FindAllConstraintsByOwner(constraints: seq<ConstraintRow>, owner: string): (r: seq<DatabaseObject>)
    ensures forall i | 0 <= i < |r| :: OwnedDescriptor(r[i], owner) && WithoutTimestamps(r[i])
    ensures forall i | 0 <= i < |r| :: r[i].kind in ConstraintLabels
    ensures SortedBy(r, NameKey)
    ensures multiset(r) == multiset(Map(DescribeConstraint, Filter(constraints, ConstraintOwnedBy(owner))))
  {
    var rows := SelectOrderBy(constraints, ConstraintOwnedBy(owner), ConstraintName);
    MapPreservesPermutation(DescribeConstraint, rows, Filter(constraints, ConstraintOwnedBy(owner)));
    ProjectionKeepsOrder(rows, DescribeConstraint, ConstraintName, NameKey);
    Map(DescribeConstraint, rows)
  }
}
