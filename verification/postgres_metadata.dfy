/**
 * The native catalog queries of `PostgresMetadataRepository`, each modelled
 * as a pure selection over an abstract sequence of catalog rows: keep the
 * rows the WHERE clause admits, order them by the ORDER BY key, and project
 * each onto a `PostgresObject` descriptor.
 *
 * A `ClassRow` is a row of pg_class already joined with its pg_namespace
 * row (`nspname`).  The `now` parameter stands for CURRENT_TIMESTAMP rendered
 * by to_char, which the queries put in both `createdAt` and `updatedAt`.
 */
module PostgresMetadata {
  import opened Seqs
  import opened Collation
  import opened DatabaseObjects

  datatype ClassRow = ClassRow(relname: string, relkind: char, nspname: string)

  datatype ProcRow = ProcRow(proname: string, nspname: string)

  datatype RoutineRow = RoutineRow(routineName: string, routineSchema: string, routineType: string)

  datatype TableConstraintRow = TableConstraintRow(constraintName: string, constraintType: string,
                                                   constraintSchema: string)

  /** The relkind codes the all-objects query admits. */
  const ListedRelkinds: set<char> := {'r', 'v', 'i', 'S', 'f'}

  const RelkindLabels: set<string> := {"TABLE", "VIEW", "INDEX", "SEQUENCE", "FOREIGN TABLE"}

  /** The CASE over c.relkind; any other code becomes its own one-character text. */
  function RelkindLabel(relkind: char): string {
    if relkind == 'r' then "TABLE"
    else if relkind == 'v' then "VIEW"
    else if relkind == 'i' then "INDEX"
    else if relkind == 'S' then "SEQUENCE"
    else if relkind == 'f' then "FOREIGN TABLE"
    else [relkind]
  }

  /** Reads a type label back to the relkind code it was produced from. */
  function RelkindOf(typeName: string): char {
    if typeName == "TABLE" then 'r'
    else if typeName == "VIEW" then 'v'
    else if typeName == "INDEX" then 'i'
    else if typeName == "SEQUENCE" then 'S'
    else if typeName == "FOREIGN TABLE" then 'f'
    else if |typeName| == 1 then typeName[0]
    else ' '
  }

  /**
   * The relkind mapping loses nothing: every code is recovered from its
   * label, and exactly the five listed codes get one of the five labels.
   */
  lemma RelkindLabelRoundTrip(relkind: char)
    ensures RelkindOf(RelkindLabel(relkind)) == relkind
    ensures relkind in ListedRelkinds <==> RelkindLabel(relkind) in RelkindLabels
  {
  }

  /** What every returned descriptor looks like for the `:schemaName` argument. */
  predicate InSchema(o: DatabaseObject, schemaName: string, now: string) {
    && o.schema == schemaName
    && o.details.PostgresDetails?
    && o.details.schemaName == schemaName
    && o.details.id == QualifiedId(schemaName, o.name)
    && o.details.objectType == o.kind
    && o.details.createdAt == now
    && o.details.updatedAt == now
  }

  function Describe(name: string, typeName: string, schema: string, now: string): DatabaseObject {
    DatabaseObject(name, typeName, schema, PostgresDetails(QualifiedId(schema, name), schema, typeName, now, now))
  }

  // ---------------------------------------------------------------------
  // pg_class

  function ListedIn(schemaName: string): ClassRow -> bool {
    (row: ClassRow) => row.nspname == schemaName && row.relkind in ListedRelkinds
  }

  function RelkindThenName(row: ClassRow): seq<string> {
    [[row.relkind], row.relname]
  }

  function DescribeListed(now: string): ClassRow -> DatabaseObject {
    (row: ClassRow) => Describe(row.relname, RelkindLabel(row.relkind), row.nspname, now)
  }

  /** Descriptor sort key matching ORDER BY c.relkind, c.relname: the raw code, not the label. */
  function RelkindThenNameKey(o: DatabaseObject): seq<string> {
    [[RelkindOf(o.kind)], o.name]
  }

  /** Ordering the rows by raw relkind orders their descriptors by the code read back from the label. */
  lemma ListingKeepsRelkindOrder(rows: seq<ClassRow>, now: string)
    requires SortedBy(rows, RelkindThenName)
    ensures SortedBy(Map(DescribeListed(now), rows), RelkindThenNameKey)
  {
    var r := Map(DescribeListed(now), rows);
    forall i | 0 <= i < |rows|
      ensures RelkindThenNameKey(r[i]) == RelkindThenName(rows[i])
    {
      RelkindLabelRoundTrip(rows[i].relkind);
    }
  }

  lemma ListingShape(rows: seq<ClassRow>, schemaName: string, now: string)
    requires forall i | 0 <= i < |rows| :: ListedIn(schemaName)(rows[i])
    ensures forall i | 0 <= i < |rows| ::
              var o := DescribeListed(now)(rows[i]);
              InSchema(o, schemaName, now) && o.kind in RelkindLabels
  {
    forall i | 0 <= i < |rows|
      ensures RelkindLabel(rows[i].relkind) in RelkindLabels
    {
      RelkindLabelRoundTrip(rows[i].relkind);
    }
  }

  /**
   * `findAllObjectsBySchema`: the schema's tables, views, indexes, sequences
   * and foreign tables, ordered by relkind code and then name.
   */
  function FindAllObjectsBySchema(classes: seq<ClassRow>, schemaName: string, now: string)
    : (r: seq<DatabaseObject>)
    ensures forall i | 0 <= i < |r| :: InSchema(r[i], schemaName, now) && r[i].kind in RelkindLabels
    ensures SortedBy(r, RelkindThenNameKey)
    ensures multiset(r) == multiset(Map(DescribeListed(now), Filter(classes, ListedIn(schemaName))))
  {
    var rows := SelectOrderBy(classes, ListedIn(schemaName), RelkindThenName);
    MapPreservesPermutation(DescribeListed(now), rows, Filter(classes, ListedIn(schemaName)));
    ListingKeepsRelkindOrder(rows, now);
    ListingShape(rows, schemaName, now);
    Map(DescribeListed(now), rows)
  }

  /**
   * Ordering is by the raw code, not by the label: an index named "a" and a
   * sequence named "b" list the SEQUENCE first ('S' precedes 'i'), although
   * the label INDEX would sort before SEQUENCE.
   */
  lemma SequenceListedBeforeIndex(now: string)
    ensures FindAllObjectsBySchema([ClassRow("a", 'i', "s"), ClassRow("b", 'S', "s")], "s", now)
            == [Describe("b", "SEQUENCE", "s", now), Describe("a", "INDEX", "s", now)]
    ensures StringLt("INDEX", "SEQUENCE")
  {
    var index := ClassRow("a", 'i', "s");
    var sequence := ClassRow("b", 'S', "s");
    var classes := [index, sequence];
    assert classes[1..] == [sequence] && [sequence][1..] == [];
    assert Filter(classes, ListedIn("s")) == classes;
    assert SortBy([sequence], RelkindThenName) == [sequence];
    assert RelkindThenName(index) == ["i", "a"];
    assert RelkindThenName(sequence) == ["S", "b"];
    assert !StringLe("i", "S");
    assert !KeyLe(["i", "a"], ["S", "b"]);
    assert Insert(index, [sequence], RelkindThenName) == [sequence, index];
    assert SortBy(classes, RelkindThenName) == [sequence, index];
    assert StringLe("INDEX", "SEQUENCE");
  }

  /** The relation kinds with a query of their own over pg_class. */
  datatype RelationKind = Tables | Views | Sequences | Indexes
  {
    function Code(): char {
      match this
      case Tables => 'r'
      case Views => 'v'
      case Sequences => 'S'
      case Indexes => 'i'
    }

    function Label(): string {
      match this
      case Tables => "TABLE"
      case Views => "VIEW"
      case Sequences => "SEQUENCE"
      case Indexes => "INDEX"
    }
  }

  function OfKindIn(schemaName: string, relkind: char): ClassRow -> bool {
    (row: ClassRow) => row.nspname == schemaName && row.relkind == relkind
  }

  function RelationName(row: ClassRow): seq<string> {
    [row.relname]
  }

  function DescribeRelationAs(typeName: string, now: string): ClassRow -> DatabaseObject {
    (row: ClassRow) => Describe(row.relname, typeName, row.nspname, now)
  }

  /**
   * `findAllTablesBySchema`, `findAllViewsBySchema`, `findAllSequencesBySchema`
   * and `findAllIndexesBySchema`: the schema's relations of one relkind,
   * labelled with that kind's constant, ordered by name.
   */
  function FindRelationsOfKindBySchema(classes: seq<ClassRow>, schemaName: string, kind: RelationKind,
                                       now: string): (r: seq<DatabaseObject>)
    ensures forall i | 0 <= i < |r| :: InSchema(r[i], schemaName, now) && r[i].kind == kind.Label()
    ensures SortedBy(r, NameKey)
    ensures multiset(r) == multiset(Map(DescribeRelationAs(kind.Label(), now),
                                        Filter(classes, OfKindIn(schemaName, kind.Code()))))
  {
    var rows := SelectOrderBy(classes, OfKindIn(schemaName, kind.Code()), RelationName);
    MapPreservesPermutation(DescribeRelationAs(kind.Label(), now), rows,
                            Filter(classes, OfKindIn(schemaName, kind.Code())));
    ProjectionKeepsOrder(rows, DescribeRelationAs(kind.Label(), now), RelationName, NameKey);
    Map(DescribeRelationAs(kind.Label(), now), rows)
  }

  /** The per-kind label is the label the all-objects query gives the same code. */
  lemma RelationKindLabelAgrees(kind: RelationKind)
    ensures kind.Code() in ListedRelkinds && RelkindLabel(kind.Code()) == kind.Label()
  {
  }

  // ---------------------------------------------------------------------
  // pg_proc

  function ProcIn(schemaName: string): ProcRow -> bool {
    (row: ProcRow) => row.nspname == schemaName
  }

  function ProcName(row: ProcRow): seq<string> {
    [row.proname]
  }

  function DescribeFunction(now: string): ProcRow -> DatabaseObject {
    (row: ProcRow) => Describe(row.proname, "FUNCTION", row.nspname, now)
  }

  /** `findAllFunctionsBySchema`: every pg_proc entry of the schema, typed FUNCTION, ordered by name. */
  function FindAllFunctionsBySchema(procs: seq<ProcRow>, schemaName: string, now: string)
    : (r: seq<DatabaseObject>)
    ensures forall i | 0 <= i < |r| :: InSchema(r[i], schemaName, now) && r[i].kind == "FUNCTION"
    ensures SortedBy(r, NameKey)
    ensures multiset(r) == multiset(Map(DescribeFunction(now), Filter(procs, ProcIn(schemaName))))
  {
    var rows := SelectOrderBy(procs, ProcIn(schemaName), ProcName);
    MapPreservesPermutation(DescribeFunction(now), rows, Filter(procs, ProcIn(schemaName)));
    ProjectionKeepsOrder(rows, DescribeFunction(now), ProcName, NameKey);
    Map(DescribeFunction(now), rows)
  }

  // ---------------------------------------------------------------------
  // information_schema.routines

  function ProcedureIn(schemaName: string): RoutineRow -> bool {
    (row: RoutineRow) => row.routineSchema == schemaName && row.routineType == "PROCEDURE"
  }

  function RoutineName(row: RoutineRow): seq<string> {
    [row.routineName]
  }

  function DescribeProcedure(now: string): RoutineRow -> DatabaseObject {
    (row: RoutineRow) => Describe(row.routineName, "PROCEDURE", row.routineSchema, now)
  }

  /** `findAllProceduresBySchema`: the schema's routines of routine type PROCEDURE, ordered by name. */
  function FindAllProceduresBySchema(routines: seq<RoutineRow>, schemaName: string, now: string)
    : (r: seq<DatabaseObject>)
    ensures forall i | 0 <= i < |r| :: InSchema(r[i], schemaName, now) && r[i].kind == "PROCEDURE"
    ensures SortedBy(r, NameKey)
    ensures multiset(r) == multiset(Map(DescribeProcedure(now), Filter(routines, ProcedureIn(schemaName))))
  {
    var rows := SelectOrderBy(routines, ProcedureIn(schemaName), RoutineName);
    MapPreservesPermutation(DescribeProcedure(now), rows, Filter(routines, ProcedureIn(schemaName)));
    ProjectionKeepsOrder(rows, DescribeProcedure(now), RoutineName, NameKey);
    Map(DescribeProcedure(now), rows)
  }

  /** Each returned procedure comes from a routine of the schema whose routine_type is PROCEDURE. */
  lemma ProceduresAreProcedureRoutines(routines: seq<RoutineRow>, schemaName: string, now: string)
    ensures var r := FindAllProceduresBySchema(routines, schemaName, now);
            forall i | 0 <= i < |r| ::
              exists row | row in routines ::
                row.routineSchema == schemaName && row.routineType == "PROCEDURE" && r[i].name == row.routineName
  {
    var r := FindAllProceduresBySchema(routines, schemaName, now);
    ImageProvenance(r, DescribeProcedure(now), routines, ProcedureIn(schemaName));
  }

  // ---------------------------------------------------------------------
  // information_schema.table_constraints

  function ConstraintIn(schemaName: string): TableConstraintRow -> bool {
    (row: TableConstraintRow) => row.constraintSchema == schemaName
  }

  function ConstraintName(row: TableConstraintRow): seq<string> {
    [row.constraintName]
  }

  function DescribeConstraint(now: string): TableConstraintRow -> DatabaseObject {
    (row: TableConstraintRow) => Describe(row.constraintName, row.constraintType, row.constraintSchema, now)
  }

  /**
   * `findAllConstraintsBySchema`: the schema's constraints, ordered by name,
   * with constraint_type passed through unmapped as both type and objectType.
   */
  function FindAllConstraintsBySchema(constraints: seq<TableConstraintRow>, schemaName: string, now: string)
    : (r: seq<DatabaseObject>)
    ensures forall i | 0 <= i < |r| :: InSchema(r[i], schemaName, now)
    ensures forall i | 0 <= i < |r| ::
              exists row | row in constraints :: row.constraintName == r[i].name && row.constraintType == r[i].kind
    ensures SortedBy(r, NameKey)
    ensures multiset(r) == multiset(Map(DescribeConstraint(now), Filter(constraints, ConstraintIn(schemaName))))
  {
    var rows := SelectOrderBy(constraints, ConstraintIn(schemaName), ConstraintName);
    MapPreservesPermutation(DescribeConstraint(now), rows, Filter(constraints, ConstraintIn(schemaName)));
    ProjectionKeepsOrder(rows, DescribeConstraint(now), ConstraintName, NameKey);
    Map(DescribeConstraint(now), rows)
  }
}
