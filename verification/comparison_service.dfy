/**
 * `DatabaseComparisonService`: the case-insensitive two-way difference of
 * the Oracle and PostgreSQL object lists, and the layout of the four-sheet
 * report built from it.
 *
 * Sheets are modelled as rows of cell strings; cell styles, column sizing
 * and serialisation of the workbook to bytes are not modelled.
 */
module ComparisonService {
  import opened Wrappers
  import opened Seqs
  import Collation
  import opened CaseFold
  import opened DatabaseObjects
  import OracleMetadata
  import PostgresMetadata

  // ---------------------------------------------------------------------
  // compareSchemas

  /**
   * The test inside `noneMatch`: `other`, an element of the list searched,
   * has the name and the type of `x`, both ignoring case.
   */
  predicate Matches(other: DatabaseObject, x: DatabaseObject) {
    EqualsIgnoreCase(other.name, x.name) && EqualsIgnoreCase(other.kind, x.kind)
  }

  predicate NoneMatch(x: DatabaseObject, others: seq<DatabaseObject>) {
    forall k | 0 <= k < |others| :: !Matches(others[k], x)
  }

  function UnmatchedIn(others: seq<DatabaseObject>): DatabaseObject -> bool {
    (x: DatabaseObject) => NoneMatch(x, others)
  }

  /** `xs.stream().filter(x -> others.stream().noneMatch(..)).collect(toList())`. */
  function Missing(xs: seq<DatabaseObject>, others: seq<DatabaseObject>): (r: seq<DatabaseObject>)
    ensures IsSubsequence(r, xs)
    ensures forall i | 0 <= i < |r| :: NoneMatch(r[i], others)
  {
    Filter(xs, UnmatchedIn(others))
  }

  /** The four entries of the map `compareSchemas` returns, one field per key. */
  datatype ComparisonResult = ComparisonResult(
    oracleObjects: seq<DatabaseObject>,
    postgresObjects: seq<DatabaseObject>,
    missingInPostgres: seq<DatabaseObject>,
    missingInOracle: seq<DatabaseObject>)

  /** An object is reported missing exactly when it is in its own list and nothing in the other matches it. */
  lemma MissingMembership(xs: seq<DatabaseObject>, others: seq<DatabaseObject>)
    ensures forall x :: x in Missing(xs, others) <==> x in xs && NoneMatch(x, others)
  {
    forall x
      ensures x in Missing(xs, others) <==> x in xs && NoneMatch(x, others)
    {
      FilterMembership(xs, UnmatchedIn(others), x);
    }
  }

  /** Duplicates are kept: an unmatched object is reported as often as it is listed, a matched one never. */
  lemma MissingMultiplicity(xs: seq<DatabaseObject>, others: seq<DatabaseObject>, x: DatabaseObject)
    ensures multiset(Missing(xs, others))[x] == if NoneMatch(x, others) then multiset(xs)[x] else 0
  {
    FilterMultiplicity(xs, UnmatchedIn(others), x);
  }

  /** The multiplicity of every object at once. */
  lemma MissingMultiplicities(xs: seq<DatabaseObject>, others: seq<DatabaseObject>)
    ensures forall x :: multiset(Missing(xs, others))[x] == if NoneMatch(x, others) then multiset(xs)[x] else 0
  {
    forall x
      ensures multiset(Missing(xs, others))[x] == if NoneMatch(x, others) then multiset(xs)[x] else 0
    {
      MissingMultiplicity(xs, others, x);
    }
  }

  /** Nothing is missing exactly when every listed object has a match on the other side. */
  lemma MissingEmptyIffAllMatched(xs: seq<DatabaseObject>, others: seq<DatabaseObject>)
    ensures Missing(xs, others) == [] <==> forall i | 0 <= i < |xs| :: !NoneMatch(xs[i], others)
  {
    FilterEmptyIff(xs, UnmatchedIn(others));
  }

  /** The comparison of the two fetched lists (the filtering part of `compareSchemas`). */
  function CompareObjects(oracleObjects: seq<DatabaseObject>, postgresObjects: seq<DatabaseObject>)
    : (result: ComparisonResult)
    ensures result.oracleObjects == oracleObjects && result.postgresObjects == postgresObjects
    ensures IsSubsequence(result.missingInPostgres, oracleObjects)
    ensures IsSubsequence(result.missingInOracle, postgresObjects)
    ensures forall o :: o in result.missingInPostgres <==> o in oracleObjects && NoneMatch(o, postgresObjects)
    ensures forall p :: p in result.missingInOracle <==> p in postgresObjects && NoneMatch(p, oracleObjects)
    ensures forall o :: multiset(result.missingInPostgres)[o] ==
                        if NoneMatch(o, postgresObjects) then multiset(oracleObjects)[o] else 0
    ensures forall p :: multiset(result.missingInOracle)[p] ==
                        if NoneMatch(p, oracleObjects) then multiset(postgresObjects)[p] else 0
  {
    MissingMembership(oracleObjects, postgresObjects);
    MissingMembership(postgresObjects, oracleObjects);
    MissingMultiplicities(oracleObjects, postgresObjects);
    MissingMultiplicities(postgresObjects, oracleObjects);
    ComparisonResult(oracleObjects, postgresObjects,
                     Missing(oracleObjects, postgresObjects),
                     Missing(postgresObjects, oracleObjects))
  }

  /** The matching test is symmetric, so the two directions apply the same relation. */
  lemma MatchesSymmetric(a: DatabaseObject, b: DatabaseObject)
    ensures Matches(a, b) <==> Matches(b, a)
  {
    EqualsIgnoreCaseSymmetric(a.name, b.name);
    EqualsIgnoreCaseSymmetric(a.kind, b.kind);
  }

  /**
   * The matching test is `DatabaseObject.equals` with the runtime class taken
   * out: it holds exactly when `x`, moved into the class of `other`, equals
   * `other`.  `equals` itself never holds across the two dialects.
   */
  lemma MatchesIsClassAgnosticEquals(other: DatabaseObject, x: DatabaseObject)
    ensures Matches(other, x) <==> Equals(x.(details := other.details), other)
    ensures x.details.OracleDetails? && other.details.PostgresDetails? ==> !Equals(x, other)
  {
    EqualsIgnoreCaseSymmetric(other.name, x.name);
    EqualsIgnoreCaseSymmetric(other.kind, x.kind);
  }

  /** An empty list on one side reports the whole other list, in order, and nothing on the empty side. */
  lemma CompareWithEmpty(objects: seq<DatabaseObject>)
    ensures CompareObjects(objects, []) == ComparisonResult(objects, [], objects, [])
    ensures CompareObjects([], objects) == ComparisonResult([], objects, [], objects)
  {
    FilterKeepsAll(objects, UnmatchedIn([]));
  }

  /** Name and type agree once lower-cased: the descriptors are the same apart from letter case. */
  predicate SameUpToCase(a: DatabaseObject, b: DatabaseObject) {
    ToLower(a.name) == ToLower(b.name) && ToLower(a.kind) == ToLower(b.kind)
  }

  /** Comparing a list with a copy that differs only in letter case reports nothing on either side. */
  lemma CompareCaseVariantsIsEmpty(xs: seq<DatabaseObject>, ys: seq<DatabaseObject>)
    requires |xs| == |ys|
    requires forall i | 0 <= i < |xs| :: SameUpToCase(xs[i], ys[i])
    ensures CompareObjects(xs, ys).missingInPostgres == []
    ensures CompareObjects(xs, ys).missingInOracle == []
  {
    forall i | 0 <= i < |xs|
      ensures Matches(ys[i], xs[i]) && Matches(xs[i], ys[i])
    {
      EqualsIgnoreCaseIffSameLower(ys[i].name, xs[i].name);
      EqualsIgnoreCaseIffSameLower(ys[i].kind, xs[i].kind);
      EqualsIgnoreCaseIffSameLower(xs[i].name, ys[i].name);
      EqualsIgnoreCaseIffSameLower(xs[i].kind, ys[i].kind);
    }
    MissingEmptyIffAllMatched(xs, ys);
    MissingEmptyIffAllMatched(ys, xs);
  }

  /** Comparing a list with itself reports nothing on either side. */
  lemma CompareWithItselfIsEmpty(xs: seq<DatabaseObject>)
    ensures CompareObjects(xs, xs) == ComparisonResult(xs, xs, [], [])
  {
    CompareCaseVariantsIsEmpty(xs, xs);
  }

  /**
   * Matching needs both name and type: two objects with the same name but
   * different types are each reported missing from the other side.
   */
  lemma SameNameDifferentTypeOnBothSides(o: DatabaseObject, p: DatabaseObject)
    requires EqualsIgnoreCase(o.name, p.name) && !EqualsIgnoreCase(o.kind, p.kind)
    ensures CompareObjects([o], [p]) == ComparisonResult([o], [p], [o], [p])
  {
    EqualsIgnoreCaseSymmetric(o.kind, p.kind);
    assert NoneMatch(o, [p]) && NoneMatch(p, [o]);
  }

  /**
   * Both schemas hold table A; Oracle also holds ORA_ONLY and PostgreSQL
   * PG_ONLY.  Exactly ORA_ONLY is missing in PostgreSQL and exactly PG_ONLY
   * is missing in Oracle.
   */
  lemma OneTableOnlyOnEachSide(a: DatabaseObject, oraOnly: DatabaseObject, pgA: DatabaseObject, pgOnly: DatabaseObject)
    requires a.name == "A" && oraOnly.name == "ORA_ONLY" && a.kind == "TABLE" && oraOnly.kind == "TABLE"
    requires pgA.name == "a" && pgOnly.name == "pg_only" && pgA.kind == "TABLE" && pgOnly.kind == "TABLE"
    ensures CompareObjects([a, oraOnly], [pgA, pgOnly]).missingInPostgres == [oraOnly]
    ensures CompareObjects([a, oraOnly], [pgA, pgOnly]).missingInOracle == [pgOnly]
  {
    var oracle := [a, oraOnly];
    var postgres := [pgA, pgOnly];
    assert CharsMatchIgnoreCase('a', 'A') && CharsMatchIgnoreCase('A', 'a');
    assert EqualsIgnoreCase("a", "A") && EqualsIgnoreCase("A", "a");
    EqualsIgnoreCaseReflexive("TABLE");
    assert Matches(postgres[0], a) && Matches(oracle[0], pgA);
    assert NoneMatch(oraOnly, postgres);
    assert NoneMatch(pgOnly, oracle);
    assert oracle[1..] == [oraOnly] && postgres[1..] == [pgOnly];
    assert Filter(oracle, UnmatchedIn(postgres)) == [oraOnly];
    assert Filter(postgres, UnmatchedIn(oracle)) == [pgOnly];
  }

  /**
   * `compareSchemas`: fetch every object of both schemas with the all-objects
   * queries, then compare the two lists.
   */
  function CompareSchemas(oracleCatalog: seq<OracleMetadata.ObjectRow>,
                          postgresCatalog: seq<PostgresMetadata.ClassRow>,
                          oracleSchema: string, postgresSchema: string, now: string): (result: ComparisonResult)
    // the two fetched lists: the schemas' catalog rows, described and sorted as the queries do
    ensures multiset(result.oracleObjects) ==
            multiset(Map(OracleMetadata.DescribeAsListed,
                         Filter(oracleCatalog, OracleMetadata.OwnedBy(oracleSchema))))
    ensures Collation.SortedBy(result.oracleObjects, OracleMetadata.TypeThenNameKey)
    ensures multiset(result.postgresObjects) ==
            multiset(Map(PostgresMetadata.DescribeListed(now),
                         Filter(postgresCatalog, PostgresMetadata.ListedIn(postgresSchema))))
    ensures Collation.SortedBy(result.postgresObjects, PostgresMetadata.RelkindThenNameKey)
    // the two differences: order-preserving selections of the unmatched objects of each side
    ensures IsSubsequence(result.missingInPostgres, result.oracleObjects)
    ensures IsSubsequence(result.missingInOracle, result.postgresObjects)
    ensures forall o :: multiset(result.missingInPostgres)[o] ==
                        if NoneMatch(o, result.postgresObjects) then multiset(result.oracleObjects)[o] else 0
    ensures forall p :: multiset(result.missingInOracle)[p] ==
                        if NoneMatch(p, result.oracleObjects) then multiset(result.postgresObjects)[p] else 0
    ensures forall o :: o in result.missingInPostgres <==>
                        o in result.oracleObjects && NoneMatch(o, result.postgresObjects)
    ensures forall p :: p in result.missingInOracle <==>
                        p in result.postgresObjects && NoneMatch(p, result.oracleObjects)
    // what every reported object looks like
    ensures forall i | 0 <= i < |result.missingInPostgres| ::
              OracleMetadata.OwnedDescriptor(result.missingInPostgres[i], oracleSchema)
    ensures forall i | 0 <= i < |result.missingInOracle| ::
              PostgresMetadata.InSchema(result.missingInOracle[i], postgresSchema, now)
              && result.missingInOracle[i].kind in PostgresMetadata.RelkindLabels
  {
    var oracleObjects := OracleMetadata.FindAllObjectsByOwner(oracleCatalog, oracleSchema);
    var postgresObjects := PostgresMetadata.FindAllObjectsBySchema(postgresCatalog, postgresSchema, now);
    var result := CompareObjects(oracleObjects, postgresObjects);
    DifferencesKeepShape(result, oracleSchema, postgresSchema, now);
    result
  }

  /** The differences are drawn from the fetched lists, so they keep the shape the queries give. */
  lemma DifferencesKeepShape(result: ComparisonResult, oracleSchema: string, postgresSchema: string, now: string)
    requires IsSubsequence(result.missingInPostgres, result.oracleObjects)
    requires IsSubsequence(result.missingInOracle, result.postgresObjects)
    requires forall i | 0 <= i < |result.oracleObjects| ::
               OracleMetadata.OwnedDescriptor(result.oracleObjects[i], oracleSchema)
    requires forall i | 0 <= i < |result.postgresObjects| ::
               PostgresMetadata.InSchema(result.postgresObjects[i], postgresSchema, now)
               && result.postgresObjects[i].kind in PostgresMetadata.RelkindLabels
    ensures forall i | 0 <= i < |result.missingInPostgres| ::
              OracleMetadata.OwnedDescriptor(result.missingInPostgres[i], oracleSchema)
    ensures forall i | 0 <= i < |result.missingInOracle| ::
              PostgresMetadata.InSchema(result.missingInOracle[i], postgresSchema, now)
              && result.missingInOracle[i].kind in PostgresMetadata.RelkindLabels
  {
    SubsequenceMembersAll(result.missingInPostgres, result.oracleObjects);
    SubsequenceMembersAll(result.missingInOracle, result.postgresObjects);
  }

  lemma SubsequenceMembersAll(r: seq<DatabaseObject>, s: seq<DatabaseObject>)
    requires IsSubsequence(r, s)
    ensures forall i | 0 <= i < |r| :: r[i] in s
    ensures |r| <= |s|
  {
    forall i | 0 <= i < |r|
      ensures r[i] in s
    {
      SubsequenceMembers(r, s, r[i]);
    }
    SubsequenceNoLonger(r, s);
  }

  lemma {:induction false} SubsequenceNoLonger(r: seq<DatabaseObject>, s: seq<DatabaseObject>)
    requires IsSubsequence(r, s)
    ensures |r| <= |s|
    decreases |s|
  {
    if |r| > 0 {
      if r[0] == s[0] && IsSubsequence(r[1..], s[1..]) {
        SubsequenceNoLonger(r[1..], s[1..]);
      } else {
        SubsequenceNoLonger(r, s[1..]);
      }
    }
  }

  // ---------------------------------------------------------------------
  // createObjectSheet and generateComparisonReport

  const Header: seq<string> := ["Name", "Type", "Schema"]

  /** The four sheets of the report, in workbook order. */
  const SheetNames: seq<string> := ["Oracle Objects", "PostgreSQL Objects", "Missing in PostgreSQL", "Missing in Oracle"]

  datatype Sheet = Sheet(name: string, rows: seq<seq<string>>)

  /** One data row of a sheet, read back. */
  datatype Listing = Listing(name: string, typeName: string, schema: string)

  function ListingOf(o: DatabaseObject): Listing {
    Listing(o.name, o.kind, o.schema)
  }

  function ReadRows(rows: seq<seq<string>>): Option<seq<Listing>>
    decreases |rows|
  {
    if |rows| == 0 then Some([])
    else if |rows[0]| != 3 then None
    else match ReadRows(rows[1..])
      case None => None
      case Some(rest) => Some([Listing(rows[0][0], rows[0][1], rows[0][2])] + rest)
  }

  /** Reads a sheet back: the header row, then one three-cell row per listed object. */
  function ReadSheet(sheet: Sheet): Option<seq<Listing>> {
    if |sheet.rows| == 0 || sheet.rows[0] != Header then None else ReadRows(sheet.rows[1..])
  }

  function Cells(o: DatabaseObject): seq<string> {
    [o.name, o.kind, o.schema]
  }

  lemma {:induction false} ReadRowsOfCells(objects: seq<DatabaseObject>)
    ensures ReadRows(Map(Cells, objects)) == Some(Map(ListingOf, objects))
    decreases |objects|
  {
    if |objects| > 0 {
      ReadRowsOfCells(objects[1..]);
      assert Map(Cells, objects)[1..] == Map(Cells, objects[1..]);
      assert Map(ListingOf, objects) == [ListingOf(objects[0])] + Map(ListingOf, objects[1..]);
    }
  }

  /**
   * `createObjectSheet`: a header row `Name, Type, Schema`, then row i + 1
   * holding name, type and schema of `objects[i]`.
   */
  method CreateObjectSheet(sheetName: string, objects: seq<DatabaseObject>) returns (sheet: Sheet)
    ensures sheet.name == sheetName
    ensures |sheet.rows| == 1 + |objects| && sheet.rows[0] == Header
    ensures forall i | 0 <= i < |objects| ::
              sheet.rows[i + 1] == [objects[i].name, objects[i].kind, objects[i].schema]
    ensures ReadSheet(sheet) == Some(Map(ListingOf, objects))
  {
    var rows := [Header];
    var rowNum := 1;
    while rowNum <= |objects|
      invariant 1 <= rowNum <= |objects| + 1
      invariant |rows| == rowNum && rows[0] == Header
      invariant forall i | 0 <= i < rowNum - 1 :: rows[i + 1] == Cells(objects[i])
    {
      var obj := objects[rowNum - 1];
      rows := rows + [[obj.name, obj.kind, obj.schema]];
      rowNum := rowNum + 1;
    }
    assert rows[1..] == Map(Cells, objects);
    ReadRowsOfCells(objects);
    sheet := Sheet(sheetName, rows);
  }

  /** The workbook part of `generateComparisonReport`: one sheet per result entry, in the order of `SheetNames`. */
  method WriteReport(result: ComparisonResult) returns (workbook: seq<Sheet>)
    ensures |workbook| == |SheetNames|
    ensures [workbook[0].name, workbook[1].name, workbook[2].name, workbook[3].name] == SheetNames
    ensures && ReadSheet(workbook[0]) == Some(Map(ListingOf, result.oracleObjects))
            && ReadSheet(workbook[1]) == Some(Map(ListingOf, result.postgresObjects))
            && ReadSheet(workbook[2]) == Some(Map(ListingOf, result.missingInPostgres))
            && ReadSheet(workbook[3]) == Some(Map(ListingOf, result.missingInOracle))
  {
    var oracleSheet := CreateObjectSheet("Oracle Objects", result.oracleObjects);
    var postgresSheet := CreateObjectSheet("PostgreSQL Objects", result.postgresObjects);
    var missingInPostgresSheet := CreateObjectSheet("Missing in PostgreSQL", result.missingInPostgres);
    var missingInOracleSheet := CreateObjectSheet("Missing in Oracle", result.missingInOracle);
    workbook := [oracleSheet, postgresSheet, missingInPostgresSheet, missingInOracleSheet];
    assert workbook[0] == oracleSheet && workbook[1] == postgresSheet;
    assert workbook[2] == missingInPostgresSheet && workbook[3] == missingInOracleSheet;
  }

  /** `generateComparisonReport`: compare the schemas, then write the four sheets of the result. */
  method GenerateComparisonReport(oracleCatalog: seq<OracleMetadata.ObjectRow>,
                                  postgresCatalog: seq<PostgresMetadata.ClassRow>,
                                  oracleSchema: string, postgresSchema: string, now: string)
    returns (workbook: seq<Sheet>)
    ensures |workbook| == |SheetNames|
    ensures [workbook[0].name, workbook[1].name, workbook[2].name, workbook[3].name] == SheetNames
    ensures var result := CompareSchemas(oracleCatalog, postgresCatalog, oracleSchema, postgresSchema, now);
            && ReadSheet(workbook[0]) == Some(Map(ListingOf, result.oracleObjects))
            && ReadSheet(workbook[1]) == Some(Map(ListingOf, result.postgresObjects))
            && ReadSheet(workbook[2]) == Some(Map(ListingOf, result.missingInPostgres))
            && ReadSheet(workbook[3]) == Some(Map(ListingOf, result.missingInOracle))
  {
    var result := CompareSchemas(oracleCatalog, postgresCatalog, oracleSchema, postgresSchema, now);
    workbook := WriteReport(result);
  }
}
