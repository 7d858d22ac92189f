# Database object comparator: a Dafny model

This project models the core of a Spring service that compares the objects of an Oracle schema with the objects of a PostgreSQL schema. The service reads both catalogs, computes the two case-insensitive differences ("missing in PostgreSQL", "missing in Oracle"), and renders a four-sheet spreadsheet report.

The model is functional. Descriptors are immutable datatypes. The comparator is a filter over sequences. Each catalog query is a pure selection over an abstract sequence of catalog rows: keep the rows the WHERE clause admits, sort them by the ORDER BY key, project each onto a descriptor. A sheet is a list of rows of cell strings.

| module | file | models |
|---|---|---|
| `Wrappers` | wrappers.dfy | `Option`, for nullable column values |
| `Seqs` | seqs.dfy | order-preserving filter, element-wise map, subsequence |
| `CaseFold` | case_fold.dfy | `String.equalsIgnoreCase` and `toLowerCase`, on ASCII letters |
| `Collation` | collation.dfy | binary string order, multi-column sort keys, `ORDER BY` as insertion sort |
| `DatabaseObjects` | database_objects.dfy | the descriptor `{name, type, schema}` with its dialect details, `equals`, `hashCode` |
| `OracleMetadata` | oracle_metadata.dfy | the queries of `OracleMetadataRepository` |
| `PostgresMetadata` | postgres_metadata.dfy | the queries of `PostgresMetadataRepository` |
| `ComparisonService` | comparison_service.dfy | `compareSchemas`, `createObjectSheet`, `generateComparisonReport` |

Naming and representation choices:

- The Java field `type` is a Dafny keyword. The descriptor field is therefore called `kind`.
- A descriptor's runtime class is given by its `details` constructor. `NoDetails` is a bare `DatabaseObject`. `OracleDetails` holds the extra fields of `OracleObject` and `PostgresDetails` those of `PostgresObject`.
- String order is binary: characters compare by code point. This matches Oracle's `BINARY` sort and PostgreSQL's "C" collation of the catalog `name` and `"char"` columns. SQL leaves the order of rows with equal keys open. Each query contract therefore says "sorted by the key, and a permutation of the admitted rows", not one particular order of ties.
- Fresh reads of CURRENT_TIMESTAMP in the PostgreSQL queries are a parameter `now`. Oracle's TO_CHAR renderings of CREATED and LAST_DDL_TIME arrive already rendered in the catalog row.

What the service does, and does not do:

- The sheets have three columns (`Name, Type, Schema`) and no Status column.
- Matching is on name and type together, not on name alone.
- `compareSchemas` calls only the two all-objects queries, so the report has exactly four sheets.
- There is no connection check and no persisted audit row. `DatabaseComparisonServiceTest` expects connection checks, persistence and per-kind comparisons that `DatabaseComparisonService` does not contain.

## Model

| member | source | states |
|---|---|---|
| `CaseFold.EqualsIgnoreCaseIffSameLower` | src/main/java/com/example/dbcomparator/model/DatabaseObject.java:22-23 | the character-by-character ignore-case test used by `equals` accepts two strings exactly when their lower-cased forms are equal |
| `CaseFold.EqualsIgnoreCaseReflexive` | src/main/java/com/example/dbcomparator/model/DatabaseObject.java:22-23 | every name and type equals itself ignoring case |
| `CaseFold.EqualsIgnoreCaseSymmetric` | src/main/java/com/example/dbcomparator/model/DatabaseObject.java:22-23 | ignore-case equality does not depend on argument order |
| `CaseFold.EqualsIgnoreCaseTransitive` | src/main/java/com/example/dbcomparator/model/DatabaseObject.java:22-23 | ignore-case equality is transitive |
| `DatabaseObjects.EqualsIffSameLowerNameAndType` | src/main/java/com/example/dbcomparator/model/DatabaseObject.java:16-24 | two descriptors are equal iff they have the same runtime class and the same lower-cased name and type |
| `DatabaseObjects.EqualsReflexive` | src/main/java/com/example/dbcomparator/model/DatabaseObject.java:17 | every descriptor equals itself, so the identity short-cut changes no answer |
| `DatabaseObjects.EqualsSymmetric` | src/main/java/com/example/dbcomparator/model/DatabaseObject.java:16-24 | `equals` is symmetric |
| `DatabaseObjects.EqualsTransitive` | src/main/java/com/example/dbcomparator/model/DatabaseObject.java:16-24 | `equals` is transitive |
| `DatabaseObjects.OracleNeverEqualsPostgres` | src/main/java/com/example/dbcomparator/model/DatabaseObject.java:18 | an Oracle descriptor never equals a PostgreSQL descriptor, in either direction, whatever their names |
| `DatabaseObjects.SchemaAndDetailsIgnored` | src/main/java/com/example/dbcomparator/model/DatabaseObject.java:10-23 | changing only the schema, or the details within the same class, keeps a descriptor equal to the original |
| `DatabaseObjects.Int32` | src/main/java/com/example/dbcomparator/model/DatabaseObject.java:28-29 | the hash arithmetic stays in the 32-bit `int` range and agrees with the exact result modulo 2^32 |
| `DatabaseObjects.HashCodeConsistentWithEquals` | src/main/java/com/example/dbcomparator/model/DatabaseObject.java:27-31 | equal descriptors have the same lower-cased name and type, and so equal hash codes when lower-casing uses the root locale |
| `DatabaseObjects.RootLocaleHashIsHashCode` | src/main/java/com/example/dbcomparator/model/DatabaseObject.java:27-31 | the hash as written, run in the root locale, is the consistent hash |
| `DatabaseObjects.TurkishLocaleBreaksHashContract` | src/main/java/com/example/dbcomparator/model/DatabaseObject.java:27-31 | under a Turkish default locale, the equal descriptors named "I" and "i" get different hash codes |
| `Collation.SelectOrderBy` | src/main/java/com/example/dbcomparator/repository/oracle/OracleMetadataRepository.java:29-31 | a WHERE and ORDER BY selection returns each admitted row as often as it occurs in the catalog, only admitted rows, sorted by the key |
| `Collation.SortBy` | src/main/java/com/example/dbcomparator/repository/oracle/OracleMetadataRepository.java:31 | the sorted rows are in key order and are a permutation of the input |
| `OracleMetadata.FindAllObjectsByOwner` | src/main/java/com/example/dbcomparator/repository/oracle/OracleMetadataRepository.java:23-32 | every row of the owner, once per catalog row, ordered by (type, name); each has schema = owner = the argument, id = owner + "." + name, and both timestamps present |
| `OracleMetadata.FindObjectsOfKindByOwner` | src/main/java/com/example/dbcomparator/repository/oracle/OracleMetadataRepository.java:40-117 | the five per-kind queries return exactly the owner's rows of that OBJECT_TYPE, ordered by name; each is typed with the kind's constant, has schema = owner = the argument, and id = owner + "." + name |
| `OracleMetadata.KindQueryRowsHaveThatType` | src/main/java/com/example/dbcomparator/repository/oracle/OracleMetadataRepository.java:41-48 | every descriptor of a per-kind query comes from a catalog row of the owner whose OBJECT_TYPE is that kind |
| `OracleMetadata.FindAllIndexesByOwner` | src/main/java/com/example/dbcomparator/repository/oracle/OracleMetadataRepository.java:125-134 | the owner's indexes, ordered by name, typed INDEX, with null created and lastDdlTime |
| `OracleMetadata.ConstraintTypeLabel` | src/main/java/com/example/dbcomparator/repository/oracle/OracleMetadataRepository.java:144-150 | every constraint code maps to one of the five labels |
| `OracleMetadata.ConstraintLabelRoundTrip` | src/main/java/com/example/dbcomparator/repository/oracle/OracleMetadataRepository.java:144-150 | P, U, C and R map to distinct labels that read back to the code; every other code maps to CONSTRAINT |
| `OracleMetadata.FindAllConstraintsByOwner` | src/main/java/com/example/dbcomparator/repository/oracle/OracleMetadataRepository.java:142-159 | the owner's constraints, ordered by name, typed by the constraint-code label, with null timestamps and id = owner + "." + name |
| `PostgresMetadata.RelkindLabelRoundTrip` | src/main/java/com/example/dbcomparator/repository/postgres/PostgresMetadataRepository.java:25-32 | the relkind mapping is invertible: each code is recovered from its label, and exactly the five listed codes get the five labels |
| `PostgresMetadata.FindAllObjectsBySchema` | src/main/java/com/example/dbcomparator/repository/postgres/PostgresMetadataRepository.java:23-51 | exactly the schema's rows with relkind r, v, i, S or f, ordered by raw relkind code and then name; type is one of the five labels and equals objectType; id = schema + "." + name; schema = schemaName = the argument |
| `PostgresMetadata.SequenceListedBeforeIndex` | src/main/java/com/example/dbcomparator/repository/postgres/PostgresMetadataRepository.java:50 | the order follows the raw code, not the label: a SEQUENCE is listed before an INDEX although "INDEX" sorts first |
| `PostgresMetadata.FindRelationsOfKindBySchema` | src/main/java/com/example/dbcomparator/repository/postgres/PostgresMetadataRepository.java:59-145 | the table, view, sequence and index queries return exactly the schema's relations of that relkind, ordered by name, with type = objectType = the kind's constant |
| `PostgresMetadata.RelationKindLabelAgrees` | src/main/java/com/example/dbcomparator/repository/postgres/PostgresMetadataRepository.java:25-32 | each per-kind query uses the label that the all-objects mapping gives the same relkind |
| `PostgresMetadata.FindAllFunctionsBySchema` | src/main/java/com/example/dbcomparator/repository/postgres/PostgresMetadataRepository.java:116-126 | every pg_proc entry of the schema, ordered by name, typed FUNCTION |
| `PostgresMetadata.FindAllProceduresBySchema` | src/main/java/com/example/dbcomparator/repository/postgres/PostgresMetadataRepository.java:153-163 | the schema's PROCEDURE routines, ordered by name, typed PROCEDURE |
| `PostgresMetadata.ProceduresAreProcedureRoutines` | src/main/java/com/example/dbcomparator/repository/postgres/PostgresMetadataRepository.java:160-161 | every returned procedure comes from a routine of the schema whose routine_type is PROCEDURE |
| `PostgresMetadata.FindAllConstraintsBySchema` | src/main/java/com/example/dbcomparator/repository/postgres/PostgresMetadataRepository.java:171-180 | the schema's constraints, ordered by name, with constraint_type passed through unmapped as both type and objectType |
| `ComparisonService.Missing` | src/main/java/com/example/dbcomparator/service/DatabaseComparisonService.java:50-55 | the result is a subsequence of the input list, keeping order and adding nothing, and no element of it has a match on the other side |
| `ComparisonService.MissingMembership` | src/main/java/com/example/dbcomparator/service/DatabaseComparisonService.java:50-63 | an object is reported iff it is in its own list and no object of the other list has its name and its type, ignoring case |
| `ComparisonService.MissingMultiplicity` | src/main/java/com/example/dbcomparator/service/DatabaseComparisonService.java:50-63 | duplicates are not collapsed: an unmatched object is reported as often as it is listed, a matched one zero times |
| `ComparisonService.MissingMultiplicities` | src/main/java/com/example/dbcomparator/service/DatabaseComparisonService.java:50-63 | the multiplicity statement for every object at once: unmatched objects keep their count, matched ones vanish |
| `ComparisonService.MissingEmptyIffAllMatched` | src/main/java/com/example/dbcomparator/service/DatabaseComparisonService.java:50-63 | a difference list is empty iff every object of that side has a match |
| `ComparisonService.CompareObjects` | src/main/java/com/example/dbcomparator/service/DatabaseComparisonService.java:50-72 | both inputs are passed through; missingInPostgres and missingInOracle are mirror-image subsequences holding exactly the unmatched objects of each side, each as often as it is listed there |
| `ComparisonService.MatchesSymmetric` | src/main/java/com/example/dbcomparator/service/DatabaseComparisonService.java:53-62 | the two directions use the same symmetric matching relation |
| `ComparisonService.MatchesIsClassAgnosticEquals` | src/main/java/com/example/dbcomparator/service/DatabaseComparisonService.java:53-54 | the match is `DatabaseObject.equals` with the runtime class removed; `equals` itself never matches an Oracle object with a PostgreSQL one |
| `ComparisonService.CompareWithEmpty` | src/main/java/com/example/dbcomparator/service/DatabaseComparisonService.java:50-63 | an empty side makes the other side's whole list, in order, its difference, and its own difference empty; two empty lists give two empty differences |
| `ComparisonService.CompareCaseVariantsIsEmpty` | src/main/java/com/example/dbcomparator/service/DatabaseComparisonService.java:53-62 | comparing a list with a copy that differs only in letter case gives two empty differences |
| `ComparisonService.CompareWithItselfIsEmpty` | src/main/java/com/example/dbcomparator/service/DatabaseComparisonService.java:50-63 | comparing a list with itself gives two empty differences |
| `ComparisonService.SameNameDifferentTypeOnBothSides` | src/main/java/com/example/dbcomparator/service/DatabaseComparisonService.java:53-62 | a same-name, different-type pair is reported on both sides |
| `ComparisonService.OneTableOnlyOnEachSide` | src/main/java/com/example/dbcomparator/service/DatabaseComparisonService.java:50-63 | with tables {A, ORA_ONLY} against {a, pg_only}, exactly ORA_ONLY is missing in PostgreSQL and exactly pg_only is missing in Oracle |
| `ComparisonService.CompareSchemas` | src/main/java/com/example/dbcomparator/service/DatabaseComparisonService.java:39-75 | the two fetched lists are the schemas' catalog rows as the all-objects queries describe and order them; each difference is a subsequence of its side's list holding every unmatched object as often as it is listed and nothing else; every reported object is owned by, or in, the requested schema |
| `ComparisonService.CreateObjectSheet` | src/main/java/com/example/dbcomparator/service/DatabaseComparisonService.java:124-144 | the sheet has the header Name, Type, Schema, then row i + 1 = (name, type, schema) of objects[i], so 1 + \|objects\| rows; reading it back gives the objects' listings in order |
| `ComparisonService.WriteReport` | src/main/java/com/example/dbcomparator/service/DatabaseComparisonService.java:97-107 | exactly four sheets, named Oracle Objects, PostgreSQL Objects, Missing in PostgreSQL, Missing in Oracle in that order, each reading back to the listings of its result entry in order |
| `ComparisonService.GenerateComparisonReport` | src/main/java/com/example/dbcomparator/service/DatabaseComparisonService.java:85-107 | the report is the four-sheet workbook of the comparison of the two schemas: sheet k reads back to the listings of the k-th entry of `compareSchemas`'s result |

## Left out

- Query execution, JDBC and the live catalogs. Each query is read as its SQL alone: a function of an abstract row sequence that returns one descriptor per selected catalog row. The join of pg_class with pg_namespace is already resolved into each `ClassRow`. JPA entity identity plays no part: `OracleObject` and `PostgresObject` are not annotated `@Entity`, and `DatabaseObject` is not a `@MappedSuperclass`.
- TO_CHAR and to_char timestamp formatting: the formatted text is an input (Oracle) or the parameter `now` (PostgreSQL).
- Apache POI: cell styles, column auto-sizing, and writing the workbook to bytes. A workbook is a list of sheets of string rows, and the byte output is not modelled.
- Spring configuration, dependency injection, the HTTP controller and the connection probe programs.
- Connection checks, persistence of difference rows and per-kind comparisons: `DatabaseComparisonServiceTest` expects them, but `DatabaseComparisonService` contains none of them.
- Lombok's generated `equals`/`hashCode` on `OracleObject` and `PostgresObject`. With `callSuper = true` they also compare the subclass fields. Only the base-class contract is modelled.
- `equals(null)` and null fields: names, types and other columns are non-null strings. Nullable timestamps are `Option`.
- The `this == obj` shortcut of `equals` is not written. `DatabaseObjects.EqualsReflexive` shows it changes no answer.
- CaseFold.EqualsIgnoreCaseIffSameLower: case mapping is ASCII-only. Java's `Character.toUpperCase`/`toLowerCase` also fold non-ASCII letters, which the model leaves unchanged.
- DatabaseObjects.HashCodeConsistentWithEquals: holds under the ASCII folding of the model. In Java, `"İ".toLowerCase(Locale.ROOT)` is two characters while `"İ".equalsIgnoreCase("i")` holds, so root-locale lower-casing alone does not make the hash consistent for every non-ASCII name.
- DatabaseObjects.StringHash: Dafny `char` is a Unicode scalar value. Java hashes UTF-16 code units, so a character outside the Basic Multilingual Plane hashes differently. For ASCII text the two agree.
- DatabaseObjects.LowerCharIn: models only the Turkish rule for dotted and dotless I. It does not model other locale-specific lower-casing.
- Collation.SortBy: real catalogs may use a linguistic collation (an Oracle NLS_SORT other than BINARY, or a non-C database collation). The model uses binary order throughout.
- PostgresMetadata.FindAllFunctionsBySchema: pg_proc is not filtered by prokind, so procedures and aggregates are listed as FUNCTION too. The model keeps this: every pg_proc row of the schema is returned.
- ComparisonService.CreateObjectSheet: the model returns a sheet for a list of any length. `XSSFSheet.createRow` rejects a row index above 1,048,575, so in Java `createObjectSheet`, and with it `generateComparisonReport`, throws `IllegalArgumentException` for a list of 1,048,576 objects or more. That error path is not modelled.
- ComparisonService.CompareObjects: accepts descriptors of any runtime class, because the matching test reads only name and type. The Java list types restrict each side to its dialect's class.

## Findings

| source | as written | input that shows it | evidently intended | confidence | as-written member | corrected member |
|---|---|---|---|---|---|---|
| src/main/java/com/example/dbcomparator/model/DatabaseObject.java:28-29 | `hashCode` lower-cases with `String.toLowerCase()`, which uses the JVM default locale. `equals` uses `equalsIgnoreCase`, which does not depend on the locale. | Default locale Turkish: descriptors named "I" and "i" with the same type are equal, but "I" lower-cases to dotless i (U+0131), so the hashes differ (31·0x131 + h against 31·0x69 + h) | equal objects have equal hash codes, that is, lower-casing with `Locale.ROOT` | medium, not executed | `DatabaseObjects.TurkishLocaleBreaksHashContract` | `DatabaseObjects.HashCodeConsistentWithEquals` |
