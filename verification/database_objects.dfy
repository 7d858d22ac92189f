/**
 * The object descriptor shared by both dialects, with the equality and hash
 * code of the base class `DatabaseObject`.
 *
 * The Java field `type` is a Dafny keyword; it is the field `kind` here.
 * The runtime class of a descriptor is given by its `details`: a bare
 * `DatabaseObject` has none, an `OracleObject` and a `PostgresObject` carry
 * their dialect's extra columns.
 */
module DatabaseObjects {
  import opened Wrappers
  import opened CaseFold

  datatype Details =
    | NoDetails
    | OracleDetails(id: string, owner: string, status: string,
                    created: Option<string>, lastDdlTime: Option<string>)
    | PostgresDetails(id: string, schemaName: string, objectType: string,
                      createdAt: string, updatedAt: string)

  datatype RuntimeClass = DatabaseObjectClass | OracleObjectClass | PostgresObjectClass

  datatype DatabaseObject = DatabaseObject(name: string, kind: string, schema: string, details: Details)
  {
    function Class(): RuntimeClass {
      match details
      case NoDetails => DatabaseObjectClass
      case OracleDetails(_, _, _, _, _) => OracleObjectClass
      case PostgresDetails(_, _, _, _, _) => PostgresObjectClass
    }
  }

  /** The primary key both repositories build: schema (or owner), a dot, and the object name. */
  function QualifiedId(schema: string, name: string): string {
    schema + "." + name
  }

  /** Sort key of a descriptor listed by name alone. */
  function NameKey(o: DatabaseObject): seq<string> {
    [o.name]
  }

  /**
   * `DatabaseObject.equals`: same runtime class, names equal ignoring case and
   * types equal ignoring case.  The schema and the dialect details take no part.
   */
  predicate Equals(a: DatabaseObject, b: DatabaseObject) {
    && a.Class() == b.Class()
    && EqualsIgnoreCase(a.name, b.name)
    && EqualsIgnoreCase(a.kind, b.kind)
  }

  /** Same class, and name and type agree once lower-cased. */
  lemma EqualsIffSameLowerNameAndType(a: DatabaseObject, b: DatabaseObject)
    ensures Equals(a, b) <==>
              && a.Class() == b.Class()
              && ToLower(a.name) == ToLower(b.name)
              && ToLower(a.kind) == ToLower(b.kind)
  {
    EqualsIgnoreCaseIffSameLower(a.name, b.name);
    EqualsIgnoreCaseIffSameLower(a.kind, b.kind);
  }

  /** Every descriptor equals itself, so the identity short-cut of `equals` changes no answer. */
  lemma EqualsReflexive(a: DatabaseObject)
    ensures Equals(a, a)
  {
    EqualsIgnoreCaseReflexive(a.name);
    EqualsIgnoreCaseReflexive(a.kind);
  }

  lemma EqualsSymmetric(a: DatabaseObject, b: DatabaseObject)
    ensures Equals(a, b) <==> Equals(b, a)
  {
    EqualsIgnoreCaseSymmetric(a.name, b.name);
    EqualsIgnoreCaseSymmetric(a.kind, b.kind);
  }

  lemma EqualsTransitive(a: DatabaseObject, b: DatabaseObject, c: DatabaseObject)
    requires Equals(a, b) && Equals(b, c)
    ensures Equals(a, c)
  {
    EqualsIgnoreCaseTransitive(a.name, b.name, c.name);
    EqualsIgnoreCaseTransitive(a.kind, b.kind, c.kind);
  }

  /** An Oracle descriptor never equals a PostgreSQL descriptor, whatever their names and types. */
  lemma OracleNeverEqualsPostgres(o: DatabaseObject, p: DatabaseObject)
    requires o.details.OracleDetails? && p.details.PostgresDetails?
    ensures !Equals(o, p) && !Equals(p, o)
  {
  }

  /** Replacing the schema and the same-class details of a descriptor leaves it equal to the original. */
  lemma SchemaAndDetailsIgnored(a: DatabaseObject, schema: string, details: Details)
    requires a.(details := details).Class() == a.Class()
    ensures Equals(a, a.(schema := schema, details := details))
  {
    EqualsIgnoreCaseReflexive(a.name);
    EqualsIgnoreCaseReflexive(a.kind);
  }

  // ---------------------------------------------------------------------
  // hashCode, in Java's 32-bit two's-complement `int` arithmetic

  const TwoTo31: int := 0x8000_0000
  const TwoTo32: int := 0x1_0000_0000

  /** Java's `int` wrap-around of an exact integer result. */
  function Int32(x: int): (r: int)
    ensures -TwoTo31 <= r < TwoTo31
    ensures (r - x) % TwoTo32 == 0
  {
    (x + TwoTo31) % TwoTo32 - TwoTo31
  }

  /** `String.hashCode`: h = 31 * h + c over the characters, wrapping at every step. */
  function StringHash(s: string): int
    decreases |s|
  {
    if |s| == 0 then 0 else Int32(31 * StringHash(s[..|s| - 1]) + s[|s| - 1] as int)
  }

  function CombineHashes(nameHash: int, typeHash: int): int {
    Int32(31 * nameHash + typeHash)
  }

  /** `DatabaseObject.hashCode` over the lower-cased name and type, with root-locale lower-casing. */
  function HashCode(o: DatabaseObject): int {
    CombineHashes(StringHash(ToLower(o.name)), StringHash(ToLower(o.kind)))
  }

  /** Equal descriptors lower-case to the same name and type, so they have equal hash codes. */
  lemma HashCodeConsistentWithEquals(a: DatabaseObject, b: DatabaseObject)
    requires Equals(a, b)
    ensures ToLower(a.name) == ToLower(b.name) && ToLower(a.kind) == ToLower(b.kind)
    ensures HashCode(a) == HashCode(b)
  {
    EqualsIffSameLowerNameAndType(a, b);
  }

  // ---------------------------------------------------------------------
  // hashCode as written: `String.toLowerCase()` uses the JVM default locale

  datatype Locale = RootLocale | TurkishLocale

  /**
   * `Character`-level lower-casing under a locale.  In the Turkish locale
   * 'I' lower-cases to dotless i (U+0131) and dotted capital I (U+0130) to 'i'; every
   * other character is lower-cased as in the root locale.
   */
  function LowerCharIn(locale: Locale, c: char): char {
    if locale == TurkishLocale && c == 'I' then '\U{0131}'
    else if locale == TurkishLocale && c == '\U{0130}' then 'i'
    else LowerChar(c)
  }

  function ToLowerIn(locale: Locale, s: string): string {
    seq(|s|, i requires 0 <= i < |s| => LowerCharIn(locale, s[i]))
  }

  /** `DatabaseObject.hashCode` exactly as written, with the default locale as a parameter. */
  function HashCodeInDefaultLocale(locale: Locale, o: DatabaseObject): int {
    CombineHashes(StringHash(ToLowerIn(locale, o.name)), StringHash(ToLowerIn(locale, o.kind)))
  }

  /** In the root locale the hash as written is the consistent `HashCode`. */
  lemma RootLocaleHashIsHashCode(o: DatabaseObject)
    ensures HashCodeInDefaultLocale(RootLocale, o) == HashCode(o)
  {
    assert ToLowerIn(RootLocale, o.name) == ToLower(o.name);
    assert ToLowerIn(RootLocale, o.kind) == ToLower(o.kind);
  }

  /**
   * Under a Turkish default locale two descriptors that `equals` accepts
   * ("I" and "i", same type) get different hash codes.
   */
  lemma TurkishLocaleBreaksHashContract()
    ensures var a := DatabaseObject("I", "T", "S", NoDetails);
            var b := DatabaseObject("i", "T", "S", NoDetails);
            Equals(a, b) && HashCodeInDefaultLocale(TurkishLocale, a) != HashCodeInDefaultLocale(TurkishLocale, b)
  {
    var a := DatabaseObject("I", "T", "S", NoDetails);
    var b := DatabaseObject("i", "T", "S", NoDetails);
    assert CharsMatchIgnoreCase('I', 'i');
    assert ToLowerIn(TurkishLocale, "I") == ['\U{0131}'];
    assert ToLowerIn(TurkishLocale, "i") == ['i'];
    assert StringHash(['\U{0131}']) == 0x131;
    assert StringHash(['i']) == 0x69;
    var t := StringHash(ToLowerIn(TurkishLocale, "T"));
    assert -TwoTo31 <= t < TwoTo31;
    assert HashCodeInDefaultLocale(TurkishLocale, a) == Int32(31 * 0x131 + t);
    assert HashCodeInDefaultLocale(TurkishLocale, b) == Int32(31 * 0x69 + t);
  }
}
